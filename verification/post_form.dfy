/**
 * The post form (src/components/common/PostForm.tsx): up to ten images with
 * a preview URL each, and the content schema. Object URLs come from the
 * browser; `previewOf` stands for `URL.createObjectURL`.
 */
module PostForm {
  import opened Options
  import opened Domain
  import opened Forms
  import Seqs
  import PostService

  const MaxImages := 10
  const MaxContent := 2200

  datatype FormState = FormState(images: seq<File>, previewUrls: seq<string>)

  /** One preview URL per image, in image order. */
  function Previews(images: seq<File>, previewOf: File -> string): (r: seq<string>)
    ensures |r| == |images|
    ensures forall i :: 0 <= i < |images| ==> r[i] == previewOf(images[i])
  {
    seq(|images|, i requires 0 <= i < |images| => previewOf(images[i]))
  }

  /** `handleImageSelect`: the chosen files go after the current images, and only the first ten are kept. */
  function SelectImages(s: FormState, files: seq<File>, previewOf: File -> string): (r: FormState)
    ensures |r.images| == if |s.images| + |files| < MaxImages then |s.images| + |files| else MaxImages
    ensures r.images == (s.images + files)[..|r.images|]
    ensures |s.images| <= MaxImages ==> r.images[..|s.images|] == s.images
    ensures |r.previewUrls| == |r.images|
  {
    var images := Seqs.Take(s.images + files, MaxImages);
    FormState(images, Previews(images, previewOf))
  }

  /** Selecting never leaves more than ten images, so the cap holds however often it is used. */
  lemma SelectKeepsCap(s: FormState, files: seq<File>, previewOf: File -> string)
    ensures |SelectImages(s, files, previewOf).images| <= MaxImages
  {
  }

  /** `removeImage(index)`: the image and its preview at `index` go; the rest keep their order. */
  function RemoveImage(s: FormState, index: int): (r: FormState)
    ensures r.images == Seqs.RemoveAt(s.images, index) && r.previewUrls == Seqs.RemoveAt(s.previewUrls, index)
    ensures |s.images| == |s.previewUrls| ==> |r.images| == |r.previewUrls|
  {
    FormState(Seqs.RemoveAt(s.images, index), Seqs.RemoveAt(s.previewUrls, index))
  }

  /** After removal each remaining image still sits next to its own preview. */
  lemma RemoveKeepsPairs(s: FormState, index: int, previewOf: File -> string)
    requires s.previewUrls == Previews(s.images, previewOf)
    ensures RemoveImage(s, index).previewUrls == Previews(RemoveImage(s, index).images, previewOf)
  {
    var r := RemoveImage(s, index);
    assert |r.previewUrls| == |r.images|;
  }

  /** `createPostSchema`: the content is 1 to 2200 characters. */
  function ContentIssues(content: string): (r: seq<Issue>)
    ensures r == [] <==> 1 <= Text.Utf16Length(content) <= MaxContent
  {
    Check(Text.Utf16Length(content) >= 1, Issue("content", Required)) + Check(Text.Utf16Length(content) <= MaxContent, Issue("content", TooLong(MaxContent)))
  }

  /** The request sent on submit: the images only when there are any. */
  function SubmitRequest(content: string, s: FormState): (r: CreatePostRequest)
    ensures r.content == content
    ensures r.images.None? <==> s.images == []
    ensures r.images.Some? ==> r.images.value == s.images
  {
    CreatePostRequest(content, if |s.images| > 0 then Some(s.images) else None)
  }

  /** The multipart form the submit sends: the content, then exactly the selected images, in order. */
  lemma SubmittedForm(content: string, s: FormState)
    ensures var form := PostService.CreatePostForm(SubmitRequest(content, s));
      && |form| == 1 + |s.images|
      && form[0] == FormEntry("content", TextField(content))
      && forall i :: 0 <= i < |s.images| ==> form[1 + i] == FormEntry("images", FileField(s.images[i]))
  {
  }
}
