/**
 * The post service's request building (src/services/postService.ts): the
 * paging window of a user's posts and the multipart form of a new post.
 */
module PostService {
  import opened Options
  import opened Domain

  const DefaultLimit := 20
  const DefaultPage := 1

  /** The caller's paging parameters; the object and each field may be missing. */
  datatype PaginationParams = PaginationParams(page: Option<int>, limit: Option<int>)

  /** The query string of `getUserPosts`. */
  datatype UserPostsQuery = UserPostsQuery(filter: string, limit: int, offset: int)

  /** `getUserPosts`: always the "all" filter; a window of `limit` posts starting after `page - 1` full windows. */
  function UserPostsQueryOf(params: Option<PaginationParams>): (r: UserPostsQuery)
    ensures r.filter == "all"
    ensures r.limit == (if params.Some? then params.value.limit.GetOr(DefaultLimit) else DefaultLimit)
    ensures var page := if params.Some? then params.value.page.GetOr(DefaultPage) else DefaultPage;
      r.offset == (page - 1) * r.limit
  {
    var limit := if params.Some? then params.value.limit.GetOr(DefaultLimit) else DefaultLimit;
    var page := if params.Some? then params.value.page.GetOr(DefaultPage) else DefaultPage;
    UserPostsQuery("all", limit, (page - 1) * limit)
  }

  /**
   * Page 1 starts at offset 0, consecutive pages' windows are adjacent, and
   * for a positive limit the page number can be read back from the offset.
   */
  lemma PagesTileThePosts(page: int, limit: int)
    requires limit > 0 && page >= 1
    ensures UserPostsQueryOf(Some(PaginationParams(Some(1), Some(limit)))).offset == 0
    ensures UserPostsQueryOf(Some(PaginationParams(Some(page + 1), Some(limit)))).offset
      == UserPostsQueryOf(Some(PaginationParams(Some(page), Some(limit)))).offset + limit
    ensures UserPostsQueryOf(Some(PaginationParams(Some(page), Some(limit)))).offset / limit + 1 == page
  {
    var q := UserPostsQueryOf(Some(PaginationParams(Some(page), Some(limit))));
    var next := UserPostsQueryOf(Some(PaginationParams(Some(page + 1), Some(limit))));
    assert q.offset == (page - 1) * limit;
    assert next.offset == page * limit;
    NextWindow(page, limit);
    DivMultiple(page - 1, limit);
  }

  lemma NextWindow(page: int, limit: int)
    ensures page * limit == (page - 1) * limit + limit
  {
  }

  lemma DivMultiple(k: nat, limit: int)
    requires limit > 0
    ensures k * limit / limit == k
  {
    var q, m := k * limit / limit, k * limit % limit;
    assert q * limit + m == k * limit && 0 <= m < limit;
    assert (q - k) * limit == -m;
    if q > k {
      MulAtLeast(q - k, limit);
    } else if q < k {
      MulAtLeast(k - q, limit);
    }
  }

  lemma MulAtLeast(a: int, b: int)
    requires a >= 1 && b > 0
    ensures a * b >= b
  {
  }

  /** With no parameters the query is the first window of 20. */
  lemma DefaultQuery()
    ensures UserPostsQueryOf(None) == UserPostsQuery("all", 20, 0)
    ensures UserPostsQueryOf(Some(PaginationParams(None, None))) == UserPostsQuery("all", 20, 0)
  {
  }

  /** `createPost`'s form: the content first, then one `images` entry per image, in order. */
  function CreatePostForm(req: CreatePostRequest): (r: seq<FormEntry>)
    ensures |r| == 1 + |req.images.GetOr([])|
    ensures r[0] == FormEntry("content", TextField(req.content))
    ensures forall i :: 0 <= i < |req.images.GetOr([])| ==> r[1 + i] == FormEntry("images", FileField(req.images.GetOr([])[i]))
  {
    var images := req.images.GetOr([]);
    [FormEntry("content", TextField(req.content))]
      + seq(|images|, i requires 0 <= i < |images| => FormEntry("images", FileField(images[i])))
  }

  /** What a server reads back from the form: the first content field and the files under `images`, in order. */
  function ReadBack(form: seq<FormEntry>): (r: Option<(string, seq<File>)>)
  {
    if form == [] || form[0].key != "content" || !form[0].value.TextField? then None
    else Some((form[0].value.text, FilesUnder(form[1..], "images")))
  }

  function FilesUnder(form: seq<FormEntry>, key: string): seq<File> {
    if form == [] then []
    else (if form[0].key == key && form[0].value.FileField? then [form[0].value.file] else []) + FilesUnder(form[1..], key)
  }

  lemma {:induction false} FilesUnderImages(images: seq<File>)
    ensures FilesUnder(seq(|images|, i requires 0 <= i < |images| => FormEntry("images", FileField(images[i]))), "images") == images
  {
    var entries := seq(|images|, i requires 0 <= i < |images| => FormEntry("images", FileField(images[i])));
    if images != [] {
      var rest := seq(|images[1..]|, i requires 0 <= i < |images[1..]| => FormEntry("images", FileField(images[1..][i])));
      assert entries[1..] == rest;
      FilesUnderImages(images[1..]);
      assert images == [images[0]] + images[1..];
    }
  }

  /** The form carries the whole request: the content and every image, in order; absent and empty image lists read back alike. */
  lemma CreatePostFormRoundTrip(req: CreatePostRequest)
    ensures ReadBack(CreatePostForm(req)) == Some((req.content, req.images.GetOr([])))
  {
    var form := CreatePostForm(req);
    var images := req.images.GetOr([]);
    assert form[1..] == seq(|images|, i requires 0 <= i < |images| => FormEntry("images", FileField(images[i])));
    FilesUnderImages(images);
  }
}
