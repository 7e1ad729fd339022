/**
 * The edit-profile dialog (src/components/common/EditProfileModal.tsx):
 * its schema, the values the form is reset to when it opens, and the check
 * on a new profile picture. The URL format check belongs to the validation
 * library and is a parameter here.
 */
module EditProfileModal {
  import opened Options
  import Text
  import opened Forms
  import opened Domain

  datatype EditInput = EditInput(fullName: string, bio: Option<string>, website: Option<string>, gender: string)

  const Genders := ["male", "female", "other"]

  /** `z.string().max(n).optional().or(z.literal(""))`: absent, within `n` characters, or empty. */
  predicate OptionalUpTo(o: Option<string>, n: nat) {
    o.None? || Text.Utf16Length(o.value) <= n || o.value == ""
  }

  /** `z.string().url().optional().or(z.literal(""))`. */
  predicate OptionalUrl(o: Option<string>, isUrl: string -> bool) {
    o.None? || isUrl(o.value) || o.value == ""
  }

  function Issues(f: EditInput, isUrl: string -> bool): seq<Issue> {
    Check(Text.Utf16Length(f.fullName) >= 1, Issue("fullName", Required))
    + Check(Text.Utf16Length(f.fullName) <= 50, Issue("fullName", TooLong(50)))
    + Check(OptionalUpTo(f.bio, 150), Issue("bio", TooLong(150)))
    + Check(OptionalUrl(f.website, isUrl), Issue("website", Format))
    + Check(f.gender in Genders, Issue("gender", NotOneOf))
  }

  /** No issue is reported exactly when every field rule holds. */
  lemma NoIssues(f: EditInput, isUrl: string -> bool)
    ensures Issues(f, isUrl) == [] <==> && 1 <= Text.Utf16Length(f.fullName) <= 50
                                        && (f.bio.None? || Text.Utf16Length(f.bio.value) <= 150)
                                        && OptionalUrl(f.website, isUrl)
                                        && f.gender in {"male", "female", "other"}
  {
    assert f.gender in Genders <==> f.gender in {"male", "female", "other"};
  }

  /** `editProfileSchema.parse`: only the full name is trimmed. */
  function Validate(f: EditInput, isUrl: string -> bool): (r: Result<EditInput, seq<Issue>>)
    ensures r.Ok? <==> && 1 <= Text.Utf16Length(f.fullName) <= 50
                       && (f.bio.None? || Text.Utf16Length(f.bio.value) <= 150)
                       && OptionalUrl(f.website, isUrl)
                       && f.gender in {"male", "female", "other"}
    ensures r.Ok? ==> r.value == f.(fullName := Text.Trim(f.fullName))
    ensures r.Err? ==> r.error != []
  {
    NoIssues(f, isUrl);
    var issues := Issues(f, isUrl);
    if issues == [] then Ok(f.(fullName := Text.Trim(f.fullName))) else Err(issues)
  }

  /** The `defaultValues` the form is created with. */
  const Defaults := EditInput("", Some(""), Some(""), "male")

  /** The profile fields the dialog is opened with; any of them may be missing or empty. */
  datatype ProfileFields = ProfileFields(
    fullName: Option<string>,
    bio: Option<string>,
    website: Option<string>,
    gender: Option<string>)

  /** The values the form is reset to on opening: a missing field becomes "", a missing gender "male". */
  function OnOpen(p: ProfileFields): (r: EditInput)
    ensures r.fullName == (if IsTruthy(p.fullName) then p.fullName.value else "")
    ensures r.bio == Some(if IsTruthy(p.bio) then p.bio.value else "")
    ensures r.website == Some(if IsTruthy(p.website) then p.website.value else "")
    ensures r.gender == (if IsTruthy(p.gender) then p.gender.value else "male")
  {
    EditInput(OrElse(p.fullName, ""), Some(OrElse(p.bio, "")), Some(OrElse(p.website, "")), OrElse(p.gender, "male"))
  }

  /** A profile with nothing filled in opens with the form's default values. */
  lemma EmptyProfileOpensWithDefaults()
    ensures OnOpen(ProfileFields(None, None, None, None)) == Defaults
  {
  }

  /** The gender is copied unchecked: a stored value outside the enumeration fails validation on submit. */
  lemma StoredGenderNotChecked(isUrl: string -> bool)
    ensures Validate(OnOpen(ProfileFields(Some("Name"), None, None, Some("unknown"))), isUrl).Err?
  {
  }

  const ImageTypes := ["image/jpeg", "image/jpg", "image/png", "image/gif"]
  const MaxImageBytes := 5 * 1024 * 1024

  /** The outcome of choosing a new profile picture. */
  datatype ImageCheck = WrongType | TooLarge | Upload(file: File)

  /** The type is checked first, then the size; only an accepted file is uploaded. */
  function CheckImage(file: File): (r: ImageCheck)
    ensures r.WrongType? <==> file.mimeType !in ImageTypes
    ensures r.TooLarge? <==> file.mimeType in ImageTypes && file.size > MaxImageBytes
    ensures r.Upload? <==> file.mimeType in ImageTypes && file.size <= MaxImageBytes
    ensures r.Upload? ==> r.file == file
  {
    if file.mimeType !in ImageTypes then WrongType
    else if file.size > MaxImageBytes then TooLarge
    else Upload(file)
  }

  /**
   * Only `image/` types are uploaded; the limit is inclusive at 5 MiB; and
   * a file no larger than an uploaded one of the same type is uploaded too.
   */
  lemma CheckImageBounds(file: File, smaller: File)
    ensures CheckImage(file).Upload? ==> Text.StartsWith(file.mimeType, "image/")
    ensures CheckImage(File(file.name, "image/png", MaxImageBytes)).Upload?
    ensures CheckImage(File(file.name, "image/png", MaxImageBytes + 1)).TooLarge?
    ensures CheckImage(file).Upload? && smaller.mimeType == file.mimeType && smaller.size <= file.size ==>
      CheckImage(smaller).Upload?
  {
    if CheckImage(file).Upload? {
      var t := file.mimeType;
      assert t in ImageTypes;
      assert t[..6] == "image/" by {
        if t == "image/jpeg" { assert t[..6] == "image/"; }
        else if t == "image/jpg" { assert t[..6] == "image/"; }
        else if t == "image/png" { assert t[..6] == "image/"; }
        else { assert t == "image/gif"; assert t[..6] == "image/"; }
      }
    }
    assert "image/png" in ImageTypes;
  }
}
