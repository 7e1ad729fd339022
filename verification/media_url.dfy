/**
 * `getMediaUrl`, the helper several components define to turn a stored
 * media path into a URL. Two variants exist: some components pass through
 * paths starting with "http" or "//", the others only those starting
 * with "http". `baseURL` is the HTTP client's configured base URL.
 */
module MediaUrl {
  import opened Options
  import Text

  /** The variant of CommentModal, EditProfileModal, HomePage and RightSidebar. */
  function Resolve(baseUrl: string, path: Option<string>): (r: string)
    ensures !IsTruthy(path) ==> r == ""
    ensures IsTruthy(path) && (Text.StartsWith(path.value, "http") || Text.StartsWith(path.value, "//")) ==> r == path.value
    ensures IsTruthy(path) && !Text.StartsWith(path.value, "http") && !Text.StartsWith(path.value, "//") ==> r == baseUrl + path.value
  {
    if !IsTruthy(path) then ""
    else if Text.StartsWith(path.value, "http") || Text.StartsWith(path.value, "//") then path.value
    else baseUrl + path.value
  }

  /** The variant of ProfilePage, FollowListModal and SearchPanel: protocol-relative paths are not special-cased. */
  function ResolveHttpOnly(baseUrl: string, path: Option<string>): (r: string)
    ensures !IsTruthy(path) ==> r == ""
    ensures IsTruthy(path) && Text.StartsWith(path.value, "http") ==> r == path.value
    ensures IsTruthy(path) && !Text.StartsWith(path.value, "http") ==> r == baseUrl + path.value
  {
    if !IsTruthy(path) then ""
    else if Text.StartsWith(path.value, "http") then path.value
    else baseUrl + path.value
  }

  /** The two variants differ exactly on paths starting with "//" (given a non-empty base URL). */
  lemma VariantsDiffer(baseUrl: string, path: Option<string>)
    requires baseUrl != ""
    ensures Resolve(baseUrl, path) != ResolveHttpOnly(baseUrl, path)
        <==> IsTruthy(path) && Text.StartsWith(path.value, "//")
  {
    if IsTruthy(path) && Text.StartsWith(path.value, "//") {
      assert path.value[0] == '/';
      assert !Text.StartsWith(path.value, "http");
      assert |baseUrl + path.value| > |path.value|;
    }
  }

  /** A URL that is already absolute is a fixed point of both variants. */
  lemma AbsoluteUrlsUnchanged(baseUrl: string, url: string)
    requires Text.StartsWith(url, "http")
    ensures Resolve(baseUrl, Some(url)) == url && ResolveHttpOnly(baseUrl, Some(url)) == url
  {
  }

  /** A relative path comes out as the base URL followed by the path, so the path can be read back. */
  lemma RelativePathRecoverable(baseUrl: string, path: string)
    requires path != "" && !Text.StartsWith(path, "http") && !Text.StartsWith(path, "//")
    ensures var url := Resolve(baseUrl, Some(path));
      Text.StartsWith(url, baseUrl) && url[|baseUrl|..] == path
  {
    var url := Resolve(baseUrl, Some(path));
    assert url == baseUrl + path;
    assert url[..|baseUrl|] == baseUrl;
  }
}
