/**
 * The records shared by several parts of the client (src/types/index.ts):
 * the signed-in `User`, a selected file, and the `JSON.stringify` text the
 * client stores for a user.
 */
module Domain {
  import opened Options
  import Text

  /** `User`: the client-side shape of an account. */
  datatype User = User(
    id: string,
    email: string,
    fullName: string,
    username: string,
    bio: Option<string>,
    avatar: Option<string>,
    coverImage: Option<string>,
    isVerified: bool,
    createdAt: string,
    updatedAt: string,
    followerCount: Option<int>,
    followingCount: Option<int>)

  /** The author summary a post carries: identity, handle and avatar. */
  datatype PostAuthor = PostAuthor(id: string, username: string, avatar: Option<string>)

  /**
   * `Post` as the client's views hold it. Every view that builds a post sets
   * `images`, `is_liked` and `is_saved`, so they are not optional here.
   */
  datatype Post = Post(
    id: string,
    userId: Option<string>,
    user: Option<PostAuthor>,
    content: string,
    images: seq<string>,
    video: Option<string>,
    likeCount: int,
    commentCount: int,
    createdAt: string,
    isLiked: bool,
    isSaved: bool)

  /** A post's author as the server embeds it in a post (`userId` populated). */
  datatype RawAuthor = RawAuthor(id: string, username: string, profilePicture: Option<string>)

  /** A post as the server sends it; every field but the identity may be missing. */
  datatype RawPost = RawPost(
    id: string,
    author: Option<RawAuthor>,
    caption: Option<string>,
    mediaType: Option<string>,
    image: Option<string>,
    video: Option<string>,
    likes: Option<int>,
    comments: Option<int>,
    isLiked: Option<bool>,
    isSaved: Option<bool>,
    createdAt: string)

  /** A browser `File` as the client inspects it: its name, MIME type and size in bytes. */
  datatype File = File(name: string, mimeType: string, size: nat)

  /** A value appended to a `FormData`: text or a file. */
  datatype FormValue = TextField(text: string) | FileField(file: File)

  /** `CreatePostRequest`: a new post's content and its images, which may be absent. */
  datatype CreatePostRequest = CreatePostRequest(content: string, images: Option<seq<File>>)

  /** One `formData.append(key, value)`, in append order. */
  datatype FormEntry = FormEntry(key: string, value: FormValue)

  /** The keys of a form, in append order. */
  function Keys(form: seq<FormEntry>): (r: seq<string>)
    ensures |r| == |form|
    ensures forall i :: 0 <= i < |form| ==> r[i] == form[i].key
  {
    seq(|form|, i requires 0 <= i < |form| => form[i].key)
  }

  /** One character as `JSON.stringify` writes it inside a string literal. */
  function JsonChar(c: char): string {
    if c == '"' then "\\\""
    else if c == '\\' then "\\\\"
    else if c == '\n' then "\\n"
    else if c == '\r' then "\\r"
    else if c == '\t' then "\\t"
    else if c == '\U{0008}' then "\\b"
    else if c == '\U{000C}' then "\\f"
    else if (c as int) < 0x20 then "\\u00" + [HexDigit(c as int / 16), HexDigit(c as int % 16)]
    else [c]
  }

  function HexDigit(d: nat): char
    requires d < 16
  {
    if d < 10 then Text.DigitChar(d) else ('a' as int + (d - 10)) as char
  }

  /** A JSON string literal. */
  function JsonString(s: string): string {
    "\"" + JsonChars(s) + "\""
  }

  function JsonChars(s: string): string {
    if s == [] then "" else JsonChar(s[0]) + JsonChars(s[1..])
  }

  /** One `"key":value` member, or nothing when the value is `undefined`. */
  function JsonMember(key: string, value: Option<string>): seq<string> {
    match value
    case Some(v) => ["\"" + key + "\":" + v]
    case None => []
  }

  function JoinCommas(parts: seq<string>): string {
    if parts == [] then ""
    else if |parts| == 1 then parts[0]
    else parts[0] + "," + JoinCommas(parts[1..])
  }

  function JsonBool(b: bool): string {
    if b then "true" else "false"
  }

  function MapOpt<A, B>(o: Option<A>, f: A -> B): Option<B> {
    match o
    case Some(a) => Some(f(a))
    case None => None
  }

  /**
   * `JSON.stringify(user)`: members in the order the login mapping creates
   * them, members whose value is `undefined` left out.
   */
  function UserJson(u: User): (r: string)
    ensures 2 <= |r| && r[0] == '{' && r[|r| - 1] == '}'
  {
    "{" + JoinCommas(
      JsonMember("id", Some(JsonString(u.id)))
      + JsonMember("email", Some(JsonString(u.email)))
      + JsonMember("username", Some(JsonString(u.username)))
      + JsonMember("full_name", Some(JsonString(u.fullName)))
      + JsonMember("avatar", MapOpt(u.avatar, JsonString))
      + JsonMember("bio", MapOpt(u.bio, JsonString))
      + JsonMember("is_verified", Some(JsonBool(u.isVerified)))
      + JsonMember("created_at", Some(JsonString(u.createdAt)))
      + JsonMember("updated_at", Some(JsonString(u.updatedAt)))
      + JsonMember("cover_image", MapOpt(u.coverImage, JsonString))
      + JsonMember("follower_count", MapOpt(u.followerCount, Text.IntToString))
      + JsonMember("following_count", MapOpt(u.followingCount, Text.IntToString))
    ) + "}"
  }
}
