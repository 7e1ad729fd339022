/**
 * The home feed (src/pages/HomePage.tsx): offset paging of the feed, the
 * flattening of loaded pages, and the conversion of a server post into the
 * client's `Post`.
 */
module HomePage {
  import opened Options
  import Seqs
  import Text
  import MediaUrl
  import ProfilePage
  import opened Domain

  const Limit := 20
  const FirstOffset := 0

  /** The `data` block of a feed response; each field may be missing. */
  datatype FeedData = FeedData(offset: Option<int>, limit: Option<int>, hasMore: Option<bool>, posts: Option<seq<RawPost>>)

  /**
   * `getNextPageParam`: the offset after the last page's window when the
   * server reports more, the window's offset and size defaulting to 0 and 20.
   */
  function NextOffset(data: Option<FeedData>): (r: Option<int>)
    ensures r.Some? <==> data.Some? && data.value.hasMore == Some(true)
    ensures r.Some? ==> r.value == data.value.offset.GetOr(0) + data.value.limit.GetOr(Limit)
  {
    match data
    case Some(d) => if d.hasMore == Some(true) then Some(d.offset.GetOr(0) + d.limit.GetOr(Limit)) else None
    case None => None
  }

  /** The offset of page `k` when every response echoes its window and reports more. */
  function OffsetAfter(k: nat): Option<int> {
    if k == 0 then Some(FirstOffset)
    else match OffsetAfter(k - 1)
      case None => None
      case Some(o) => NextOffset(Some(FeedData(Some(o), Some(Limit), Some(true), None)))
  }

  /** A server that echoes the requested window makes consecutive pages adjacent: page `k` starts at `k * 20`. */
  lemma {:induction false} EchoedWindowsAdjacent(k: nat)
    ensures OffsetAfter(k) == Some(k * Limit)
  {
    if k > 0 {
      EchoedWindowsAdjacent(k - 1);
    }
  }

  /**
   * One feed post as the feed shows it. The author, when populated, gives
   * `user_id` (when its id is truthy) and an author with no avatar; media
   * are kept only when they match `mediaType`; media paths go through the
   * "http"/"//" `getMediaUrl`; missing counts and flags read as 0 and false.
   */
  function Transform(baseUrl: string, raw: RawPost): (r: Post)
    ensures r.id == raw.id && r.createdAt == raw.createdAt
    ensures r.userId.Some? <==> raw.author.Some? && raw.author.value.id != ""
    ensures r.userId.Some? ==> r.userId.value == raw.author.value.id
    ensures r.user.Some? <==> raw.author.Some?
    ensures r.user.Some? ==> r.user.value == PostAuthor(raw.author.value.id, raw.author.value.username, None)
    ensures r.content == OrElse(raw.caption, "")
    ensures r.images != [] <==> raw.mediaType == Some("image") && IsTruthy(raw.image)
    ensures r.images != [] ==> r.images == [MediaUrl.Resolve(baseUrl, raw.image)]
    ensures r.video.Some? <==> raw.mediaType == Some("video")
    ensures r.video.Some? ==> r.video.value == MediaUrl.Resolve(baseUrl, raw.video)
    ensures r.likeCount == raw.likes.GetOr(0) && r.commentCount == raw.comments.GetOr(0)
    ensures r.isLiked == (raw.isLiked == Some(true)) && r.isSaved == (raw.isSaved == Some(true))
  {
    Post(
      raw.id,
      match raw.author
      case Some(a) => if a.id != "" then Some(a.id) else None
      case None => None,
      match raw.author
      case Some(a) => Some(PostAuthor(a.id, a.username, None))
      case None => None,
      OrElse(raw.caption, ""),
      if raw.mediaType == Some("image") && IsTruthy(raw.image) then [MediaUrl.Resolve(baseUrl, raw.image)] else [],
      if raw.mediaType == Some("video") then Some(MediaUrl.Resolve(baseUrl, raw.video)) else None,
      raw.likes.GetOr(0),
      raw.comments.GetOr(0),
      raw.createdAt,
      raw.isLiked.GetOr(false),
      raw.isSaved.GetOr(false))
  }

  /**
   * The feed and the profile page read the same server post alike in its
   * caption, counts, flags and date, and alike in its image when that is an
   * absolute URL of an image post; they differ in `user_id`, the author's
   * avatar and which media they keep.
   */
  lemma FeedAgreesWithProfile(baseUrl: string, raw: RawPost)
    requires raw.author.Some?
    ensures var feed := Transform(baseUrl, raw);
      var profile := ProfilePage.TransformPost(baseUrl, raw).value;
      && feed.id == profile.id && feed.content == profile.content
      && feed.likeCount == profile.likeCount && feed.commentCount == profile.commentCount
      && feed.isLiked == profile.isLiked && feed.isSaved == profile.isSaved
      && feed.createdAt == profile.createdAt
      && (raw.mediaType == Some("image") && IsTruthy(raw.image) && Text.StartsWith(raw.image.value, "http")
          ==> feed.images == profile.images)
  {
  }

  function PagePosts(baseUrl: string): Option<FeedData> -> seq<Post> {
    (page: Option<FeedData>) =>
      Seqs.Map(match page case Some(d) => d.posts.GetOr([]) case None => [], (raw: RawPost) => Transform(baseUrl, raw))
  }

  /** The posts shown: every loaded page's posts, converted, in page order. */
  function Posts(baseUrl: string, pages: seq<Option<FeedData>>): (r: seq<Post>)
    ensures pages == [] ==> r == []
  {
    Seqs.FlatMap(pages, PagePosts(baseUrl))
  }

  /** Loading one more page appends its converted posts, in the server's order, after those already shown. */
  lemma LoadMore(baseUrl: string, pages: seq<Option<FeedData>>, next: FeedData)
    ensures var shown := Posts(baseUrl, pages + [Some(next)]);
      var raws := next.posts.GetOr([]);
      && |shown| == |Posts(baseUrl, pages)| + |raws|
      && shown[..|Posts(baseUrl, pages)|] == Posts(baseUrl, pages)
      && forall i :: 0 <= i < |raws| ==> shown[|Posts(baseUrl, pages)| + i] == Transform(baseUrl, raws[i])
  {
    var f := PagePosts(baseUrl);
    Seqs.FlatMapSnoc(pages, Some(next), f);
    var before := Posts(baseUrl, pages);
    var added := f(Some(next));
    assert Posts(baseUrl, pages + [Some(next)]) == before + added;
    assert added == Seqs.Map(next.posts.GetOr([]), (raw: RawPost) => Transform(baseUrl, raw));
  }
}
