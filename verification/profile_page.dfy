/**
 * The profile page (src/pages/ProfilePage.tsx): whose profile is shown, the
 * posts filter, the local follow state, and the post opened from the grid
 * with its like and save toggles.
 */
module ProfilePage {
  import opened Options
  import Text
  import Counters
  import MediaUrl
  import opened Domain

  /** The route has no user id, or it is the signed-in user's. */
  predicate IsOwnProfile(routeUserId: Option<string>, currentUserId: Option<string>) {
    !IsTruthy(routeUserId) || currentUserId == routeUserId
  }

  /** The id whose profile and posts are fetched: the route's, else the signed-in user's, else "". */
  function ProfileUserId(routeUserId: Option<string>, currentUserId: Option<string>): (r: string)
    ensures IsTruthy(routeUserId) ==> r == routeUserId.value
    ensures !IsTruthy(routeUserId) ==> r == OrElse(currentUserId, "")
  {
    OrElse(routeUserId, OrElse(currentUserId, ""))
  }

  /** On one's own profile the fetched id is one's own (or "" when signed out); on another's it is not one's own. */
  lemma OwnProfileFetchesOwnId(routeUserId: Option<string>, currentUserId: Option<string>)
    ensures IsOwnProfile(routeUserId, currentUserId) ==> ProfileUserId(routeUserId, currentUserId) == OrElse(currentUserId, "")
    ensures !IsOwnProfile(routeUserId, currentUserId) ==>
      ProfileUserId(routeUserId, currentUserId) != "" && Some(ProfileUserId(routeUserId, currentUserId)) != currentUserId
  {
  }

  const Filters: set<string> := {"saved", "video", "all"}

  /** `getFilterParam`: the tab's own name for the saved and video tabs, "all" for any other. */
  function FilterParam(activeTab: string): (r: string)
    ensures r in Filters
    ensures r == activeTab <==> activeTab in Filters
    ensures activeTab !in Filters ==> r == "all"
  {
    if activeTab == "saved" then "saved" else if activeTab == "video" then "video" else "all"
  }

  /** The follow button's local state. */
  datatype FollowLocal = FollowLocal(isFollowing: bool, followersCount: int)

  /** The profile fields the local state is synced from. */
  datatype ProfileCounts = ProfileCounts(isFollowing: Option<bool>, followersCount: Option<int>)

  /** The sync effect: a loaded profile overwrites the local state, missing fields reading as false and 0. */
  function Sync(local: FollowLocal, profile: Option<ProfileCounts>): (r: FollowLocal)
    ensures profile.None? ==> r == local
    ensures profile.Some? ==> r.isFollowing == (profile.value.isFollowing == Some(true))
    ensures profile.Some? ==> r.followersCount == profile.value.followersCount.GetOr(0)
  {
    match profile
    case None => local
    case Some(p) => FollowLocal(p.isFollowing.GetOr(false), p.followersCount.GetOr(0))
  }

  /** Once a profile is loaded the local state is the profile's, whatever it was before; syncing again changes nothing. */
  lemma SyncOverwrites(local: FollowLocal, other: FollowLocal, profile: Option<ProfileCounts>)
    ensures Sync(Sync(local, profile), profile) == Sync(local, profile)
    ensures profile.Some? ==> Sync(local, profile) == Sync(other, profile)
    ensures profile.Some? && profile.value.followersCount.Some? && profile.value.followersCount.value >= 0 ==>
      Sync(local, profile).followersCount >= 0
  {
  }

  /**
   * `handleFollowToggle`: nothing without a route user id or when the
   * request fails; otherwise the flag flips and the follower count moves by
   * one, never below zero.
   */
  function FollowToggle(routeUserId: Option<string>, local: FollowLocal, succeeded: bool): (r: FollowLocal)
    ensures !IsTruthy(routeUserId) || !succeeded ==> r == local
    ensures IsTruthy(routeUserId) && succeeded ==>
      r.isFollowing == !local.isFollowing && r.followersCount == Counters.Toggled(local.followersCount, local.isFollowing)
  {
    if !IsTruthy(routeUserId) || !succeeded then local
    else FollowLocal(!local.isFollowing, Counters.Toggled(local.followersCount, local.isFollowing))
  }

  /** Two successful toggles give the state back unless an unfollow met a count below one. */
  lemma FollowToggleTwice(routeUserId: Option<string>, local: FollowLocal)
    requires IsTruthy(routeUserId)
    ensures FollowToggle(routeUserId, FollowToggle(routeUserId, local, true), true) == local
      <==> local.followersCount >= if local.isFollowing then 1 else 0
  {
    Counters.ToggledTwice(local.followersCount, local.isFollowing);
  }

  /**
   * The post opened from the grid: its author must be populated (reading it
   * throws otherwise and no post is opened); missing fields read as "", 0
   * and false; media paths go through the "http"-only `getMediaUrl`. No
   * `user_id` is set.
   */
  function TransformPost(baseUrl: string, raw: RawPost): (r: Option<Post>)
    ensures r.Some? <==> raw.author.Some?
    ensures r.Some? ==>
      var p := r.value;
      && p.id == raw.id
      && p.userId.None?
      && p.user == Some(PostAuthor(raw.author.value.id, raw.author.value.username,
                                   if IsTruthy(raw.author.value.profilePicture)
                                   then Some(MediaUrl.ResolveHttpOnly(baseUrl, raw.author.value.profilePicture))
                                   else None))
      && p.content == OrElse(raw.caption, "")
      && (p.images == [] <==> !IsTruthy(raw.image))
      && (IsTruthy(raw.image) ==> p.images == [MediaUrl.ResolveHttpOnly(baseUrl, raw.image)])
      && (p.video.Some? <==> IsTruthy(raw.video))
      && (IsTruthy(raw.video) ==> p.video.value == MediaUrl.ResolveHttpOnly(baseUrl, raw.video))
      && p.likeCount == raw.likes.GetOr(0) && p.commentCount == raw.comments.GetOr(0)
      && p.isLiked == (raw.isLiked == Some(true)) && p.isSaved == (raw.isSaved == Some(true))
      && p.createdAt == raw.createdAt
  {
    match raw.author
    case None => None
    case Some(a) =>
      Some(Post(
        raw.id,
        None,
        Some(PostAuthor(a.id, a.username,
                        if IsTruthy(a.profilePicture) then Some(MediaUrl.ResolveHttpOnly(baseUrl, a.profilePicture)) else None)),
        OrElse(raw.caption, ""),
        if IsTruthy(raw.image) then [MediaUrl.ResolveHttpOnly(baseUrl, raw.image)] else [],
        if IsTruthy(raw.video) then Some(MediaUrl.ResolveHttpOnly(baseUrl, raw.video)) else None,
        raw.likes.GetOr(0),
        raw.comments.GetOr(0),
        raw.createdAt,
        raw.isLiked.GetOr(false),
        raw.isSaved.GetOr(false)))
  }

  /**
   * `handleLikePost`: after a successful request the like flag flips and
   * the count moves by one with no floor at zero; nothing without an open
   * post or when the request fails.
   */
  function LikePost(selected: Option<Post>, succeeded: bool): (r: Option<Post>)
    ensures selected.None? || !succeeded ==> r == selected
    ensures selected.Some? && succeeded ==>
      r == Some(selected.value.(isLiked := !selected.value.isLiked,
                                likeCount := Counters.Stepped(selected.value.likeCount, selected.value.isLiked)))
  {
    if selected.None? || !succeeded then selected
    else
      var p := selected.value;
      Some(p.(isLiked := !p.isLiked, likeCount := Counters.Stepped(p.likeCount, p.isLiked)))
  }

  /** With no floor, liking twice always restores the post; an unlike at zero shows -1. */
  lemma LikePostTwice(p: Post)
    ensures LikePost(LikePost(Some(p), true), true) == Some(p)
    ensures p.isLiked && p.likeCount == 0 ==> LikePost(Some(p), true).value.likeCount == -1
  {
    Counters.SteppedTwice(p.likeCount, p.isLiked);
  }

  /** `handleSavePost`: after a successful request only the saved flag flips. */
  function SavePost(selected: Option<Post>, succeeded: bool): (r: Option<Post>)
    ensures selected.None? || !succeeded ==> r == selected
    ensures selected.Some? && succeeded ==>
      r.Some? && r.value.isSaved == !selected.value.isSaved && r.value.(isSaved := selected.value.isSaved) == selected.value
  {
    if selected.None? || !succeeded then selected else Some(selected.value.(isSaved := !selected.value.isSaved))
  }

  /** Saving twice restores the open post, always: the save flag has no counter to clamp. */
  lemma SavePostTwice(selected: Option<Post>)
    ensures SavePost(SavePost(selected, true), true) == selected
    ensures selected.Some? ==> SavePost(selected, true) != selected
  {
  }
}
