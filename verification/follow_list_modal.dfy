/**
 * The followers/following dialog (src/components/common/FollowListModal.tsx):
 * which fetched entries are listed, which users the signed-in user follows,
 * and what a successful follow or unfollow does to that list and to the
 * cached profiles.
 */
module FollowListModal {
  import opened Options
  import Seqs
  import Counters

  /** A listed user: the fields the dialog reads. */
  datatype ListedUser = ListedUser(id: string, username: string, fullName: string, profilePicture: Option<string>)

  /** A fetched entry: `null`, or a user whose `_id` may be empty. */
  type Entry = Option<ListedUser>

  predicate Identified(e: Entry) {
    e.Some? && e.value.id != ""
  }

  /** `(list || []).filter(u => u && u._id)`: the entries that are users with an identity, in order. */
  function KeepIdentified(list: Option<seq<Entry>>): (r: seq<ListedUser>)
    ensures forall u :: u in r ==> u.id != "" && Some(u) in list.GetOr([])
    ensures forall u :: Some(u) in list.GetOr([]) && u.id != "" ==> u in r
    ensures |r| == Seqs.Count(list.GetOr([]), Identified)
  {
    Identifieds(list.GetOr([]))
  }

  function Identifieds(entries: seq<Entry>): (r: seq<ListedUser>)
    ensures forall u :: u in r ==> u.id != "" && Some(u) in entries
    ensures forall u :: Some(u) in entries && u.id != "" ==> u in r
    ensures |r| == Seqs.Count(entries, Identified)
  {
    if entries == [] then []
    else
      assert forall e :: e in entries ==> e == entries[0] || e in entries[1..];
      (if Identified(entries[0]) then [entries[0].value] else []) + Identifieds(entries[1..])
  }

  /** Listing the users of an already filtered list keeps it as it is. */
  lemma {:induction false} IdentifiedsOfListed(users: seq<ListedUser>)
    requires forall u :: u in users ==> u.id != ""
    ensures Identifieds(Lift(users)) == users
  {
    if users != [] {
      assert Lift(users)[1..] == Lift(users[1..]);
      IdentifiedsOfListed(users[1..]);
    }
  }

  function Lift(users: seq<ListedUser>): (r: seq<Entry>)
    ensures |r| == |users| && forall i :: 0 <= i < |users| ==> r[i] == Some(users[i])
  {
    seq(|users|, i requires 0 <= i < |users| => Some(users[i]))
  }

  /** Which list the dialog shows. */
  datatype ListKind = Followers | Following

  function Endpoint(kind: ListKind, userId: string): (r: string)
    ensures kind == Followers ==> r == "/api/follow/" + userId + "/followers"
    ensures kind == Following ==> r == "/api/follow/" + userId + "/following"
  {
    "/api/follow/" + userId + (if kind == Followers then "/followers" else "/following")
  }

  /** The payload of either endpoint; each list may be missing. */
  datatype ListsData = ListsData(followers: Option<seq<Entry>>, following: Option<seq<Entry>>)

  /** The listed users: the field matching the kind, filtered. */
  function Listed(kind: ListKind, data: ListsData): (r: seq<ListedUser>)
    ensures kind == Followers ==> r == KeepIdentified(data.followers)
    ensures kind == Following ==> r == KeepIdentified(data.following)
  {
    KeepIdentified(if kind == Followers then data.followers else data.following)
  }

  /** `followingMap`: every identified user the signed-in user follows, mapped to true. */
  function FollowingMap(following: seq<ListedUser>): (r: map<string, bool>)
    ensures forall id :: id in r <==> id != "" && exists u :: u in following && u.id == id
    ensures forall id :: id in r ==> r[id]
  {
    var ids := set u | u in following && u.id != "" :: u.id;
    map id | id in ids :: true
  }

  /** A cached query: `["currentUserProfile"]` or `["user", id]`. */
  datatype CacheKey = CurrentUserProfile | UserKey(id: string)

  /** The cached profile fields the toggle adjusts, and the rest. */
  datatype Profile = Profile(username: string, followersCount: int, followingCount: int, isFollowing: bool)

  /** `setQueryData(key, old => old ? f(old) : old)`: an absent entry stays absent. */
  function Adjust(cache: map<CacheKey, Profile>, key: CacheKey, f: Profile -> Profile): (r: map<CacheKey, Profile>)
    ensures r.Keys == cache.Keys
    ensures key in cache ==> r[key] == f(cache[key])
    ensures forall k :: k in cache && k != key ==> r[k] == cache[k]
  {
    if key in cache then cache[key := f(cache[key])] else cache
  }

  function Unfollowed(p: Profile): Profile
  {
    p.(followersCount := Counters.ClampedDecrement(p.followersCount), isFollowing := false)
  }

  function Followed(p: Profile): Profile
  {
    p.(followersCount := p.followersCount + 1, isFollowing := true)
  }

  function FollowsOneLess(p: Profile): Profile
  {
    p.(followingCount := Counters.ClampedDecrement(p.followingCount))
  }

  function FollowsOneMore(p: Profile): Profile
  {
    p.(followingCount := p.followingCount + 1)
  }

  datatype FollowState = FollowState(following: seq<ListedUser>, cache: map<CacheKey, Profile>)

  function OtherUser(id: string): ListedUser -> bool {
    (u: ListedUser) => u.id != id
  }

  /** The cache after a successful unfollow of `target` by `me`: the target's key, then both of `me`'s. */
  function UnfollowCache(cache: map<CacheKey, Profile>, me: string, target: string): map<CacheKey, Profile> {
    Adjust(Adjust(Adjust(cache, UserKey(target), Unfollowed), CurrentUserProfile, FollowsOneLess), UserKey(me), FollowsOneLess)
  }

  function FollowCache(cache: map<CacheKey, Profile>, me: string, target: string): map<CacheKey, Profile> {
    Adjust(Adjust(Adjust(cache, UserKey(target), Followed), CurrentUserProfile, FollowsOneMore), UserKey(me), FollowsOneMore)
  }

  /**
   * `handleToggleFollow`: nothing without a signed-in user; otherwise unfollow
   * when the target is in the following map and follow when not, the list and
   * cache changing only when the request succeeded.
   */
  function ToggleFollow(s: FollowState, me: Option<string>, target: ListedUser, succeeded: bool): (r: FollowState)
    ensures me.None? || !succeeded ==> r == s
    ensures r.cache.Keys == s.cache.Keys
    ensures me.Some? && succeeded && target.id in FollowingMap(s.following) ==>
      r.following == Seqs.Filter(s.following, OtherUser(target.id))
      && target.id !in FollowingMap(r.following)
    ensures me.Some? && succeeded && target.id !in FollowingMap(s.following) ==>
      r.following == s.following + [target]
    ensures me.Some? && succeeded && me.value != target.id && UserKey(target.id) in s.cache ==>
      r.cache[UserKey(target.id)] ==
        if target.id in FollowingMap(s.following) then Unfollowed(s.cache[UserKey(target.id)])
        else Followed(s.cache[UserKey(target.id)])
    ensures me.Some? && succeeded && me.value != target.id && CurrentUserProfile in s.cache ==>
      r.cache[CurrentUserProfile] ==
        if target.id in FollowingMap(s.following) then FollowsOneLess(s.cache[CurrentUserProfile])
        else FollowsOneMore(s.cache[CurrentUserProfile])
    ensures me.Some? && succeeded && me.value != target.id && UserKey(me.value) in s.cache ==>
      r.cache[UserKey(me.value)] ==
        if target.id in FollowingMap(s.following) then FollowsOneLess(s.cache[UserKey(me.value)])
        else FollowsOneMore(s.cache[UserKey(me.value)])
    ensures forall k :: k in s.cache && k !in Touched(me, target.id) ==> r.cache[k] == s.cache[k]
  {
    if me.None? || !succeeded then s
    else if target.id in FollowingMap(s.following) then
      var kept := Seqs.Filter(s.following, OtherUser(target.id));
      FollowState(kept, UnfollowCache(s.cache, me.value, target.id))
    else
      FollowState(s.following + [target], FollowCache(s.cache, me.value, target.id))
  }

  /** The cache keys a toggle may write. */
  function Touched(me: Option<string>, target: string): set<CacheKey> {
    {UserKey(target), CurrentUserProfile} + if me.Some? then {UserKey(me.value)} else {}
  }

  /** A cached profile whose counts a follow and unfollow give back. */
  predicate Restorable(p: Profile) {
    p.followersCount >= 0 && p.followingCount >= 0 && !p.isFollowing
  }

  /** The cache half of a follow and unfollow: each adjustment is undone. */
  lemma FollowCacheRoundTrip(cache: map<CacheKey, Profile>, me: string, target: string)
    requires target != me
    requires forall k :: k in cache ==> cache[k].followersCount >= 0 && cache[k].followingCount >= 0
    requires UserKey(target) in cache ==> !cache[UserKey(target)].isFollowing
    ensures UnfollowCache(FollowCache(cache, me, target), me, target) == cache
  {
    var after := UnfollowCache(FollowCache(cache, me, target), me, target);
    forall k | k in cache ensures after[k] == cache[k] {
      if k == UserKey(target) {
        assert after[k] == Unfollowed(Followed(cache[k]));
      } else if k == CurrentUserProfile || k == UserKey(me) {
        assert after[k] == FollowsOneLess(FollowsOneMore(cache[k]));
      }
    }
  }

  /** The list half of a follow and unfollow: the appended target is filtered out again. */
  lemma FollowListRoundTrip(following: seq<ListedUser>, target: ListedUser)
    requires target.id != "" && target.id !in FollowingMap(following)
    ensures Seqs.Filter(following + [target], OtherUser(target.id)) == following
  {
    assert forall u :: u in following ==> OtherUser(target.id)(u);
    Seqs.FilterConcat(following, [target], OtherUser(target.id));
    Seqs.FilterKeepsAll(following, OtherUser(target.id));
    assert Seqs.Filter([target], OtherUser(target.id)) == [];
  }

  /**
   * Following a listed user not yet followed and then unfollowing them
   * restores the following list and every cached profile, provided the
   * cached counts were not negative and the target was cached as not followed.
   */
  lemma FollowThenUnfollow(s: FollowState, me: string, target: ListedUser)
    requires target.id != "" && target.id != me
    requires target.id !in FollowingMap(s.following)
    requires forall k :: k in s.cache ==> s.cache[k].followersCount >= 0 && s.cache[k].followingCount >= 0
    requires UserKey(target.id) in s.cache ==> !s.cache[UserKey(target.id)].isFollowing
    ensures ToggleFollow(ToggleFollow(s, Some(me), target, true), Some(me), target, true) == s
  {
    var once := ToggleFollow(s, Some(me), target, true);
    assert target in once.following;
    FollowListRoundTrip(s.following, target);
    FollowCacheRoundTrip(s.cache, me, target.id);
  }
}
