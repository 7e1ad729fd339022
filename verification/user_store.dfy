/**
 * The profile store (src/stores/userStore.ts): the profile being viewed and a
 * loading flag, with a shallow-merge update.
 */
module UserStore {
  import opened Options
  import opened Domain

  /**
   * `Partial<User>`: each key is absent (`None`) or present with a value. A
   * present optional key may carry `undefined`, which the spread copies too,
   * so those keys are `Option<Option<_>>`.
   */
  datatype UserPatch = UserPatch(
    id: Option<string>,
    email: Option<string>,
    fullName: Option<string>,
    username: Option<string>,
    bio: Option<Option<string>>,
    avatar: Option<Option<string>>,
    coverImage: Option<Option<string>>,
    isVerified: Option<bool>,
    createdAt: Option<string>,
    updatedAt: Option<string>,
    followerCount: Option<Option<int>>,
    followingCount: Option<Option<int>>)

  const NoChanges := UserPatch(None, None, None, None, None, None, None, None, None, None, None, None)

  /** `{ ...u, ...patch }`: a key present in the patch takes the patch's value, the others keep `u`'s. */
  function Merge(u: User, patch: UserPatch): (r: User)
    ensures patch.id.Some? ==> r.id == patch.id.value
    ensures patch.id.None? ==> r.id == u.id
    ensures patch.email.Some? ==> r.email == patch.email.value
    ensures patch.email.None? ==> r.email == u.email
    ensures patch.fullName.Some? ==> r.fullName == patch.fullName.value
    ensures patch.fullName.None? ==> r.fullName == u.fullName
    ensures patch.username.Some? ==> r.username == patch.username.value
    ensures patch.username.None? ==> r.username == u.username
    ensures patch.bio.Some? ==> r.bio == patch.bio.value
    ensures patch.bio.None? ==> r.bio == u.bio
    ensures patch.avatar.Some? ==> r.avatar == patch.avatar.value
    ensures patch.avatar.None? ==> r.avatar == u.avatar
    ensures patch.coverImage.Some? ==> r.coverImage == patch.coverImage.value
    ensures patch.coverImage.None? ==> r.coverImage == u.coverImage
    ensures patch.isVerified.Some? ==> r.isVerified == patch.isVerified.value
    ensures patch.isVerified.None? ==> r.isVerified == u.isVerified
    ensures patch.createdAt.Some? ==> r.createdAt == patch.createdAt.value
    ensures patch.createdAt.None? ==> r.createdAt == u.createdAt
    ensures patch.updatedAt.Some? ==> r.updatedAt == patch.updatedAt.value
    ensures patch.updatedAt.None? ==> r.updatedAt == u.updatedAt
    ensures patch.followerCount.Some? ==> r.followerCount == patch.followerCount.value
    ensures patch.followerCount.None? ==> r.followerCount == u.followerCount
    ensures patch.followingCount.Some? ==> r.followingCount == patch.followingCount.value
    ensures patch.followingCount.None? ==> r.followingCount == u.followingCount
  {
    User(
      patch.id.GetOr(u.id),
      patch.email.GetOr(u.email),
      patch.fullName.GetOr(u.fullName),
      patch.username.GetOr(u.username),
      patch.bio.GetOr(u.bio),
      patch.avatar.GetOr(u.avatar),
      patch.coverImage.GetOr(u.coverImage),
      patch.isVerified.GetOr(u.isVerified),
      patch.createdAt.GetOr(u.createdAt),
      patch.updatedAt.GetOr(u.updatedAt),
      patch.followerCount.GetOr(u.followerCount),
      patch.followingCount.GetOr(u.followingCount))
  }

  /** `{ ...p, ...q }` on patches: `q`'s present keys win. */
  function Then<T>(p: Option<T>, q: Option<T>): Option<T> {
    if q.Some? then q else p
  }

  function Compose(p: UserPatch, q: UserPatch): UserPatch {
    UserPatch(
      Then(p.id, q.id), Then(p.email, q.email), Then(p.fullName, q.fullName),
      Then(p.username, q.username), Then(p.bio, q.bio), Then(p.avatar, q.avatar),
      Then(p.coverImage, q.coverImage), Then(p.isVerified, q.isVerified),
      Then(p.createdAt, q.createdAt), Then(p.updatedAt, q.updatedAt),
      Then(p.followerCount, q.followerCount), Then(p.followingCount, q.followingCount))
  }

  /** An empty update is the identity. */
  lemma MergeNoChanges(u: User)
    ensures Merge(u, NoChanges) == u
  {
  }

  /** Two updates in a row are one update with the later keys winning. */
  lemma MergeTwice(u: User, p: UserPatch, q: UserPatch)
    ensures Merge(Merge(u, p), q) == Merge(u, Compose(p, q))
  {
  }

  /** Re-applying an update changes nothing more. */
  lemma MergeIdempotent(u: User, p: UserPatch)
    ensures Merge(Merge(u, p), p) == Merge(u, p)
  {
  }

  datatype UserState = UserState(currentProfile: Option<User>, isLoading: bool)

  const Initial := UserState(None, false)

  function SetCurrentProfile(s: UserState, user: Option<User>): (r: UserState)
    ensures r.currentProfile == user && r.isLoading == s.isLoading
  {
    s.(currentProfile := user)
  }

  function SetLoading(s: UserState, loading: bool): (r: UserState)
    ensures r.isLoading == loading && r.currentProfile == s.currentProfile
  {
    s.(isLoading := loading)
  }

  /** `updateProfile`: merges into the loaded profile; with no profile there is nothing to update. */
  function UpdateProfile(s: UserState, patch: UserPatch): (r: UserState)
    ensures s.currentProfile.None? ==> r.currentProfile.None?
    ensures s.currentProfile.Some? ==> r.currentProfile == Some(Merge(s.currentProfile.value, patch))
    ensures r.isLoading == s.isLoading
  {
    if s.currentProfile.Some? then s.(currentProfile := Some(Merge(s.currentProfile.value, patch)))
    else s.(currentProfile := None)
  }

  lemma UpdateProfileNoChanges(s: UserState)
    ensures UpdateProfile(s, NoChanges) == s
  {
    if s.currentProfile.Some? {
      MergeNoChanges(s.currentProfile.value);
    }
  }

  function Reset(s: UserState): (r: UserState)
    ensures r == Initial && r.currentProfile.None? && !r.isLoading
  {
    UserState(None, false)
  }
}
