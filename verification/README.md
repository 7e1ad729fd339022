# Instagram-style web client: a Dafny model of its client-side logic

This project models the sequential logic inside a React/TypeScript
Instagram-style client, and proves properties about it. The logic is taken
out of its React and async shells and written as total functions over
immutable data. It covers:

- **The token-refresh coordinator** in `src/services/axios.ts`. This is the
  response interceptor that, on a 401, either starts the single token
  refresh or queues the request until the refresh settles. It is modelled
  as a transition system (`TokenRefresh`):
  - The state is the `isRefreshing` flag, the queue of waiting requests,
    the request that started the refresh, and the session.
  - There are three events: a response arrives, the refresh succeeds, the
    refresh fails.
  - Every promise settlement, refresh call and redirect is recorded as an
    effect, in order.
- **The session layer** (`AuthStore`, `AuthService`, `UseAuth`,
  `RequestInterceptor`). This is the auth store and the browser storage it
  writes through, modelled as a `map<string, string>` (`Storage`). It also
  covers the login payload mapping, the login and logout hooks, and the
  bearer/Content-Type request interceptor.
- **The list stores** (`ChatStore`, `FeedStore`, `UserStore`): move-to-front
  with dedup, append, replace-by-id, delete-by-id, shallow merge and reset.
- **The form schemas and file checks** (`Forms`, `RegisterPage`,
  `ResetPasswordPage`, `ChangePasswordModal`, `EditProfileModal`,
  `CreatePostModal`, `PostForm`). Each zod schema is a function from the
  raw form to the parsed values or the list of issues found.
- **The components' local optimistic updates**: like toggles, follow
  counters, following maps, the reply-visibility toggle, search history and
  the submit guards. These live in `CommentModal`, `FollowListModal`,
  `ProfilePage`, `RightSidebar`, `SearchPanel` and `Counters`.
- **The small pure helpers**: the two `getMediaUrl` variants (`MediaUrl`),
  feed and explore paging (`HomePage`, `ExplorePage`, `PostService`),
  multipart form building (`PostService`, `UserService`), and the
  sidebar's active-item rule (`Sidebar`).

Supporting modules:
- `Options` holds optional values and JavaScript truthiness.
- `Text` holds `trim`, `startsWith`, `includes`, character classes,
  UTF-16 length and decimal printing.
- `Seqs` holds `filter`, `map`, `flatMap`, `slice` and index removal.
- `Domain` holds the shared records of `src/types/index.ts`.

Each request's outcome is an input: a `succeeded` flag or a `Result`. The
network itself is not modelled. Library predicates (zod's `email()` and
`url()`) are function parameters.

Two behaviours of the code worth noting:
- A failed refresh does not clear every persisted credential. The store's
  logout removes `auth_token`, `current_user` and `auth-storage`, but
  `refresh_token` stays (`AuthStore.Logout`, `TokenRefresh.RefreshAfterLogout`).
- After a successful refresh, the queued requests are resumed first and the
  request that started the refresh is resent last
  (`TokenRefresh.OnRefreshSucceeded`).

## Model

| member | source | states |
|---|---|---|
| TokenRefresh.Start | src/services/axios.ts:11-12 | The module starts not refreshing with an empty queue, a state that satisfies the coordinator invariant |
| TokenRefresh.ProcessQueue | src/services/axios.ts:14-24 | One effect per waiter, in queue order: all resend with `Bearer <token>`, or all reject with the error |
| TokenRefresh.ProcessQueueSettlesQueue | src/services/axios.ts:14-24 | The requests settled are exactly the queued ones, each once, in order, and no refresh call is made |
| TokenRefresh.OnResponse | src/services/axios.ts:52-130 | Four cases. A non-401, a retried request or an auth endpoint is rejected with the state unchanged. A first 401 while refreshing is marked and queued with no effect. Otherwise the flag is set and one refresh call is made with the stored refresh token, or the refresh fails at once when there is none |
| TokenRefresh.SecondUnauthorizedIsTerminal | src/services/axios.ts:61-63 | A 401 on a request already marked `_retry` is rejected with the state unchanged |
| TokenRefresh.FailRefresh | src/services/axios.ts:120-128 | Every waiter rejects with the refresh error, the store logs out, the client is sent to `/login`, then the original request rejects with the refresh error (not the 401); the flag is cleared and the queue emptied |
| TokenRefresh.OnRefreshSucceeded | src/services/axios.ts:103-119 | Both tokens are written and nothing else in storage changes; the store becomes authenticated with the new token; the waiters are resent with the new bearer, then the initiating request; the flag is cleared and the queue emptied |
| TokenRefresh.OnRefreshFailed | src/services/axios.ts:120-125 | A failed refresh call takes the failure path for the request that started it, with the refresh error |
| TokenRefresh.ResentRequestsAreMarked | src/services/axios.ts:72-86 | Every request resent after a refresh carries `_retry` and the new bearer, so it cannot start another refresh |
| TokenRefresh.StepInvariant | src/services/axios.ts:52-130 | One event keeps the invariant, and the books balance: pending plus arrived equals pending plus settled, and refresh calls match the flag and refresh outcomes |
| TokenRefresh.RunInvariant | src/services/axios.ts:52-130 | Over any run, every request that arrived is settled exactly once or still waiting, and refresh calls issued minus outcomes received equals the flag |
| TokenRefresh.AtMostOneRefreshOutstanding | src/services/axios.ts:74-88 | From the start state, refresh calls never run more than one ahead of refresh outcomes |
| TokenRefresh.UnauthorizedWhileRefreshing | src/services/axios.ts:74-86 | While a refresh is outstanding, first 401s only join the queue, marked, in arrival order, with no effect |
| TokenRefresh.ConcurrentUnauthorized | src/services/axios.ts:72-101 | N concurrent first 401s produce exactly one refresh call: the first request starts it and the other N-1 wait |
| TokenRefresh.ConcurrentUnauthorizedThenSuccess | src/services/axios.ts:103-119 | After that burst and a successful refresh, each of the N requests is resent exactly once with the new token, after one refresh call in total |
| TokenRefresh.ConcurrentUnauthorizedThenFailure | src/services/axios.ts:120-125 | After that burst and a failed refresh, each request rejects with the refresh error, the store is logged out and the client redirected |
| TokenRefresh.RefreshAfterLogout | src/services/axios.ts:91-101 | Logout leaves `refresh_token`, so a later first 401 still issues a refresh call with it |
| RequestInterceptor.Prepare | src/services/axios.ts:33-50 | `Authorization: Bearer <auth_token>` iff that key holds a non-empty value. Content-Type is removed for a FormData body and is `application/json` otherwise. Other headers, the URL and the body are unchanged |
| RequestInterceptor.PrepareIdempotent | src/services/axios.ts:33-50 | Preparing a request twice gives the same request as preparing it once |
| Storage.RemoveSessionKeys | src/stores/authStore.ts:36-38 | The three session keys are gone and every other key keeps its value |
| Storage.RemoveSessionKeysIdempotent | src/stores/authStore.ts:36-38 | Removing the session keys again changes nothing |
| AuthStore.InitialIsSignedOut | src/stores/authStore.ts:19-22 | The store starts with no user or token, unauthenticated and not hydrated |
| AuthStore.SetAuth | src/stores/authStore.ts:24-33 | User, token and `isAuthenticated` are set, `isHydrated` is kept, `auth_token` and `current_user` are written and no other key changes |
| AuthStore.Logout | src/stores/authStore.ts:35-46 | The state becomes signed out and hydrated. The three session keys are removed, `refresh_token` and every other key are kept |
| AuthStore.LogoutIdempotent | src/stores/authStore.ts:35-46 | Logging out twice gives the same state and storage as once |
| AuthStore.LogoutForgetsState | src/stores/authStore.ts:40-45 | The in-memory state after a logout does not depend on the state before it |
| AuthStore.SetHydrated | src/stores/authStore.ts:48 | Only `isHydrated` changes, to true |
| AuthService.Login | src/services/authService.ts:10-23 | The token is the access token. The user maps `_id`, email, username, `fullName` and `profilePicture`; a falsy bio becomes ""; `is_verified` is true; both dates are "" |
| AuthService.BioOrEmpty | src/services/authService.ts:18 | A present bio is kept as it is; a missing one becomes ""; the result is "" exactly when the bio is missing or empty |
| AuthService.LoginIgnoresRefreshToken | src/services/authService.ts:10-11 | The payload's refresh token does not affect the result |
| AuthService.LoginFromResponse | src/services/authService.ts:5-8 | A failed request is rethrown; a response without a payload is an error; otherwise the result carries the payload's access token |
| AuthService.Logout | src/services/authService.ts:26-30 | Removes the same three keys as the store logout and no others |
| UseAuth.Login | src/hooks/useAuth.ts:15-35 | An error is rethrown with the session untouched. A response without a token or user throws before any write. Otherwise the two keys are written, the store is signed in and the client navigates to `/home`. Loading is false after either outcome |
| UseAuth.LoginSignsIn | src/hooks/useAuth.ts:24-27 | A usable response signs the store in with exactly its user and token |
| UseAuth.Logout | src/hooks/useAuth.ts:37-44 | The store logout and the navigation to `/login` happen even when the service logout throws |
| ChatStore.SetConversations | src/stores/chatStore.ts:23 | Replaces the conversations and nothing else |
| ChatStore.AppendConversation | src/stores/chatStore.ts:24-30 | The conversation is first, exactly one entry has its id, every other conversation is kept, nothing new appears, and the length is one plus the number of conversations with another id |
| ChatStore.AppendConversationKeepsOrder | src/stores/chatStore.ts:28 | The entries after the first are the old ones in their old relative order |
| ChatStore.AppendNewConversation | src/stores/chatStore.ts:24-30 | A conversation with a new id is simply put in front |
| ChatStore.AppendConversationIdempotent | src/stores/chatStore.ts:24-30 | Appending the same conversation twice is appending it once |
| ChatStore.SetCurrentConversation | src/stores/chatStore.ts:31 | Replaces the current conversation and nothing else |
| ChatStore.SetMessages | src/stores/chatStore.ts:32 | Replaces the messages and nothing else |
| ChatStore.AppendMessage | src/stores/chatStore.ts:33-36 | The messages become the old ones followed by the new one |
| ChatStore.AppendMessagesInOrder | src/stores/chatStore.ts:33-36 | Appending messages one at a time yields old ++ new, in arrival order |
| ChatStore.SetLoading | src/stores/chatStore.ts:37 | Replaces the loading flag and nothing else |
| ChatStore.Reset | src/stores/chatStore.ts:38-44 | Any state becomes the initial state |
| ChatStore.ResetIdempotent | src/stores/chatStore.ts:38-44 | Resetting twice is resetting once |
| FeedStore.SetPosts | src/stores/feedStore.ts:24 | Replaces the posts and nothing else |
| FeedStore.AppendPosts | src/stores/feedStore.ts:25-28 | The posts become old ++ new |
| FeedStore.AppendPostsTwice | src/stores/feedStore.ts:25-28 | Two appends are one append of the concatenation |
| FeedStore.UpdatePost | src/stores/feedStore.ts:29-32 | The length is kept, every entry with the post's id is replaced, and the others are unchanged in place |
| FeedStore.UpdateAbsentPost | src/stores/feedStore.ts:31 | Updating an id that is not loaded changes nothing |
| FeedStore.UpdatePostIdempotent | src/stores/feedStore.ts:31 | Updating twice with the same post is updating once |
| FeedStore.UpdatePostFound | src/stores/feedStore.ts:31 | After an update the post is in the list iff a post with its id was |
| FeedStore.UpdatePostIn | src/stores/feedStore.ts:29-32 | Updates the posts and nothing else |
| FeedStore.DeletePost | src/stores/feedStore.ts:33-36 | No entry with that id is left, every other entry is kept, nothing new appears, and the length is the number of posts with another id |
| FeedStore.DeletePostKeepsOrder | src/stores/feedStore.ts:35 | The remaining posts are in their old relative order |
| FeedStore.DeletePostIdempotent | src/stores/feedStore.ts:35 | Deleting the same id twice is deleting it once |
| FeedStore.DeleteAbsentPost | src/stores/feedStore.ts:35 | Deleting an id that is not loaded changes nothing |
| FeedStore.DeletePostIn | src/stores/feedStore.ts:33-36 | Deletes from the posts and nothing else |
| FeedStore.Reset | src/stores/feedStore.ts:40-46 | The state becomes the initial one: no posts, not loading, more to load, page 1 |
| UserStore.Merge | src/stores/userStore.ts:21 | Each key present in the update takes its value (even `undefined`) and each absent key keeps the profile's |
| UserStore.MergeNoChanges | src/stores/userStore.ts:18-23 | An empty update is the identity |
| UserStore.MergeTwice | src/stores/userStore.ts:21 | Two updates in a row are one update in which the later keys win |
| UserStore.MergeIdempotent | src/stores/userStore.ts:21 | Re-applying an update changes nothing more |
| UserStore.SetCurrentProfile | src/stores/userStore.ts:16 | Replaces the profile and nothing else |
| UserStore.SetLoading | src/stores/userStore.ts:17 | Replaces the loading flag and nothing else |
| UserStore.UpdateProfile | src/stores/userStore.ts:18-23 | A missing profile stays missing; a loaded one is merged with the update |
| UserStore.UpdateProfileNoChanges | src/stores/userStore.ts:18-23 | An empty update leaves the state as it is |
| UserStore.Reset | src/stores/userStore.ts:24-28 | No profile and not loading |
| Forms.PasswordIssues | src/pages/RegisterPage.tsx:33-40 | No issue iff at least 8 UTF-16 code units with an uppercase letter, a lowercase letter, a digit and a non-alphanumeric character; every issue is on the password's field |
| Forms.MissingSpecialOnly | src/pages/RegisterPage.tsx:35-39 | A password lacking only a special character reports exactly that one issue |
| RegisterPage.EmailIssues | src/pages/RegisterPage.tsx:14-23 | No issue iff non-empty and of email format; an empty email reports only "required" |
| RegisterPage.UsernameIssues | src/pages/RegisterPage.tsx:25-32 | The trimmed username is accepted iff it has at least 3 UTF-16 code units, all ASCII letters, digits or `_` |
| RegisterPage.Validate | src/pages/RegisterPage.tsx:12-46 | Accepts iff the email is non-empty and of email format, the full name has at least 2 UTF-16 code units, the trimmed username passes its rule, the password is strong, the confirmation is non-empty, and the trimmed password equals the trimmed confirmation; the parsed values are trimmed; otherwise it returns every issue found, and at least one |
| RegisterPage.MismatchOnConfirmPassword | src/pages/RegisterPage.tsx:43-46 | A confirmation that differs from the password is reported on `confirmPassword` |
| RegisterPage.ParsedUsername | src/pages/RegisterPage.tsx:25-32 | An accepted username is, as parsed, at least 3 word characters (as many code units as characters) with no surrounding white space |
| RegisterPage.Body | src/pages/RegisterPage.tsx:66-72 | The body carries exactly email, username, password, confirmPassword and fullName from the parsed values |
| RegisterPage.BodyOfAcceptedForm | src/pages/RegisterPage.tsx:12-46 | The body of an accepted form has the email as typed, the other fields trimmed, a username passing its rule, and a confirmation equal to the password |
| ResetPasswordPage.Validate | src/pages/ResetPasswordPage.tsx:11-26 | Accepts iff the password is strong (length in UTF-16 code units) and, trimmed, equals the confirmation as typed; every issue is on one of the two fields |
| ResetPasswordPage.MismatchOnConfirmPassword | src/pages/ResetPasswordPage.tsx:23-26 | A mismatched confirmation is reported on `confirmPassword` |
| ResetPasswordPage.Token | src/pages/ResetPasswordPage.tsx:37 | The path token, else the query token, else ""; "" exactly when neither is set |
| ResetPasswordPage.Submit | src/pages/ResetPasswordPage.tsx:46-65 | An empty token is an error with no request and the loading flag untouched. Otherwise the request carries the token and both fields, loading ends false, and the client navigates to `/login` iff the request succeeded |
| ResetPasswordPage.NoTokenNoRequest | src/pages/ResetPasswordPage.tsx:47-50 | Without a token in the path or the query, no request is sent |
| ChangePasswordModal.Validate | src/components/common/ChangePasswordModal.tsx:18-31 | Accepts iff the current password is non-empty, the new one has at least 6 UTF-16 code units and an uppercase letter, and the confirmation is non-empty and equal after trimming |
| ChangePasswordModal.MismatchOnConfirmPassword | src/components/common/ChangePasswordModal.tsx:28-31 | A mismatch is reported on `confirmPassword` |
| ChangePasswordModal.WeakerThanStrongPassword | src/components/common/ChangePasswordModal.tsx:21-25 | Every password the registration rule accepts is accepted here, and "ABCDEF" shows the inclusion is strict |
| ChangePasswordModal.ErrorMessage | src/components/common/ChangePasswordModal.tsx:94-95 | The server's message when it sent one, else the fallback text |
| ChangePasswordModal.Classify | src/components/common/ChangePasswordModal.tsx:96-107 | A field error on the current password iff the lower-cased message contains one of the three phrases; otherwise a toast with the message |
| ChangePasswordModal.FallbackIsToast | src/components/common/ChangePasswordModal.tsx:94-107 | A failure without a server message is shown as a toast with the fallback text |
| ChangePasswordModal.IncorrectIsFieldError | src/components/common/ChangePasswordModal.tsx:96-104 | Any message containing "Incorrect" is shown under the current-password field |
| ChangePasswordModal.AfterSuccess | src/components/common/ChangePasswordModal.tsx:87-90 | A successful change logs the store out and leaves none of the three session keys |
| EditProfileModal.Validate | src/components/common/EditProfileModal.tsx:12-28 | Accepts iff the full name has 1 to 50 UTF-16 code units, the bio is absent, empty or at most 150 code units, the website is absent, empty or a URL, and the gender is male, female or other; only the full name is trimmed |
| EditProfileModal.OnOpen | src/components/common/EditProfileModal.tsx:71-78 | Missing or empty profile fields open as "", a missing gender as "male" |
| EditProfileModal.EmptyProfileOpensWithDefaults | src/components/common/EditProfileModal.tsx:63-78 | An empty profile opens with the form's default values |
| EditProfileModal.StoredGenderNotChecked | src/components/common/EditProfileModal.tsx:77 | A stored gender outside the enumeration is copied unchecked and then fails validation |
| EditProfileModal.CheckImage | src/components/common/EditProfileModal.tsx:105-114 | The MIME type must be one of the four image types, checked first, then the size must be at most 5 MiB; only an accepted file is uploaded |
| EditProfileModal.CheckImageBounds | src/components/common/EditProfileModal.tsx:105-114 | Only `image/` types are uploaded, the 5 MiB limit is inclusive, and a no larger file of an uploaded type is uploaded too |
| CreatePostModal.OnOpen | src/components/common/CreatePostModal.tsx:29-35 | Step, file, preview, caption and media type are reset |
| CreatePostModal.Back | src/components/common/CreatePostModal.tsx:127-133 | Going back is the same reset as opening |
| CreatePostModal.CheckFile | src/components/common/CreatePostModal.tsx:63-81 | Rejects non-image, non-video types first, then files over 50 MiB; the media type is image iff the MIME type starts with `image/` |
| CreatePostModal.FileChange | src/components/common/CreatePostModal.tsx:63-93 | A missing or rejected file changes nothing; an accepted one is selected with its media type |
| CreatePostModal.SelectedFileHasMatchingType | src/components/common/CreatePostModal.tsx:80-81 | After a selection the media type agrees with the file's MIME type |
| CreatePostModal.PostForm | src/components/common/CreatePostModal.tsx:95-104 | Nothing is sent without a file; the form is the file, then the trimmed caption iff it is not blank |
| CreatePostModal.BlankCaptionNotSent | src/components/common/CreatePostModal.tsx:102-104 | A white-space caption is not sent |
| PostForm.SelectImages | src/components/common/PostForm.tsx:45-53 | The images become (old ++ new) cut to 10, the earlier images kept, with one preview per image |
| PostForm.SelectKeepsCap | src/components/common/PostForm.tsx:47 | At most 10 images after a selection |
| PostForm.RemoveImage | src/components/common/PostForm.tsx:55-60 | Index i is removed from both lists and the rest keep their order, so the lengths stay equal |
| PostForm.RemoveKeepsPairs | src/components/common/PostForm.tsx:55-60 | If each preview belonged to its image before a removal, it still does after |
| PostForm.ContentIssues | src/components/common/PostForm.tsx:18-20 | The content is accepted iff it has 1 to 2200 UTF-16 code units |
| PostForm.SubmitRequest | src/components/common/PostForm.tsx:65-70 | The request carries the content, and images only when there are any |
| PostForm.SubmittedForm | src/components/common/PostForm.tsx:65-70 | The multipart form sent is the content, then exactly the selected images, in order |
| MediaUrl.Resolve | src/components/common/CommentModal.tsx:59-63 | An empty path gives ""; one starting with "http" or "//" is unchanged; any other is prefixed by the base URL |
| MediaUrl.ResolveHttpOnly | src/pages/ProfilePage.tsx:217-221 | The same, except that "//" paths are prefixed too |
| MediaUrl.VariantsDiffer | src/components/common/SearchPanel.tsx:39-43 | With a non-empty base URL the two variants disagree exactly on paths starting with "//" |
| MediaUrl.AbsoluteUrlsUnchanged | src/components/common/EditProfileModal.tsx:153-157 | An "http" URL is a fixed point of both variants |
| MediaUrl.RelativePathRecoverable | src/components/common/EditProfileModal.tsx:156 | A relative path comes out as the base URL followed by the path, so the path can be read back |
| Counters.ClampedDecrement | src/pages/ProfilePage.tsx:91 | One fewer, never below zero |
| Counters.Toggled | src/components/common/CommentModal.tsx:200 | Unliking counts max(0, n-1), liking n+1; a non-negative count stays non-negative |
| Counters.ToggledTwice | src/components/common/CommentModal.tsx:200 | Two toggles restore the count iff the floor did not bite: at least 1 when on, not negative when off |
| Counters.Stepped | src/pages/ProfilePage.tsx:168-174 | The unclamped ±1 of the profile page's like toggle |
| Counters.SteppedTwice | src/pages/ProfilePage.tsx:168-174 | Without the floor two toggles always restore the count; it differs from the clamped toggle exactly for an unlike below 1 |
| CommentModal.ToggleComment | src/components/common/CommentModal.tsx:196-201 | Flips `isLiked`, moves `likes` by the clamped rule, and changes no other field |
| CommentModal.ToggleReply | src/components/common/CommentModal.tsx:223-228 | Flips a reply's `isLiked`, moves its `likes` by the clamped rule, and changes no other field |
| CommentModal.LikeComment | src/components/common/CommentModal.tsx:184-211 | A comment not in the list, or a failed request, changes nothing. Otherwise exactly the comments with that id are toggled, in place, and the length is kept |
| CommentModal.LikeCommentTwice | src/components/common/CommentModal.tsx:194-204 | Liking twice restores the list when no count was clamped |
| CommentModal.LikeReply | src/components/common/CommentModal.tsx:213-238 | Only the matching reply under that comment changes, by the clamped toggle; other comments' replies are untouched and the set of loaded threads is the same |
| CommentModal.LikeReplyTwice | src/components/common/CommentModal.tsx:220-231 | Liking a reply twice restores the loaded replies when no count on the way was clamped |
| CommentModal.DeleteComment | src/components/common/CommentModal.tsx:277-281 | After success no comment with that id is left, every other is kept, nothing new appears, and the length is the number of comments with another id |
| CommentModal.DeleteCommentKeepsOrder | src/components/common/CommentModal.tsx:280 | The remaining comments keep their order |
| CommentModal.SaveEdit | src/components/common/CommentModal.tsx:311-327 | Without a comment being edited, or on failure, nothing changes; otherwise only the edited comment's content changes |
| CommentModal.SaveEditIdempotent | src/components/common/CommentModal.tsx:321-327 | Saving the same edit again changes nothing, and saving content the comment already has is no change |
| CommentModal.CountReply | src/components/common/CommentModal.tsx:258-264 | The replied comment's `repliesCount` becomes (count or 0) + 1; the others are unchanged |
| CommentModal.CountReplyTwice | src/components/common/CommentModal.tsx:258-264 | Two replies to one comment count two more (from 0 when missing); every other comment is untouched |
| CommentModal.ToggleRepliesAction | src/components/common/CommentModal.tsx:114-124 | Shown means hide; hidden with replies loaded means show without fetching; hidden without means fetch |
| CommentModal.ToggleReplies | src/components/common/CommentModal.tsx:114-124 | Hiding or showing changes only that comment's visibility; a fetch changes nothing until it returns |
| CommentModal.RepliesFetched | src/components/common/CommentModal.tsx:93-112 | A successful fetch stores the replies and shows them; a failed one changes nothing |
| CommentModal.ToggleRoundTrip | src/components/common/CommentModal.tsx:114-124 | Opening a hidden thread shows it (after its fetch, when one is needed), and toggling again hides it |
| CommentModal.SubmitComment | src/components/common/CommentModal.tsx:164-172 | Sent iff the text is not blank and no submit is in flight, and sent as typed |
| CommentModal.SubmitReply | src/components/common/CommentModal.tsx:245-254 | Sent iff the text is not blank, a comment is being replied to and no reply is in flight, and sent as typed |
| FollowListModal.KeepIdentified | src/components/common/FollowListModal.tsx:85 | The kept entries are exactly the listed users with an id, one per such entry |
| FollowListModal.Identifieds | src/components/common/FollowListModal.tsx:62-64 | The same filter over a fetched list |
| FollowListModal.IdentifiedsOfListed | src/components/common/FollowListModal.tsx:62-64 | Filtering a list that has already been filtered changes nothing |
| FollowListModal.Endpoint | src/components/common/FollowListModal.tsx:73-76 | The followers or following endpoint of the user, by list kind |
| FollowListModal.Listed | src/components/common/FollowListModal.tsx:78-85 | The response field matching the kind, filtered |
| FollowListModal.FollowingMap | src/components/common/FollowListModal.tsx:118-124 | The keys are exactly the non-empty ids of the following list, all mapped to true |
| FollowListModal.Adjust | src/components/common/FollowListModal.tsx:142-150 | A cache update touches only its key, and an absent entry stays absent |
| FollowListModal.ToggleFollow | src/components/common/FollowListModal.tsx:126-211 | Nothing happens without a current user or on failure. Unfollow removes the target from the following list; follow appends it. The target's follower count and both current-user following counts move, with a floor at zero on unfollow. No other cache entry changes and no entry appears |
| FollowListModal.FollowCacheRoundTrip | src/components/common/FollowListModal.tsx:142-205 | A follow and then an unfollow restore every cached profile whose counts were not negative |
| FollowListModal.FollowListRoundTrip | src/components/common/FollowListModal.tsx:138-140 | Filtering out the just-appended target restores the following list |
| FollowListModal.FollowThenUnfollow | src/components/common/FollowListModal.tsx:126-211 | Following a user not yet followed, then unfollowing, restores the list and the whole cache |
| ProfilePage.ProfileUserId | src/pages/ProfilePage.tsx:40 | The route's user id, else the current user's, else "" |
| ProfilePage.OwnProfileFetchesOwnId | src/pages/ProfilePage.tsx:39-40 | On one's own profile the fetched id is one's own id, or ""; on another's it is a non-empty id that is not one's own |
| ProfilePage.FilterParam | src/pages/ProfilePage.tsx:62-71 | "saved" and "video" map to themselves, anything else to "all"; the tab is returned unchanged iff it is one of the three |
| ProfilePage.Sync | src/pages/ProfilePage.tsx:55-60 | A loaded profile overwrites the local follow flag and count, missing fields reading as false and 0 |
| ProfilePage.SyncOverwrites | src/pages/ProfilePage.tsx:55-60 | Once a profile is loaded the local state no longer depends on what it was; syncing again changes nothing |
| ProfilePage.FollowToggle | src/pages/ProfilePage.tsx:84-104 | Nothing without a route user id or on failure; otherwise the flag flips and the follower count moves with a floor at zero |
| ProfilePage.FollowToggleTwice | src/pages/ProfilePage.tsx:88-98 | Two successful toggles restore the state iff the floor did not bite |
| ProfilePage.TransformPost | src/pages/ProfilePage.tsx:129-146 | A post is produced iff the author is populated. Media go through the "http"-only resolver and images are [] without an image. Counts default to 0, flags to false, and no `user_id` is set |
| ProfilePage.LikePost | src/pages/ProfilePage.tsx:158-182 | After a successful request the like flips and the count moves by ±1 with no floor |
| ProfilePage.LikePostTwice | src/pages/ProfilePage.tsx:168-174 | Liking twice always restores the post; an unlike at zero shows -1 |
| ProfilePage.SavePost | src/pages/ProfilePage.tsx:184-205 | After a successful request only the saved flag flips |
| ProfilePage.SavePostTwice | src/pages/ProfilePage.tsx:184-197 | Saving twice always restores the open post, and a single save always changes it |
| RightSidebar.FollowingOf | src/components/common/RightSidebar.tsx:38-41 | The keys are exactly the suggestions' ids |
| RightSidebar.LastDuplicateWins | src/components/common/RightSidebar.tsx:39-41 | Each id maps to `isFollowing ?? false` of its last suggestion |
| RightSidebar.Init | src/components/common/RightSidebar.tsx:36-44 | With no suggestions the map is kept; otherwise it maps every suggestion id to its flag |
| RightSidebar.ToggleFollow | src/components/common/RightSidebar.tsx:52-78 | It unfollows iff the entry is true. On success only that entry is set, to the opposite; on failure nothing changes |
| RightSidebar.ToggleFollowTwice | src/components/common/RightSidebar.tsx:52-78 | Two successful toggles restore the entry's meaning, and the map itself when the entry existed |
| SearchPanel.OnQuery | src/components/common/SearchPanel.tsx:62-77 | A blank query clears and hides the results; any other is searched for, trimmed |
| SearchPanel.SearchQueryTrimmed | src/components/common/SearchPanel.tsx:74-76 | Searching for the sent query again sends the same query |
| SearchPanel.Results | src/components/common/SearchPanel.tsx:62-90 | A blank query clears and hides; a successful search shows its results (or none); a failed one changes nothing |
| SearchPanel.ResultsFollowTheAnswer | src/components/common/SearchPanel.tsx:62-90 | Results are shown iff the query is not blank; after an answer the view no longer depends on the previous one |
| SearchPanel.UserClick | src/components/common/SearchPanel.tsx:92-105 | History is saved iff the user has an id and the query is not blank, with the trimmed query; navigation to the user happens either way |
| SearchPanel.SavedQueryIsSearchedQuery | src/components/common/SearchPanel.tsx:74-99 | A saved query is exactly the query that was searched for |
| SearchPanel.HistoryClick | src/components/common/SearchPanel.tsx:107-111 | Navigates to the user iff the entry has a user id |
| SearchPanel.HistoryLeadsBack | src/components/common/SearchPanel.tsx:92-111 | A history entry saved from a result click navigates back to the clicked user's page |
| SearchPanel.DeleteOne | src/components/common/SearchPanel.tsx:113-123 | After success exactly the entries with another id remain, as many as the history has with another id |
| SearchPanel.DeleteOneKeepsOrder | src/components/common/SearchPanel.tsx:118 | The remaining entries keep their order, and deleting the same id again changes nothing |
| SearchPanel.ClearAll | src/components/common/SearchPanel.tsx:125-133 | After success the history is empty; on failure it is kept |
| SearchPanel.ClearAllThenDeleteOne | src/components/common/SearchPanel.tsx:113-133 | After a successful clear, deleting any entry leaves the history empty |
| HomePage.NextOffset | src/pages/HomePage.tsx:35-39 | There is a next page iff `hasMore`, at offset + limit, defaulting to 0 and 20 |
| HomePage.EchoedWindowsAdjacent | src/pages/HomePage.tsx:28-39 | When the server echoes its window, page k starts at offset 20k |
| HomePage.Transform | src/pages/HomePage.tsx:48-72 | `user_id` is set iff the author id is truthy, the author has no avatar, and images are kept only for image posts that have one. Video is set iff it is a video post. Counts default to 0, flags to false |
| HomePage.FeedAgreesWithProfile | src/pages/HomePage.tsx:48-72 | The feed and the profile page read a post alike in caption, counts, flags and date, and in an absolute image URL |
| HomePage.LoadMore | src/pages/HomePage.tsx:48-50 | A new page's posts, converted in order, follow those already shown |
| ExplorePage.NextPage | src/pages/ExplorePage.tsx:22-27 | The next page is page + 1 iff page < total_pages, so it never exceeds total_pages |
| ExplorePage.RequestedPages | src/pages/ExplorePage.tsx:20-27 | From a page on, each page up to the last is requested once, in order |
| ExplorePage.AllPagesRequested | src/pages/ExplorePage.tsx:20-27 | Starting from page 1, pages 1 to total_pages are requested |
| ExplorePage.LoadMore | src/pages/ExplorePage.tsx:33 | A new page's users follow those already shown |
| PostService.UserPostsQueryOf | src/services/postService.ts:18-31 | The filter is "all", the limit defaults to 20, and the offset is (page - 1) * limit with page defaulting to 1 |
| PostService.PagesTileThePosts | src/services/postService.ts:19-21 | Page 1 starts at 0, consecutive pages are adjacent, and the page can be read back from the offset |
| PostService.DefaultQuery | src/services/postService.ts:19-21 | Without parameters the query is the first window of 20 |
| PostService.CreatePostForm | src/services/postService.ts:38-46 | The content first, then one `images` entry per image, in order, and none when images are absent |
| PostService.CreatePostFormRoundTrip | src/services/postService.ts:39-46 | The content and every image, in order, can be read back from the form |
| UserService.TextEntries | src/services/userService.ts:16-21 | Every truthy property other than avatar and cover_image has its `String(value)` entry, and every entry comes from such a property |
| UserService.TextEntriesInOrder | src/services/userService.ts:16-21 | The text entries are the properties sent as text, in the object's key order, one entry each: as many entries as such properties |
| UserService.FileEntry | src/services/userService.ts:23-28 | A file key is appended iff its value is truthy |
| UserService.ProfileForm | src/services/userService.ts:14-28 | The text fields come first; avatar is present iff truthy; cover_image is present iff truthy, and last |
| UserService.FormEntriesFromTruthyFields | src/services/userService.ts:16-28 | Every entry comes from a truthy property, so an emptied field is never sent; the file keys follow every text field |
| Sidebar.IsActive | src/components/common/Sidebar.tsx:86-90 | An empty href is never active, "/" only on "/", and any other href on a plain prefix match |
| Sidebar.PrefixNotSegment | src/components/common/Sidebar.tsx:89 | The match is not by path segment: "/user/1" is active on "/user/12" |
| Sidebar.ProfileHref | src/components/common/Sidebar.tsx:80 | The signed-in user's page, or "" without one |
| Sidebar.SignedOutProfileNeverActive | src/components/common/Sidebar.tsx:80-87 | Without a signed-in user the profile item is never active |
| Sidebar.Click | src/components/common/Sidebar.tsx:138-155 | An item with an href navigates; one without runs its action, if any |
| Sidebar.ClickIgnoresSearchOpen | src/components/common/Sidebar.tsx:149-155 | A click has the same effect whether or not the search panel is open |
| Sidebar.MenuClicks | src/components/common/Sidebar.tsx:40-84 | Search, notifications and create run their actions; home navigates to "/"; a signed-out profile item does nothing |

## Left out

- Promises, async suspension and the event loop. The refresh path is a sequence of events, and resolutions, rejections, refresh calls and the `/login` redirect are recorded as effects. Which response reaches the interceptor first is the event order.
- Resending a request re-enters the interceptor. That is a new `Response` event, not an automatic step.
- The refresh request's own transport. It is posted with the stored refresh token and no bearer header; only its outcome is modelled.
- zustand `persist`. It rewrites `auth-storage` after every change and rehydrates from it on load. Only the explicit `localStorage` calls are modelled.
- `JSON.stringify` output. `Domain.UserJson` gives one concrete encoding; `undefined` versus `null` members are not distinguished beyond leaving absent ones out.
- `undefined` written to storage. A login that stored `undefined` would store the string "undefined"; the login guard rules this out before any write.
- The zod library. `email()` and `url()` are function parameters. The order and grouping of issues follows the schema's declaration order, and the refine always runs on the parsed values. Only `min` before `trim` and `trim` before `min` (username) are modelled as written.
- Strings are sequences of Unicode characters. The length rules count UTF-16 code units, as JavaScript's `.length` does (`Text.Utf16Length`); everything else indexes characters, so a lone surrogate cannot be written. `toLowerCase` is modelled for ASCII letters only, so a message in another case of "MẬT KHẨU CŨ" is not recognised; `trim` uses ECMAScript's white-space set.
- `axiosInstance.defaults.baseURL` is a string parameter. An unset base URL, which JavaScript would print as "undefined", is not modelled.
- Timers, `FileReader`, `URL.createObjectURL` and `revokeObjectURL`. Previews are a function parameter and the search debounce is left out; the query effect is modelled as if it ran at once.
- Toasts, `console` output, loading flags of the components, JSX, modal open and close, Escape handlers and body overflow.
- react-query cache invalidation and refetching after follow, like and save. Only the explicit `setQueryData` updates of the follow dialog are modelled.
- HTTP header names are case-sensitive map keys.
- `NaN`. Counts are integers, so `undefined - 1` and `x || 0` on `NaN` are not modelled.
- FeedStore's `setLoading`, `setHasMore` and `setPage` single-field setters: each replaces one field.
- HomePage's author record also carries `email: ""` and `full_name` set to the username. The shared `PostAuthor` has no such fields.
- `Partial<User>` can carry a required key explicitly set to `undefined`. `UserStore.Merge` writes it as given only for the optional fields.
- CommentModal's initial `repliesCount` (the length of the fetched replies) and the fetched comment list itself. These are plain assignments of the server's data.
- ProfilePage's refetch of the profile after a follow toggle, which re-syncs the local state through `ProfilePage.Sync`.
- CommentModal.LikeReply: a like button exists only under loaded replies. If the thread were missing, the source's state updater would throw while rendering, outside the request's error handling; the model keeps the loaded replies unchanged in that unreachable case.
- FollowListModal.ToggleFollow: when the target is the signed-in user, the two cache keys coincide and both updates apply to one entry. The contract states the per-key results only for a target other than oneself.
- src/types/index.ts only declares types; its field names are used for the datatypes.
