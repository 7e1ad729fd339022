/**
 * The suggestions column (src/components/common/RightSidebar.tsx): the local
 * map of whom the signed-in user follows among the suggestions, and the
 * follow toggle that updates it.
 */
module RightSidebar {
  import opened Options

  /** A suggested user: its identity and the server's `isFollowing`, which may be missing. */
  datatype Suggestion = Suggestion(id: string, username: string, isFollowing: Option<bool>)

  /** The suggestions as a map from identity to followed flag, written in list order. */
  function FollowingOf(suggestions: seq<Suggestion>): (r: map<string, bool>)
    ensures r.Keys == set u | u in suggestions :: u.id
  {
    if suggestions == [] then map[]
    else
      var last := suggestions[|suggestions| - 1];
      var front := suggestions[..|suggestions| - 1];
      assert forall u :: u in suggestions <==> u in front || u == last;
      FollowingOf(front)[last.id := last.isFollowing.GetOr(false)]
  }

  /** Suggestion `i` is the last one with its identity. */
  predicate LastWithId(suggestions: seq<Suggestion>, i: int)
    requires 0 <= i < |suggestions|
  {
    forall j :: i < j < |suggestions| ==> suggestions[j].id != suggestions[i].id
  }

  /** Every identity maps to the flag of its last suggestion, a missing flag reading as false. */
  lemma {:induction false} LastDuplicateWins(suggestions: seq<Suggestion>, i: int)
    requires 0 <= i < |suggestions| && LastWithId(suggestions, i)
    ensures FollowingOf(suggestions)[suggestions[i].id] == suggestions[i].isFollowing.GetOr(false)
    decreases |suggestions|
  {
    var n := |suggestions| - 1;
    if i < n {
      var front := suggestions[..n];
      assert front[i] == suggestions[i];
      assert LastWithId(front, i) by {
        forall j | i < j < |front| ensures front[j].id != front[i].id {
          assert front[j] == suggestions[j];
        }
      }
      LastDuplicateWins(front, i);
    }
  }

  /** The initialising effect: an empty suggestion list leaves the map as it was. */
  function Init(local: map<string, bool>, suggestions: seq<Suggestion>): (r: map<string, bool>)
    ensures suggestions == [] ==> r == local
    ensures suggestions != [] ==> r.Keys == set u | u in suggestions :: u.id
    ensures suggestions != [] ==> forall i :: 0 <= i < |suggestions| && LastWithId(suggestions, i) ==>
      r[suggestions[i].id] == suggestions[i].isFollowing.GetOr(false)
  {
    if suggestions == [] then local
    else
      var r := FollowingOf(suggestions);
      forall i | 0 <= i < |suggestions| && LastWithId(suggestions, i)
        ensures r[suggestions[i].id] == suggestions[i].isFollowing.GetOr(false)
      {
        LastDuplicateWins(suggestions, i);
      }
      r
  }

  /** The toggle unfollows exactly when the map says the user is followed; absent means not followed. */
  predicate IsFollowed(local: map<string, bool>, userId: string) {
    userId in local && local[userId]
  }

  /** `handleToggleFollow`: after a successful request only this user's entry is set, to the opposite of before. */
  function ToggleFollow(local: map<string, bool>, userId: string, succeeded: bool): (r: map<string, bool>)
    ensures !succeeded ==> r == local
    ensures succeeded ==> r.Keys == local.Keys + {userId} && r[userId] == !IsFollowed(local, userId)
    ensures forall id :: id in local && id != userId ==> r[id] == local[id]
  {
    if succeeded then local[userId := !IsFollowed(local, userId)] else local
  }

  /** Two successful toggles restore the entry's meaning, and the map itself when the user had an entry. */
  lemma ToggleFollowTwice(local: map<string, bool>, userId: string)
    ensures IsFollowed(ToggleFollow(ToggleFollow(local, userId, true), userId, true), userId) == IsFollowed(local, userId)
    ensures userId in local ==> ToggleFollow(ToggleFollow(local, userId, true), userId, true) == local
  {
  }
}
