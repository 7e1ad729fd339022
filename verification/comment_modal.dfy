/**
 * The comment dialog's local list updates
 * (src/components/common/CommentModal.tsx): like toggles on comments and
 * replies, deleting and editing a comment, counting a new reply, showing
 * and hiding replies, and the submit guards. Each update is applied only
 * after its request succeeded; `succeeded` says whether it did.
 */
module CommentModal {
  import opened Options
  import Text
  import Seqs
  import Counters

  datatype Author = Author(id: string, username: string, profilePicture: Option<string>)

  datatype Comment = Comment(
    id: string,
    author: Author,
    content: string,
    createdAt: string,
    likes: int,
    isLiked: bool,
    repliesCount: Option<int>)

  datatype Reply = Reply(id: string, author: Author, content: string, createdAt: string, likes: int, isLiked: bool)

  function ToggleComment(c: Comment): (r: Comment)
    ensures r.isLiked == !c.isLiked && r.likes == Counters.Toggled(c.likes, c.isLiked)
    ensures r.(isLiked := c.isLiked, likes := c.likes) == c
  {
    c.(isLiked := !c.isLiked, likes := Counters.Toggled(c.likes, c.isLiked))
  }

  /** Comments with identity `id`. */
  predicate HasId(comments: seq<Comment>, id: string) {
    exists i :: 0 <= i < |comments| && comments[i].id == id
  }

  /**
   * `handleLikeComment`: no request when the comment is not in the list;
   * otherwise, after a successful request, every comment with that identity
   * is toggled and the others are kept, in place.
   */
  function LikeComment(comments: seq<Comment>, id: string, succeeded: bool): (r: seq<Comment>)
    ensures !HasId(comments, id) || !succeeded ==> r == comments
    ensures |r| == |comments|
    ensures forall i :: 0 <= i < |comments| && comments[i].id != id ==> r[i] == comments[i]
    ensures succeeded && HasId(comments, id) ==>
      forall i :: 0 <= i < |comments| && comments[i].id == id ==> r[i] == ToggleComment(comments[i])
  {
    if !HasId(comments, id) || !succeeded then comments
    else seq(|comments|, i requires 0 <= i < |comments| =>
               if comments[i].id == id then ToggleComment(comments[i]) else comments[i])
  }

  /** Liking a comment twice restores the list when no count on the way was clamped. */
  lemma LikeCommentTwice(comments: seq<Comment>, id: string)
    requires forall i :: 0 <= i < |comments| && comments[i].id == id ==>
      comments[i].likes >= if comments[i].isLiked then 1 else 0
    ensures LikeComment(LikeComment(comments, id, true), id, true) == comments
  {
    var once := LikeComment(comments, id, true);
    var twice := LikeComment(once, id, true);
    if HasId(comments, id) {
      var k :| 0 <= k < |comments| && comments[k].id == id;
      assert once[k].id == id;
      forall i | 0 <= i < |comments| ensures twice[i] == comments[i] {
        if comments[i].id == id {
          Counters.ToggledTwice(comments[i].likes, comments[i].isLiked);
        }
      }
    }
  }

  function ToggleReply(r0: Reply): (r: Reply)
    ensures r.isLiked == !r0.isLiked && r.likes == Counters.Toggled(r0.likes, r0.isLiked)
    ensures r.(isLiked := r0.isLiked, likes := r0.likes) == r0
  {
    r0.(isLiked := !r0.isLiked, likes := Counters.Toggled(r0.likes, r0.isLiked))
  }

  /**
   * `handleLikeReply`: toggles reply `replyId` inside the replies loaded for
   * `commentId`. The button only exists under loaded replies; were they
   * missing, the loaded replies would stay as they were.
   */
  function LikeReply(replies: map<string, seq<Reply>>, commentId: string, replyId: string, succeeded: bool)
    : (r: map<string, seq<Reply>>)
    ensures !succeeded || commentId !in replies ==> r == replies
    ensures r.Keys == replies.Keys
    ensures forall k :: k in replies && k != commentId ==> r[k] == replies[k]
    ensures succeeded && commentId in replies ==>
      |r[commentId]| == |replies[commentId]|
      && forall i :: 0 <= i < |replies[commentId]| ==>
           r[commentId][i] == if replies[commentId][i].id == replyId then ToggleReply(replies[commentId][i])
                              else replies[commentId][i]
  {
    if !succeeded || commentId !in replies then replies
    else
      var list := replies[commentId];
      replies[commentId := seq(|list|, i requires 0 <= i < |list| =>
                                 if list[i].id == replyId then ToggleReply(list[i]) else list[i])]
  }

  /** Liking a reply twice restores the loaded replies when no count on the way was clamped. */
  lemma LikeReplyTwice(replies: map<string, seq<Reply>>, commentId: string, replyId: string)
    requires commentId in replies ==>
      forall i :: 0 <= i < |replies[commentId]| && replies[commentId][i].id == replyId ==>
        replies[commentId][i].likes >= if replies[commentId][i].isLiked then 1 else 0
    ensures LikeReply(LikeReply(replies, commentId, replyId, true), commentId, replyId, true) == replies
  {
    var twice := LikeReply(LikeReply(replies, commentId, replyId, true), commentId, replyId, true);
    if commentId in replies {
      var list := replies[commentId];
      forall i | 0 <= i < |list| ensures twice[commentId][i] == list[i] {
        if list[i].id == replyId {
          Counters.ToggledTwice(list[i].likes, list[i].isLiked);
        }
      }
      assert twice[commentId] == list;
      assert forall k :: k in twice ==> twice[k] == replies[k];
    }
  }

  /** Comments other than `id`. */
  function OtherComment(id: string): Comment -> bool {
    (c: Comment) => c.id != id
  }

  /** `handleDeleteComment`: after a successful request no comment with that identity is left. */
  function DeleteComment(comments: seq<Comment>, id: string, succeeded: bool): (r: seq<Comment>)
    ensures !succeeded ==> r == comments
    ensures succeeded ==> !HasId(r, id)
    ensures forall c :: c in r ==> c in comments
    ensures forall c :: c in comments && c.id != id ==> c in r
    ensures succeeded ==> |r| == Seqs.Count(comments, OtherComment(id))
  {
    if !succeeded then comments
    else
      var r := Seqs.Filter(comments, OtherComment(id));
      Seqs.FilterCount(comments, OtherComment(id));
      assert forall i :: 0 <= i < |r| ==> r[i] in r;
      r
  }

  lemma DeleteCommentKeepsOrder(comments: seq<Comment>, id: string)
    ensures Seqs.IsSubsequence(DeleteComment(comments, id, true), comments)
  {
    Seqs.FilterIsSubsequence(comments, OtherComment(id));
  }

  /**
   * `handleSaveEditComment`: without a comment being edited nothing happens;
   * otherwise, after a successful request, only the content of the edited
   * comment changes.
   */
  function SaveEdit(comments: seq<Comment>, editing: Option<string>, newContent: string, succeeded: bool)
    : (r: seq<Comment>)
    ensures editing.None? || !succeeded ==> r == comments
    ensures |r| == |comments|
    ensures forall i :: 0 <= i < |comments| ==> r[i].(content := comments[i].content) == comments[i]
    ensures editing.Some? && succeeded ==>
      forall i :: 0 <= i < |comments| ==>
        r[i].content == if comments[i].id == editing.value then newContent else comments[i].content
  {
    if editing.None? || !succeeded then comments
    else seq(|comments|, i requires 0 <= i < |comments| =>
               if comments[i].id == editing.value then comments[i].(content := newContent) else comments[i])
  }

  /** Saving the same edit again changes nothing, and saving content the comment already has is no change at all. */
  lemma SaveEditIdempotent(comments: seq<Comment>, editing: Option<string>, newContent: string)
    ensures var once := SaveEdit(comments, editing, newContent, true);
      SaveEdit(once, editing, newContent, true) == once
    ensures (forall c :: c in comments && editing == Some(c.id) ==> c.content == newContent) ==>
      SaveEdit(comments, editing, newContent, true) == comments
  {
    var once := SaveEdit(comments, editing, newContent, true);
    var twice := SaveEdit(once, editing, newContent, true);
    assert forall i :: 0 <= i < |once| ==> twice[i] == once[i];
    if forall c :: c in comments && editing == Some(c.id) ==> c.content == newContent {
      forall i | 0 <= i < |comments| ensures once[i] == comments[i] {
        assert comments[i] in comments;
      }
    }
  }

  /** After a reply is posted, its comment counts one more reply; a missing count counts as zero. */
  function CountReply(comments: seq<Comment>, commentId: string): (r: seq<Comment>)
    ensures |r| == |comments|
    ensures forall i :: 0 <= i < |comments| && comments[i].id != commentId ==> r[i] == comments[i]
    ensures forall i :: 0 <= i < |comments| && comments[i].id == commentId ==>
      r[i] == comments[i].(repliesCount := Some(comments[i].repliesCount.GetOr(0) + 1))
  {
    seq(|comments|, i requires 0 <= i < |comments| =>
          if comments[i].id == commentId
          then comments[i].(repliesCount := Some(comments[i].repliesCount.GetOr(0) + 1))
          else comments[i])
  }

  /** Two replies posted to the same comment count two more; every other comment is untouched. */
  lemma CountReplyTwice(comments: seq<Comment>, commentId: string)
    ensures var twice := CountReply(CountReply(comments, commentId), commentId);
      && |twice| == |comments|
      && forall i :: 0 <= i < |comments| ==>
           twice[i] == if comments[i].id == commentId
                       then comments[i].(repliesCount := Some(comments[i].repliesCount.GetOr(0) + 2))
                       else comments[i]
  {
    var once := CountReply(comments, commentId);
    var twice := CountReply(once, commentId);
    forall i | 0 <= i < |comments| && comments[i].id == commentId
      ensures twice[i].repliesCount == Some(comments[i].repliesCount.GetOr(0) + 2)
    {
      assert once[i].repliesCount == Some(comments[i].repliesCount.GetOr(0) + 1);
    }
  }

  /** Loaded replies and their visibility, keyed by comment. */
  datatype RepliesView = RepliesView(replies: map<string, seq<Reply>>, shown: map<string, bool>)

  predicate IsShown(v: RepliesView, id: string) {
    id in v.shown && v.shown[id]
  }

  /** What `toggleReplies` does: hide, show the cached replies, or fetch them. */
  datatype ToggleAction = Hide | ShowCached | Fetch

  function ToggleRepliesAction(v: RepliesView, id: string): (r: ToggleAction)
    ensures r == Hide <==> IsShown(v, id)
    ensures r == ShowCached <==> !IsShown(v, id) && id in v.replies
    ensures r == Fetch <==> !IsShown(v, id) && id !in v.replies
  {
    if IsShown(v, id) then Hide else if id in v.replies then ShowCached else Fetch
  }

  /** `toggleReplies`: the view right away; a fetch is started only for replies not loaded yet. */
  function ToggleReplies(v: RepliesView, id: string): (r: RepliesView)
    ensures r.replies == v.replies
    ensures ToggleRepliesAction(v, id) == Hide ==> r.shown == v.shown[id := false]
    ensures ToggleRepliesAction(v, id) == ShowCached ==> r.shown == v.shown[id := true]
    ensures ToggleRepliesAction(v, id) == Fetch ==> r == v
  {
    match ToggleRepliesAction(v, id)
    case Hide => v.(shown := v.shown[id := false])
    case ShowCached => v.(shown := v.shown[id := true])
    case Fetch => v
  }

  /** A successful fetch stores the replies and shows them; a failed one changes nothing. */
  function RepliesFetched(v: RepliesView, id: string, fetched: Option<seq<Reply>>): (r: RepliesView)
    ensures fetched.None? ==> r == v
    ensures fetched.Some? ==> r.replies == v.replies[id := fetched.value] && IsShown(r, id)
  {
    if fetched.None? then v else RepliesView(v.replies[id := fetched.value], v.shown[id := true])
  }

  /** The view once a closed thread is opened: toggled, and the fetch completed when one was started. */
  function Opened(v: RepliesView, id: string, fetched: seq<Reply>): RepliesView {
    if ToggleRepliesAction(v, id) == Fetch then RepliesFetched(v, id, Some(fetched)) else ToggleReplies(v, id)
  }

  /** Whatever the state, toggling and fetching where asked shows the replies, and toggling again hides them. */
  lemma ToggleRoundTrip(v: RepliesView, id: string, fetched: seq<Reply>)
    requires !IsShown(v, id)
    ensures IsShown(Opened(v, id, fetched), id)
    ensures !IsShown(ToggleReplies(Opened(v, id, fetched), id), id)
  {
  }

  /** The new comment's text is sent as typed, and only when it is not blank and no submit is under way. */
  function SubmitComment(text: string, isSubmitting: bool): (r: Option<string>)
    ensures r.Some? <==> !Text.AllSpace(text) && !isSubmitting
    ensures r.Some? ==> r.value == text
  {
    if Text.Trim(text) == "" || isSubmitting then None else Some(text)
  }

  /** A reply is sent, as typed, only when it is not blank, a comment is being replied to, and no reply submit is under way. */
  function SubmitReply(text: string, replyingTo: Option<string>, isSubmitting: bool): (r: Option<(string, string)>)
    ensures r.Some? <==> !Text.AllSpace(text) && replyingTo.Some? && !isSubmitting
    ensures r.Some? ==> r.value == (replyingTo.value, text)
  {
    if Text.Trim(text) == "" || replyingTo.None? || isSubmitting then None else Some((replyingTo.value, text))
  }
}
