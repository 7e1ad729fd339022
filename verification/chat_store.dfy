/**
 * The chat store (src/stores/chatStore.ts): the conversation list, the open
 * conversation, its messages and a loading flag.
 */
module ChatStore {
  import opened Options
  import opened Domain
  import Seqs

  datatype Message = Message(
    id: string,
    conversationId: string,
    senderId: string,
    receiverId: string,
    content: string,
    image: Option<string>,
    isRead: bool,
    createdAt: string)

  datatype Conversation = Conversation(
    id: string,
    userId: string,
    otherUserId: string,
    otherUser: Option<User>,
    lastMessage: Option<Message>,
    updatedAt: string)

  datatype ChatState = ChatState(
    conversations: seq<Conversation>,
    currentConversation: Option<Conversation>,
    messages: seq<Message>,
    isLoading: bool)

  const Initial := ChatState([], None, [], false)

  /** Conversations with identity `id`. */
  function HasId(id: string): Conversation -> bool {
    (c: Conversation) => c.id == id
  }

  /** Conversations with any other identity. */
  function OtherId(id: string): Conversation -> bool {
    (c: Conversation) => c.id != id
  }

  function SetConversations(s: ChatState, conversations: seq<Conversation>): (r: ChatState)
    ensures r.conversations == conversations
    ensures r.currentConversation == s.currentConversation && r.messages == s.messages && r.isLoading == s.isLoading
  {
    s.(conversations := conversations)
  }

  /**
   * Moves `c` to the front: any conversation with the same identity is
   * dropped and `c` is put first.
   */
  function AppendConversation(s: ChatState, c: Conversation): (r: ChatState)
    ensures |r.conversations| >= 1 && r.conversations[0] == c
    ensures Seqs.Count(r.conversations, HasId(c.id)) == 1
    ensures |r.conversations| == 1 + Seqs.Count(s.conversations, OtherId(c.id))
    ensures forall x :: x in s.conversations && x.id != c.id ==> x in r.conversations
    ensures forall x :: x in r.conversations ==> x == c || x in s.conversations
    ensures r.currentConversation == s.currentConversation && r.messages == s.messages && r.isLoading == s.isLoading
  {
    var rest := Seqs.Filter(s.conversations, OtherId(c.id));
    Seqs.FilterCount(s.conversations, OtherId(c.id));
    var r := s.(conversations := [c] + rest);
    assert r.conversations[1..] == rest;
    assert Seqs.Count(rest, HasId(c.id)) == 0;
    r
  }

  /** The conversations after the first are the old ones, in their old relative order. */
  lemma AppendConversationKeepsOrder(s: ChatState, c: Conversation)
    ensures Seqs.IsSubsequence(AppendConversation(s, c).conversations[1..], s.conversations)
  {
    Seqs.FilterIsSubsequence(s.conversations, OtherId(c.id));
    assert AppendConversation(s, c).conversations[1..] == Seqs.Filter(s.conversations, OtherId(c.id));
  }

  /** A conversation whose identity is new is simply put in front of the list. */
  lemma AppendNewConversation(s: ChatState, c: Conversation)
    requires forall x :: x in s.conversations ==> x.id != c.id
    ensures AppendConversation(s, c).conversations == [c] + s.conversations
  {
    Seqs.FilterKeepsAll(s.conversations, OtherId(c.id));
  }

  /** Appending the same conversation twice is appending it once. */
  lemma AppendConversationIdempotent(s: ChatState, c: Conversation)
    ensures AppendConversation(AppendConversation(s, c), c) == AppendConversation(s, c)
  {
    var keep := OtherId(c.id);
    var rest := Seqs.Filter(s.conversations, keep);
    var once := AppendConversation(s, c);
    assert once.conversations == [c] + rest;
    Seqs.FilterConcat([c], rest, keep);
    assert Seqs.Filter([c], keep) == [];
    Seqs.FilterIdempotent(s.conversations, keep);
    assert Seqs.Filter(once.conversations, keep) == rest;
  }

  function SetCurrentConversation(s: ChatState, c: Option<Conversation>): (r: ChatState)
    ensures r.currentConversation == c
    ensures r.conversations == s.conversations && r.messages == s.messages && r.isLoading == s.isLoading
  {
    s.(currentConversation := c)
  }

  function SetMessages(s: ChatState, messages: seq<Message>): (r: ChatState)
    ensures r.messages == messages
    ensures r.conversations == s.conversations && r.currentConversation == s.currentConversation && r.isLoading == s.isLoading
  {
    s.(messages := messages)
  }

  /** Adds `m` at the end of the message list; nothing is dropped or reordered. */
  function AppendMessage(s: ChatState, m: Message): (r: ChatState)
    ensures |r.messages| == |s.messages| + 1 && r.messages[|s.messages|] == m
    ensures r.messages[..|s.messages|] == s.messages
    ensures r.conversations == s.conversations && r.currentConversation == s.currentConversation && r.isLoading == s.isLoading
  {
    s.(messages := s.messages + [m])
  }

  /** Appending messages one at a time yields them in arrival order after the old ones. */
  lemma {:induction false} AppendMessagesInOrder(s: ChatState, ms: seq<Message>)
    ensures AppendAll(s, ms).messages == s.messages + ms
    decreases |ms|
  {
    if ms != [] {
      AppendMessagesInOrder(AppendMessage(s, ms[0]), ms[1..]);
      assert s.messages + [ms[0]] + ms[1..] == s.messages + ms;
    }
  }

  function AppendAll(s: ChatState, ms: seq<Message>): ChatState
    decreases |ms|
  {
    if ms == [] then s else AppendAll(AppendMessage(s, ms[0]), ms[1..])
  }

  function SetLoading(s: ChatState, loading: bool): (r: ChatState)
    ensures r.isLoading == loading
    ensures r.conversations == s.conversations && r.currentConversation == s.currentConversation && r.messages == s.messages
  {
    s.(isLoading := loading)
  }

  /** Clears every field back to the initial state, whatever the state was. */
  function Reset(s: ChatState): (r: ChatState)
    ensures r == Initial
    ensures r.conversations == [] && r.currentConversation == None && r.messages == [] && !r.isLoading
  {
    ChatState([], None, [], false)
  }

  lemma ResetIdempotent(s: ChatState)
    ensures Reset(Reset(s)) == Reset(s)
  {
  }
}
