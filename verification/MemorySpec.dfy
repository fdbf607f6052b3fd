/** What each method of the in-memory store does to its four maps, as functions of the state.
    The class `InMemoryStore` is proved against these functions. */
module MemorySpec {
  import opened StoreTypes

  datatype State = State(
    convs: map<Id, Conversation>,
    msgs: map<Id, seq<Message>>,
    index: map<Id, Id>,
    fb: map<FeedbackKey, Feedback>)

  const Empty := State(map[], map[], map[], map[])

  predicate Owns(s: State, sub: Subject, c: Id) {
    c in s.convs && s.convs[c].sub == sub
  }

  /** The linear search for the named message: its first position, or -1. */
  function Position(ms: seq<Message>, m: Id): (p: int)
    ensures -1 <= p < |ms|
    ensures p >= 0 ==> ms[p].id == m
    ensures forall i :: 0 <= i < (if p < 0 then |ms| else p) ==> ms[i].id != m
  {
    if ms == [] then -1
    else if ms[0].id == m then 0
    else var p := Position(ms[1..], m); if p < 0 then -1 else p + 1
  }

  function IdsOf(ms: seq<Message>): set<Id> {
    set i | 0 <= i < |ms| :: ms[i].id
  }

  function MessagesOf(s: State, c: Id): seq<Message> {
    if c in s.msgs then s.msgs[c] else []
  }

  /** Where a message lives, as the index and the ownership check resolve it. */
  predicate Visible(s: State, sub: Subject, m: Id) {
    m in s.index && Owns(s, sub, s.index[m])
  }

  /** The three early exits of BranchFromMessage, after the empty-subject check. */
  predicate Branchable(s: State, sub: Subject, m: Id) {
    Visible(s, sub, m) && Position(MessagesOf(s, s.index[m]), m) >= 0
  }

  /** The messages up to and including the named one. */
  function Prefix(s: State, m: Id): seq<Message>
    requires m in s.index
  {
    MessagesOf(s, s.index[m])[..Position(MessagesOf(s, s.index[m]), m) + 1]
  }

  function Copies(ms: seq<Message>, dst: Id, now: Time, mint: Mint): (cs: seq<Message>)
    ensures |cs| == |ms|
    ensures forall i :: 0 <= i < |ms| ==> cs[i] == Message(mint(i + 1), dst, ms[i].role, ms[i].content, now)
  {
    seq(|ms|, i requires 0 <= i < |ms| => Message(mint(i + 1), dst, ms[i].role, ms[i].content, now))
  }

  function BranchHead(s: State, e: Call): Conversation
    requires e.op.BranchFromMessage? && Visible(s, e.sub, e.op.messageId)
  {
    NewConversation(e, DefaultTitle(e.op.title, s.convs[s.index[e.op.messageId]].title))
  }

  function AfterCreate(s: State, c: Conversation): State {
    s.(convs := s.convs[c.id := c], msgs := s.msgs[c.id := []])
  }

  function AfterRename(s: State, c: Id, title: string, now: Time): State
    requires c in s.convs
  {
    s.(convs := s.convs[c := s.convs[c].(title := title, updatedAt := now)])
  }

  /** The index once the messages are filed under the conversation. */
  function Filed(index: map<Id, Id>, ms: seq<Message>, c: Id): map<Id, Id> {
    index + (map x | x in IdsOf(ms) :: c)
  }

  /** The index without the messages. */
  function Unfiled(index: map<Id, Id>, ms: seq<Message>): map<Id, Id> {
    index - IdsOf(ms)
  }

  function AfterDelete(s: State, c: Id): State {
    s.(convs := s.convs - {c}, msgs := s.msgs - {c}, index := Unfiled(s.index, MessagesOf(s, c)))
  }

  function AfterAppend(s: State, m: Message): State
    requires m.conversationId in s.convs
  {
    var c := m.conversationId;
    s.(convs := s.convs[c := s.convs[c].(updatedAt := m.createdAt)],
       msgs := s.msgs[c := MessagesOf(s, c) + [m]],
       index := s.index[m.id := c])
  }

  function AfterBranch(s: State, head: Conversation, copies: seq<Message>): State {
    s.(convs := s.convs[head.id := head],
       msgs := s.msgs[head.id := copies],
       index := Filed(s.index, copies, head.id))
  }

  function AppendedMessage(e: Call): Message
    requires e.op.AppendMessage?
  {
    Message(e.mint(0), e.op.conversationId, e.op.role, e.op.content, e.now)
  }

  /** Whether a mutating call takes effect. */
  predicate Succeeds(s: State, e: Call) {
    match e.op
    case CreateConversation(_) => e.sub != ""
    case RenameConversation(c, _) => Owns(s, e.sub, c)
    case DeleteConversation(c) => Owns(s, e.sub, c)
    case AppendMessage(c, _, _) => Owns(s, e.sub, c)
    case BranchFromMessage(m, _) => e.sub != "" && Branchable(s, e.sub, m)
    case UpsertFeedback(m, rating, _) => ValidRating(rating) && Visible(s, e.sub, m)
    case _ => false
  }

  /** The error a mutating call gives when it does not take effect. */
  function Refusal(e: Call): StoreError {
    match e.op
    case CreateConversation(_) => Forbidden
    case BranchFromMessage(_, _) => if e.sub == "" then Forbidden else NotFound
    case UpsertFeedback(_, rating, _) => if ValidRating(rating) then NotFound else InvalidRating
    case _ => NotFound
  }

  /** What a mutating call answers when it takes effect. */
  function Granted(s: State, e: Call): Reply
    requires Succeeds(s, e)
  {
    match e.op
    case CreateConversation(title) => OneConversation(NewConversation(e, title))
    case RenameConversation(c, title) => OneConversation(s.convs[c].(title := title, updatedAt := e.now))
    case DeleteConversation(_) => Deleted
    case AppendMessage(_, _, _) => OneMessage(AppendedMessage(e))
    case BranchFromMessage(_, _) => OneConversation(BranchHead(s, e))
    case UpsertFeedback(_, _, _) => OneFeedback(NewFeedback(e))
  }

  /** The replies the method may give; only the order of conversations with equal update times is open. */
  ghost predicate Allows(s: State, e: Call, r: Reply) {
    match e.op
    case ListConversations =>
      if e.sub == "" then r == Failed(Forbidden)
      else r.Conversations? && IsListing(s.convs, e.sub, r.conversations)
    case GetConversation(c) =>
      r == if Owns(s, e.sub, c) then OneConversation(s.convs[c]) else Failed(NotFound)
    case ListMessages(c) =>
      r == if Owns(s, e.sub, c) then Messages(MessagesOf(s, c)) else Failed(NotFound)
    case GetFeedback(m) =>
      r == if FeedbackKey(e.sub, m) in s.fb then OneFeedback(s.fb[FeedbackKey(e.sub, m)]) else Failed(NotFound)
    case _ =>
      r == if Succeeds(s, e) then Granted(s, e) else Failed(Refusal(e))
  }

  /** One call takes the store from `s` to `t` and answers `r`. */
  ghost predicate Does(s: State, e: Call, t: State, r: Reply) {
    t == Next(s, e) && Allows(s, e, r)
  }

  predicate Mutates(op: Op) {
    op.CreateConversation? || op.RenameConversation? || op.DeleteConversation?
    || op.AppendMessage? || op.BranchFromMessage? || op.UpsertFeedback?
  }

  lemma Refused(s: State, e: Call)
    requires Mutates(e.op) && !Succeeds(s, e)
    ensures Does(s, e, s, Failed(Refusal(e)))
  {
  }

  /** The effect of a mutating call that succeeds. */
  function Effect(s: State, e: Call): State
    requires Succeeds(s, e)
  {
    match e.op
    case CreateConversation(title) => AfterCreate(s, NewConversation(e, title))
    case RenameConversation(c, title) => AfterRename(s, c, title, e.now)
    case DeleteConversation(c) => AfterDelete(s, c)
    case AppendMessage(_, _, _) => AfterAppend(s, AppendedMessage(e))
    case BranchFromMessage(m, _) => AfterBranch(s, BranchHead(s, e), Copies(Prefix(s, m), e.mint(0), e.now, e.mint))
    case UpsertFeedback(m, _, _) => s.(fb := s.fb[FeedbackKey(e.sub, m) := NewFeedback(e)])
  }

  function Next(s: State, e: Call): State {
    if Succeeds(s, e) then Effect(s, e) else s
  }

  lemma Accepted(s: State, e: Call)
    requires Succeeds(s, e)
    ensures Next(s, e) == Effect(s, e) && Does(s, e, Next(s, e), Granted(s, e))
  {
  }

  /** The state after a whole trace of calls, one atomic method after the other. */
  function Run(tr: seq<Call>): State {
    if tr == [] then Empty else Next(Run(tr[..|tr| - 1]), tr[|tr| - 1])
  }

  lemma RunStep(tr: seq<Call>, i: nat)
    requires i < |tr|
    ensures Run(tr[..i + 1]) == Next(Run(tr[..i]), tr[i])
  {
    assert tr[..i + 1][..i] == tr[..i];
  }
}
