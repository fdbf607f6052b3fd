/** The vocabulary shared by both stores: rows, calls, replies and errors. */
module StoreTypes {

  type Id = string
  type Subject = string
  type Time = int

  /** The identifiers one call may draw: `mint(k)` is the result of its k-th `newID()`. */
  type Mint = nat -> Id

  datatype Option<+T> = None | Some(value: T)

  /** `InvalidRating` stands for the unmapped error each store raises on a bad rating;
      the two stores word it differently and no caller tells the wordings apart. */
  datatype StoreError = NotFound | Forbidden | Conflict | InvalidRating | Internal

  datatype Conversation = Conversation(id: Id, sub: Subject, title: string, createdAt: Time, updatedAt: Time)

  datatype Message = Message(id: Id, conversationId: Id, role: string, content: string, createdAt: Time)

  datatype Feedback = Feedback(messageId: Id, sub: Subject, rating: string, comment: string, createdAt: Time)

  datatype FeedbackKey = FeedbackKey(sub: Subject, messageId: Id)

  /** What a message says, without its identity and time. */
  datatype Turn = Turn(role: string, content: string)

  predicate ValidRole(role: string) {
    role == "user" || role == "assistant" || role == "system" || role == "tool"
  }

  predicate ValidRating(rating: string) {
    rating == "good" || rating == "bad"
  }

  /** The ten methods of the Store interface, without their subject. */
  datatype Op =
    | CreateConversation(title: string)
    | ListConversations
    | GetConversation(id: Id)
    | RenameConversation(id: Id, title: string)
    | DeleteConversation(id: Id)
    | AppendMessage(conversationId: Id, role: string, content: string)
    | ListMessages(conversationId: Id)
    | BranchFromMessage(messageId: Id, title: string)
    | UpsertFeedback(messageId: Id, rating: string, comment: string)
    | GetFeedback(messageId: Id)

  /** One call, with the clock reading and the identifiers it would draw. */
  datatype Call = Call(sub: Subject, op: Op, now: Time, mint: Mint)

  datatype Reply =
    | Failed(error: StoreError)
    | OneConversation(conversation: Conversation)
    | Conversations(conversations: seq<Conversation>)
    | OneMessage(message: Message)
    | Messages(messages: seq<Message>)
    | OneFeedback(feedback: Feedback)
    | Deleted

  function DefaultTitle(title: string, sourceTitle: string): string {
    if title == "" then sourceTitle + " (branch)" else title
  }

  function TurnOf(m: Message): Turn {
    Turn(m.role, m.content)
  }

  function Turns(ms: seq<Message>): (ts: seq<Turn>)
    ensures |ts| == |ms|
    ensures forall i :: 0 <= i < |ms| ==> ts[i] == TurnOf(ms[i])
  {
    seq(|ms|, i requires 0 <= i < |ms| => TurnOf(ms[i]))
  }

  ghost predicate Injective(mint: Mint) {
    forall k: nat, l: nat :: k != l ==> mint(k) != mint(l)
  }

  /** A trace draws globally fresh identifiers: no identifier is drawn twice, within a call or across calls. */
  ghost predicate FreshTrace(tr: seq<Call>) {
    && (forall i :: 0 <= i < |tr| ==> Injective(tr[i].mint))
    && (forall i, j, k: nat, l: nat :: 0 <= i < j < |tr| ==> tr[i].mint(k) != tr[j].mint(l))
  }

  ghost predicate MonotoneClock(tr: seq<Call>) {
    forall i, j :: 0 <= i < j < |tr| ==> tr[i].now <= tr[j].now
  }

  ghost predicate StrictClock(tr: seq<Call>) {
    forall i, j :: 0 <= i < j < |tr| ==> tr[i].now < tr[j].now
  }

  /** `xs` lists every element of `s` exactly once. */
  ghost predicate Enumerates<T>(xs: seq<T>, s: set<T>) {
    && (forall i, j :: 0 <= i < j < |xs| ==> xs[i] != xs[j])
    && (forall i :: 0 <= i < |xs| ==> xs[i] in s)
    && (forall x :: x in s ==> x in xs)
  }

  function Owned(convs: map<Id, Conversation>, sub: Subject): set<Conversation> {
    set c | c in convs && convs[c].sub == sub :: convs[c]
  }

  ghost predicate NewestFirst(cs: seq<Conversation>) {
    forall i, j :: 0 <= i < j < |cs| ==> cs[i].updatedAt >= cs[j].updatedAt
  }

  /** Any listing of the subject's conversations by descending update time; ties may fall either way. */
  ghost predicate IsListing(convs: map<Id, Conversation>, sub: Subject, cs: seq<Conversation>) {
    Enumerates(cs, Owned(convs, sub)) && NewestFirst(cs)
  }

  ghost predicate OldestFirst(ms: seq<Message>) {
    forall i, j :: 0 <= i < j < |ms| ==> ms[i].createdAt <= ms[j].createdAt
  }

  /** The conversation a call brings into being. */
  function NewConversation(e: Call, title: string): Conversation {
    Conversation(e.mint(0), e.sub, title, e.now, e.now)
  }

  function NewFeedback(e: Call): Feedback
    requires e.op.UpsertFeedback?
  {
    Feedback(e.op.messageId, e.sub, e.op.rating, e.op.comment, e.now)
  }

  lemma FreshPrefix(tr: seq<Call>, n: nat)
    requires FreshTrace(tr) && n <= |tr|
    ensures FreshTrace(tr[..n])
  {
  }
}
