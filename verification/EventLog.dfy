/** The in-memory store as a reader of its log: what every call is answered, read off the calls before it without any
    store state. An independent definition of the Store contract, which the store is proved to meet. */
module EventLog {
  import opened StoreTypes

  /** The prefix up to and including the message. */
  function UpToMessage(ms: seq<Message>, m: Id): seq<Message> {
    if ms == [] then []
    else if ms[0].id == m then [ms[0]]
    else [ms[0]] + UpToMessage(ms[1..], m)
  }

  function Copied(ms: seq<Message>, e: Call): (cs: seq<Message>)
    ensures |cs| == |ms|
    ensures forall k :: 0 <= k < |ms| ==> cs[k] == Message(e.mint(k + 1), e.mint(0), ms[k].role, ms[k].content, e.now)
  {
    seq(|ms|, k requires 0 <= k < |ms| => Message(e.mint(k + 1), e.mint(0), ms[k].role, ms[k].content, e.now))
  }

  /** The caller may act on the conversation. */
  predicate May(tr: seq<Call>, sub: Subject, c: Id)
    decreases |tr|, 2
  {
    Owner(tr, c) == Some(sub)
  }

  predicate MaySee(tr: seq<Call>, sub: Subject, m: Id)
    decreases |tr|, 3
  {
    Home(tr, m).Some? && May(tr, sub, Home(tr, m).value)
  }

  /** The call takes effect after the log. */
  predicate Took(tr: seq<Call>, e: Call)
    decreases |tr|, 4
  {
    match e.op
    case CreateConversation(_) => e.sub != ""
    case RenameConversation(c, _) => May(tr, e.sub, c)
    case DeleteConversation(c) => May(tr, e.sub, c)
    case AppendMessage(c, _, _) => May(tr, e.sub, c)
    case BranchFromMessage(m, _) => e.sub != "" && MaySee(tr, e.sub, m)
    case UpsertFeedback(m, rating, _) => (rating == "good" || rating == "bad") && MaySee(tr, e.sub, m)
    case _ => false
  }

  /** What a branch copies. */
  function Inherited(tr: seq<Call>, e: Call): seq<Message>
    requires e.op.BranchFromMessage?
    decreases |tr|, 4
  {
    match Home(tr, e.op.messageId)
    case None => []
    case Some(c) => UpToMessage(Said(tr, c), e.op.messageId)
  }

  /** The owner of a live conversation: who created it, by a create or a branch, if nobody has deleted it since. */
  function Owner(tr: seq<Call>, c: Id): Option<Subject>
    decreases |tr|, 0
  {
    if tr == [] then None
    else
      var pre, e := tr[..|tr| - 1], tr[|tr| - 1];
      if !Took(pre, e) then Owner(pre, c)
      else match e.op
        case CreateConversation(_) => if e.mint(0) == c then Some(e.sub) else Owner(pre, c)
        case BranchFromMessage(_, _) => if e.mint(0) == c then Some(e.sub) else Owner(pre, c)
        case DeleteConversation(d) => if d == c then None else Owner(pre, c)
        case _ => Owner(pre, c)
  }

  /** The live conversation that holds a message: where it was appended or copied to. */
  function Home(tr: seq<Call>, m: Id): Option<Id>
    decreases |tr|, 1
  {
    if tr == [] then None
    else
      var pre, e := tr[..|tr| - 1], tr[|tr| - 1];
      if !Took(pre, e) then Home(pre, m)
      else match e.op
        case AppendMessage(c, _, _) => if e.mint(0) == m then Some(c) else Home(pre, m)
        case BranchFromMessage(_, _) =>
          if exists k :: 1 <= k <= |Inherited(pre, e)| && e.mint(k) == m then Some(e.mint(0)) else Home(pre, m)
        case DeleteConversation(c) => if Home(pre, m) == Some(c) then None else Home(pre, m)
        case _ => Home(pre, m)
  }

  /** The messages of a conversation, in order. */
  function Said(tr: seq<Call>, c: Id): seq<Message>
    decreases |tr|, 1
  {
    if tr == [] then []
    else
      var pre, e := tr[..|tr| - 1], tr[|tr| - 1];
      if !Took(pre, e) then Said(pre, c)
      else match e.op
        case CreateConversation(_) => if e.mint(0) == c then [] else Said(pre, c)
        case BranchFromMessage(_, _) => if e.mint(0) == c then Copied(Inherited(pre, e), e) else Said(pre, c)
        case AppendMessage(d, role, content) =>
          if d == c then Said(pre, c) + [Message(e.mint(0), c, role, content, e.now)] else Said(pre, c)
        case _ => Said(pre, c)
  }

  /** The row of a conversation. */
  function Row(tr: seq<Call>, c: Id): Conversation
    decreases |tr|, 1
  {
    if tr == [] then Conversation("", "", "", 0, 0)
    else
      var pre, e := tr[..|tr| - 1], tr[|tr| - 1];
      if !Took(pre, e) then Row(pre, c)
      else match e.op
        case CreateConversation(title) => if e.mint(0) == c then Conversation(c, e.sub, title, e.now, e.now) else Row(pre, c)
        case BranchFromMessage(_, _) =>
          if e.mint(0) == c then Conversation(c, e.sub, BranchTitle(pre, e), e.now, e.now) else Row(pre, c)
        case RenameConversation(d, title) => if d == c then Row(pre, c).(title := title, updatedAt := e.now) else Row(pre, c)
        case AppendMessage(d, _, _) => if d == c then Row(pre, c).(updatedAt := e.now) else Row(pre, c)
        case _ => Row(pre, c)
  }

  /** The title of a branch: its own, or its source's with a suffix. */
  function BranchTitle(tr: seq<Call>, e: Call): string
    requires e.op.BranchFromMessage?
    decreases |tr|, 4
  {
    if e.op.title != "" then e.op.title
    else match Home(tr, e.op.messageId)
      case None => ""
      case Some(c) => Row(tr, c).title + " (branch)"
  }

  /** The last rating of a message by a subject. */
  function Rating(tr: seq<Call>, k: FeedbackKey): Option<Feedback>
    decreases |tr|, 1
  {
    if tr == [] then None
    else
      var pre, e := tr[..|tr| - 1], tr[|tr| - 1];
      if Took(pre, e) && e.op.UpsertFeedback? && e.sub == k.sub && e.op.messageId == k.messageId
      then Some(Feedback(k.messageId, k.sub, e.op.rating, e.op.comment, e.now))
      else Rating(pre, k)
  }

  /** The caller's live conversations, each once, the last updated first. */
  ghost predicate Lists(tr: seq<Call>, sub: Subject, cs: seq<Conversation>) {
    && (forall i :: 0 <= i < |cs| ==> May(tr, sub, cs[i].id) && cs[i] == Row(tr, cs[i].id))
    && (forall i, j :: 0 <= i < j < |cs| ==> cs[i].id != cs[j].id && cs[i].updatedAt >= cs[j].updatedAt)
    && (forall c :: May(tr, sub, c) ==> exists i :: 0 <= i < |cs| && cs[i].id == c)
  }

  /** What a call may be answered after the log. */
  ghost predicate Answers(tr: seq<Call>, e: Call, r: Reply) {
    match e.op
    case CreateConversation(title) =>
      r == if e.sub == "" then Failed(Forbidden) else OneConversation(Conversation(e.mint(0), e.sub, title, e.now, e.now))
    case ListConversations =>
      if e.sub == "" then r == Failed(Forbidden) else r.Conversations? && Lists(tr, e.sub, r.conversations)
    case GetConversation(c) =>
      r == if May(tr, e.sub, c) then OneConversation(Row(tr, c)) else Failed(NotFound)
    case RenameConversation(c, title) =>
      r == if May(tr, e.sub, c) then OneConversation(Row(tr, c).(title := title, updatedAt := e.now)) else Failed(NotFound)
    case DeleteConversation(c) =>
      r == if May(tr, e.sub, c) then Deleted else Failed(NotFound)
    case AppendMessage(c, role, content) =>
      r == if May(tr, e.sub, c) then OneMessage(Message(e.mint(0), c, role, content, e.now)) else Failed(NotFound)
    case ListMessages(c) =>
      r == if May(tr, e.sub, c) then Messages(Said(tr, c)) else Failed(NotFound)
    case BranchFromMessage(m, _) =>
      r == if e.sub == "" then Failed(Forbidden)
           else if MaySee(tr, e.sub, m) then OneConversation(Conversation(e.mint(0), e.sub, BranchTitle(tr, e), e.now, e.now))
           else Failed(NotFound)
    case UpsertFeedback(m, rating, comment) =>
      r == if rating != "good" && rating != "bad" then Failed(InvalidRating)
           else if MaySee(tr, e.sub, m) then OneFeedback(Feedback(m, e.sub, rating, comment, e.now))
           else Failed(NotFound)
    case GetFeedback(m) =>
      r == match Rating(tr, FeedbackKey(e.sub, m)) { case Some(f) => OneFeedback(f) case None => Failed(NotFound) }
  }
}
