/** The Postgres store run by one client at a time: each method as its sequence of statements. */
module RelationalSpec {
  import opened StoreTypes
  import opened Permutations
  import opened Tables

  datatype Outcome = Outcome(db: Database, reply: Reply)

  function CreateStep(d: Database, e: Call): Outcome
    requires e.op.CreateConversation?
  {
    if e.sub == "" then Outcome(d, Failed(Forbidden))
    else match InsertConversation(d, NewConversation(e, e.op.title))
      case Done(d', _) => Outcome(d', OneConversation(NewConversation(e, e.op.title)))
      case Raised(err) => Outcome(d, Failed(MapPgErr(err)))
  }

  function GetStep(d: Database, sub: Subject, id: Id): Reply {
    if OwnsRow(d, sub, id) then OneConversation(d.conversations[id]) else Failed(NotFound)
  }

  /** The update, then the read that GetConversation makes. */
  function RenameStep(d: Database, e: Call): Outcome
    requires e.op.RenameConversation?
  {
    match UpdateTitle(d, e.op.id, e.sub, e.op.title, e.now)
    case Done(d', n) => Outcome(d', if n == 0 then Failed(NotFound) else GetStep(d', e.sub, e.op.id))
    case Raised(err) => Outcome(d, Failed(MapPgErr(err)))
  }

  function DeleteStep(d: Database, e: Call): Outcome
    requires e.op.DeleteConversation?
  {
    match DeleteRow(d, e.op.id, e.sub)
    case Done(d', n) => Outcome(d', if n == 0 then Failed(NotFound) else Deleted)
    case Raised(err) => Outcome(d, Failed(MapPgErr(err)))
  }

  function AppendRow(e: Call): MessageRow
    requires e.op.AppendMessage?
  {
    MessageRow(e.op.conversationId, e.sub, e.op.role, e.op.content, e.now)
  }

  /** Ownership check, insert and timestamp update in one transaction; any error rolls back. */
  function AppendStep(d: Database, e: Call): Outcome
    requires e.op.AppendMessage?
  {
    if !OwnsRow(d, e.sub, e.op.conversationId) then Outcome(d, Failed(NotFound))
    else match InsertMessage(d, e.mint(0), AppendRow(e))
      case Raised(err) => Outcome(d, Failed(MapPgErr(err)))
      case Done(d1, _) =>
        match TouchConversation(d1, e.op.conversationId, e.now)
        case Raised(err) => Outcome(d, Failed(MapPgErr(err)))
        case Done(d2, _) => Outcome(d2, OneMessage(ToMessage(e.mint(0), AppendRow(e))))
  }

  function UpsertStep(d: Database, e: Call): Outcome
    requires e.op.UpsertFeedback?
  {
    if !ValidRating(e.op.rating) then Outcome(d, Failed(InvalidRating))
    else if !OwnsMessage(d, e.sub, e.op.messageId) then Outcome(d, Failed(NotFound))
    else match UpsertRow(d, NewFeedback(e))
      case Done(d', _) => Outcome(d', OneFeedback(NewFeedback(e)))
      case Raised(err) => Outcome(d, Failed(MapPgErr(err)))
  }

  function FeedbackStep(d: Database, sub: Subject, m: Id): Reply {
    if FeedbackKey(sub, m) in d.feedback then OneFeedback(d.feedback[FeedbackKey(sub, m)]) else Failed(NotFound)
  }

  /** The row a branch inserts for the k-th copied message. */
  function CopyRow(head: Conversation, m: Message): MessageRow {
    MessageRow(head.id, head.sub, m.role, m.content, head.createdAt)
  }

  /** The insert loop of BranchFromMessage over the first n copied rows. */
  function InsertCopies(d: Database, head: Conversation, ms: seq<Message>, mint: Mint, n: nat): Exec
    requires n <= |ms|
  {
    if n == 0 then Done(d, 0)
    else match InsertCopies(d, head, ms, mint, n - 1)
      case Raised(err) => Raised(err)
      case Done(d', k) =>
        match InsertMessage(d', mint(n), CopyRow(head, ms[n - 1]))
        case Raised(err) => Raised(err)
        case Done(d'', _) => Done(d'', k + 1)
  }

  function BranchRow(d: Database, e: Call): Conversation
    requires e.op.BranchFromMessage? && JoinsSource(d, e.sub, e.op.messageId)
  {
    NewConversation(e, DefaultTitle(e.op.title, d.conversations[d.messages[e.op.messageId].conversationId].title))
  }

  /** A branch whose copy query, run after the new conversation row was inserted, returned `ms`. */
  function BranchStep(d: Database, e: Call, ms: seq<Message>): Outcome
    requires e.op.BranchFromMessage? && JoinsSource(d, e.sub, e.op.messageId)
  {
    var head := BranchRow(d, e);
    match InsertConversation(d, head)
    case Raised(err) => Outcome(d, Failed(MapPgErr(err)))
    case Done(d1, _) =>
      match InsertCopies(d1, head, ms, e.mint, |ms|)
      case Raised(err) => Outcome(d, Failed(MapPgErr(err)))
      case Done(d2, _) => Outcome(d2, OneConversation(head))
  }

  /** The copy query does not see the new conversation row: it reads messages only. */
  lemma SelectedIgnoresRows(d: Database, d1: Database, c: Id, sub: Subject, until: Option<Time>)
    requires d1.messages == d.messages
    ensures Selected(d1, c, sub, until) == Selected(d, c, sub, until)
  {
  }

  ghost predicate CopyQuery(d: Database, e: Call, ms: seq<Message>)
    requires e.op.BranchFromMessage? && JoinsSource(d, e.sub, e.op.messageId)
  {
    var row := d.messages[e.op.messageId];
    IsResult(d, row.conversationId, e.sub, Some(row.createdAt), ms)
  }

  ghost predicate BranchSteps(d: Database, e: Call, d': Database, r: Reply)
    requires e.op.BranchFromMessage? && JoinsSource(d, e.sub, e.op.messageId)
  {
    match InsertConversation(d, BranchRow(d, e))
    case Raised(err) => Outcome(d', r) == Outcome(d, Failed(MapPgErr(err)))
    case Done(_, _) => exists ms :: CopyQuery(d, e, ms) && Outcome(d', r) == BranchStep(d, e, ms)
  }

  /** One method call on its own: the tables after it and the reply, as far as SQL determines them. */
  ghost predicate Steps(d: Database, e: Call, d': Database, r: Reply) {
    match e.op
    case CreateConversation(_) => Outcome(d', r) == CreateStep(d, e)
    case ListConversations =>
      d' == d && if e.sub == "" then r == Failed(Forbidden) else r.Conversations? && IsListing(d.conversations, e.sub, r.conversations)
    case GetConversation(id) => d' == d && r == GetStep(d, e.sub, id)
    case RenameConversation(_, _) => Outcome(d', r) == RenameStep(d, e)
    case DeleteConversation(_) => Outcome(d', r) == DeleteStep(d, e)
    case AppendMessage(_, _, _) => Outcome(d', r) == AppendStep(d, e)
    case ListMessages(c) =>
      d' == d && if !OwnsRow(d, e.sub, c) then r == Failed(NotFound) else r.Messages? && IsResult(d, c, e.sub, None, r.messages)
    case BranchFromMessage(m, _) =>
      if e.sub == "" then d' == d && r == Failed(Forbidden)
      else if !JoinsSource(d, e.sub, m) then d' == d && r == Failed(NotFound)
      else BranchSteps(d, e, d', r)
    case UpsertFeedback(_, _, _) => Outcome(d', r) == UpsertStep(d, e)
    case GetFeedback(m) => d' == d && r == FeedbackStep(d, e.sub, m)
  }

  /** A run by one client at a time: states and replies along a trace. */
  ghost predicate Runs(tr: seq<Call>, ds: seq<Database>, rs: seq<Reply>) {
    && |ds| == |tr| + 1 && |rs| == |tr|
    && ds[0] == NoRows
    && forall i :: 0 <= i < |tr| ==> Steps(ds[i], tr[i], ds[i + 1], rs[i])
  }

  ghost predicate Unused(d: Database, mint: Mint) {
    Injective(mint) && forall k: nat :: mint(k) !in d.conversations && mint(k) !in d.messages
  }

  /** The tables after the first n rows of a copy: each row under its own new identifier, nothing else touched. */
  ghost predicate CopiesAdded(d: Database, d': Database, head: Conversation, ms: seq<Message>, mint: Mint, n: nat)
    requires n <= |ms|
  {
    && d'.conversations == d.conversations && d'.feedback == d.feedback
    && (forall m :: m in d.messages ==> m in d'.messages && d'.messages[m] == d.messages[m])
    && (forall k: nat :: 1 <= k <= n ==> mint(k) in d'.messages && d'.messages[mint(k)] == CopyRow(head, ms[k - 1]))
    && (forall m :: m in d'.messages && m !in d.messages ==> exists k: nat :: 1 <= k <= n && m == mint(k))
  }

  /** With unused identifiers the insert loop never raises. */
  lemma {:induction false} CopiesInsert(d: Database, head: Conversation, ms: seq<Message>, mint: Mint, n: nat)
    requires n <= |ms| && head.id in d.conversations && Injective(mint)
    requires forall k: nat :: mint(k) !in d.messages
    ensures InsertCopies(d, head, ms, mint, n).Done?
    ensures CopiesAdded(d, InsertCopies(d, head, ms, mint, n).db, head, ms, mint, n)
  {
    hide CopiesAdded;
    if n > 0 {
      CopiesInsert(d, head, ms, mint, n - 1);
      OneMoreCopy(d, InsertCopies(d, head, ms, mint, n - 1).db, head, ms, mint, n);
    } else {
      NoCopies(d, head, ms, mint);
    }
  }

  lemma NoCopies(d: Database, head: Conversation, ms: seq<Message>, mint: Mint)
    ensures CopiesAdded(d, d, head, ms, mint, 0)
  {
  }

  lemma OneMoreCopy(d: Database, d1: Database, head: Conversation, ms: seq<Message>, mint: Mint, n: nat)
    requires 0 < n <= |ms| && Injective(mint) && mint(n) !in d.messages && CopiesAdded(d, d1, head, ms, mint, n - 1)
    ensures mint(n) !in d1.messages && d1.conversations == d.conversations
    ensures CopiesAdded(d, d1.(messages := d1.messages[mint(n) := CopyRow(head, ms[n - 1])]), head, ms, mint, n)
  {
    hide CopyRow;
    var d2 := d1.(messages := d1.messages[mint(n) := CopyRow(head, ms[n - 1])]);
    assert mint(n) !in d1.messages;
    forall m | m in d2.messages && m !in d.messages ensures exists k: nat :: 1 <= k <= n && m == mint(k) {
      if m != mint(n) {
        assert m in d1.messages;
      }
    }
  }

  lemma BranchSucceeds(d: Database, e: Call, ms: seq<Message>)
    requires e.op.BranchFromMessage? && JoinsSource(d, e.sub, e.op.messageId) && Unused(d, e.mint)
    ensures var head := BranchRow(d, e); var o := BranchStep(d, e, ms);
      && o.reply == OneConversation(head)
      && CopiesAdded(d.(conversations := d.conversations[head.id := head]), o.db, head, ms, e.mint, |ms|)
  {
    var head := BranchRow(d, e);
    CopiesInsert(d.(conversations := d.conversations[head.id := head]), head, ms, e.mint, |ms|);
  }

  lemma AddedConsistent(d: Database, d': Database, head: Conversation, ms: seq<Message>, mint: Mint)
    requires Consistent(d) && head.id !in d.conversations && head.sub != ""
    requires CopiesAdded(d.(conversations := d.conversations[head.id := head]), d', head, ms, mint, |ms|)
    ensures Consistent(d')
  {
    forall m | m in d'.messages ensures OwnsRow(d', d'.messages[m].sub, d'.messages[m].conversationId) {
      if m in d.messages {
        assert OwnsRow(d, d.messages[m].sub, d.messages[m].conversationId);
      } else {
        var k: nat :| 1 <= k <= |ms| && m == mint(k);
        assert d'.messages[m] == CopyRow(head, ms[k - 1]);
      }
    }
  }

  lemma CascadeConsistent(d: Database, id: Id)
    requires Consistent(d)
    ensures Consistent(Cascade(d, id))
  {
  }

  lemma RowConsistent(d: Database, c: Conversation)
    requires Consistent(d) && c.sub != ""
    requires c.id in d.conversations ==> d.conversations[c.id].sub == c.sub
    ensures Consistent(d.(conversations := d.conversations[c.id := c]))
  {
  }

  lemma MessageConsistent(d: Database, m: Id, row: MessageRow)
    requires Consistent(d) && m !in d.messages && OwnsRow(d, row.sub, row.conversationId)
    ensures Consistent(d.(messages := d.messages[m := row]))
  {
  }

  lemma FeedbackConsistent(d: Database, f: Feedback)
    requires Consistent(d) && OwnsMessage(d, f.sub, f.messageId)
    ensures Consistent(d.(feedback := d.feedback[FeedbackKey(f.sub, f.messageId) := f]))
  {
  }

  lemma IsOwned(d: Database, sub: Subject, id: Id)
    requires Consistent(d) && OwnsRow(d, sub, id)
    ensures sub != "" && d.conversations[id].id == id
  {
  }

  /** The tables after a call other than a branch. */
  function TablesAfter(d: Database, e: Call): Database
    requires !e.op.BranchFromMessage?
  {
    match e.op
    case CreateConversation(_) => CreateStep(d, e).db
    case RenameConversation(_, _) => RenameStep(d, e).db
    case DeleteConversation(_) => DeleteStep(d, e).db
    case AppendMessage(_, _, _) => AppendStep(d, e).db
    case UpsertFeedback(_, _, _) => UpsertStep(d, e).db
    case _ => d
  }

  lemma StepsTo(d: Database, e: Call, d': Database, r: Reply)
    requires Steps(d, e, d', r) && !e.op.BranchFromMessage?
    ensures d' == TablesAfter(d, e)
  {
    hide CreateStep, RenameStep, DeleteStep, AppendStep, UpsertStep, IsListing, IsResult;
  }

  /** A branch that does not resolve its source changes nothing. */
  lemma BranchRefused(d: Database, e: Call, d': Database, r: Reply)
    requires Steps(d, e, d', r) && e.op.BranchFromMessage? && (e.sub == "" || !JoinsSource(d, e.sub, e.op.messageId))
    ensures d' == d && r == Failed(if e.sub == "" then Forbidden else NotFound)
  {
    hide BranchSteps, IsListing, IsResult, CreateStep, RenameStep, DeleteStep, AppendStep, UpsertStep;
  }

  lemma BranchQueries(d: Database, e: Call, d': Database, r: Reply) returns (ms: seq<Message>)
    requires e.mint(0) !in d.conversations && e.op.BranchFromMessage? && e.sub != "" && JoinsSource(d, e.sub, e.op.messageId)
    requires Steps(d, e, d', r)
    ensures CopyQuery(d, e, ms) && Outcome(d', r) == BranchStep(d, e, ms)
  {
    hide BranchStep, CopyQuery, IsListing, IsResult, CreateStep, RenameStep, DeleteStep, AppendStep, UpsertStep, DefaultTitle;
    ms :| CopyQuery(d, e, ms) && Outcome(d', r) == BranchStep(d, e, ms);
  }

  /** A branch that resolves its source answers its new row, having added a copy of every row its query returned. */
  lemma BranchDone(d: Database, e: Call, d': Database, r: Reply) returns (ms: seq<Message>)
    requires Unused(d, e.mint) && e.op.BranchFromMessage? && e.sub != "" && JoinsSource(d, e.sub, e.op.messageId)
    requires Steps(d, e, d', r)
    ensures CopyQuery(d, e, ms) && r == OneConversation(BranchRow(d, e)) && BranchRow(d, e).id == e.mint(0)
    ensures CopiesAdded(d.(conversations := d.conversations[e.mint(0) := BranchRow(d, e)]), d', BranchRow(d, e), ms, e.mint, |ms|)
  {
    hide Steps, BranchStep, CopyQuery, CopiesAdded, JoinsSource, DefaultTitle;
    ms := BranchQueries(d, e, d', r);
    BranchSucceeds(d, e, ms);
  }

  lemma AppendConsistent(d: Database, e: Call)
    requires Consistent(d) && Unused(d, e.mint) && e.op.AppendMessage?
    ensures Consistent(AppendStep(d, e).db)
  {
    hide Consistent;
    var id := e.op.conversationId;
    if OwnsRow(d, e.sub, id) {
      IsOwned(d, e.sub, id);
      MessageConsistent(d, e.mint(0), AppendRow(e));
      RowConsistent(InsertMessage(d, e.mint(0), AppendRow(e)).db, d.conversations[id].(updatedAt := e.now));
    }
  }

  lemma SimpleConsistent(d: Database, e: Call)
    requires Consistent(d) && Unused(d, e.mint) && !e.op.BranchFromMessage?
    ensures Consistent(TablesAfter(d, e))
  {
    hide Consistent, AppendStep, Cascade;
    match e.op
    case CreateConversation(_) =>
      if e.sub != "" {
        RowConsistent(d, NewConversation(e, e.op.title));
      }
    case RenameConversation(id, title) =>
      if OwnsRow(d, e.sub, id) {
        IsOwned(d, e.sub, id);
        RowConsistent(d, d.conversations[id].(title := title, updatedAt := e.now));
      }
    case DeleteConversation(id) => CascadeConsistent(d, id);
    case AppendMessage(_, _, _) => AppendConsistent(d, e);
    case UpsertFeedback(m, _, _) =>
      if OwnsMessage(d, e.sub, m) {
        FeedbackConsistent(d, NewFeedback(e));
      }
    case _ =>
  }

  /** Every method keeps the tables consistent: foreign keys hold and the denormalised owners agree. */
  lemma StepConsistent(d: Database, e: Call, d': Database, r: Reply)
    requires Consistent(d) && Unused(d, e.mint) && Steps(d, e, d', r)
    ensures Consistent(d')
  {
    hide Consistent, Steps, TablesAfter, CopiesAdded, CopyQuery;
    if !e.op.BranchFromMessage? {
      StepsTo(d, e, d', r);
      SimpleConsistent(d, e);
    } else if e.sub != "" && JoinsSource(d, e.sub, e.op.messageId) {
      var ms := BranchDone(d, e, d', r);
      AddedConsistent(d, d', BranchRow(d, e), ms, e.mint);
    } else {
      BranchRefused(d, e, d', r);
    }
  }

  ghost predicate Draws(e: Call, x: Id) {
    exists k: nat :: e.mint(k) == x
  }

  ghost predicate Drawn(tr: seq<Call>, d: Database) {
    forall x :: x in d.conversations || x in d.messages ==> exists i :: 0 <= i < |tr| && Draws(tr[i], x)
  }

  lemma BranchDraws(d: Database, e: Call, d': Database, r: Reply, x: Id)
    requires Unused(d, e.mint) && Steps(d, e, d', r) && e.op.BranchFromMessage?
    requires x in d'.conversations || x in d'.messages
    ensures x in d.conversations || x in d.messages || Draws(e, x)
  {
    hide Steps, CopyQuery, CopyRow;
    if e.sub != "" && JoinsSource(d, e.sub, e.op.messageId) {
      var ms := BranchDone(d, e, d', r);
      if x == e.mint(0) {
        assert Draws(e, x);
      }
    } else {
      BranchRefused(d, e, d', r);
    }
  }

  lemma StepDraws(d: Database, e: Call, d': Database, r: Reply, x: Id)
    requires Unused(d, e.mint) && Steps(d, e, d', r)
    requires x in d'.conversations || x in d'.messages
    ensures x in d.conversations || x in d.messages || Draws(e, x)
  {
    hide Steps, Unused, Cascade;
    if e.op.BranchFromMessage? {
      BranchDraws(d, e, d', r, x);
    } else {
      StepsTo(d, e, d', r);
      SimpleDraws(d, e, x);
      assert Draws(e, e.mint(0));
    }
  }

  lemma SimpleDraws(d: Database, e: Call, x: Id)
    requires !e.op.BranchFromMessage?
    ensures x in TablesAfter(d, e).conversations ==> x in d.conversations || x == e.mint(0)
    ensures x in TablesAfter(d, e).messages ==> x in d.messages || x == e.mint(0)
  {
    hide MessagesIn;
  }

  lemma DrawnUnused(tr: seq<Call>, i: nat, d: Database)
    requires FreshTrace(tr) && i < |tr| && Drawn(tr[..i], d)
    ensures Unused(d, tr[i].mint)
  {
  }

  /** In every run the tables are consistent at every point and each call draws identifiers new to them. */
  lemma {:induction false} RunsConsistent(tr: seq<Call>, ds: seq<Database>, rs: seq<Reply>, i: nat)
    requires FreshTrace(tr) && Runs(tr, ds, rs) && i <= |tr|
    ensures Consistent(ds[i]) && Drawn(tr[..i], ds[i])
    ensures i < |tr| ==> Unused(ds[i], tr[i].mint)
  {
    hide Consistent, Steps, Unused, FreshTrace;
    if i == 0 {
      EmptyConsistent();
    } else {
      RunsConsistent(tr, ds, rs, i - 1);
      StepConsistent(ds[i - 1], tr[i - 1], ds[i], rs[i - 1]);
      forall x | x in ds[i].conversations || x in ds[i].messages
        ensures exists j :: 0 <= j < i && Draws(tr[..i][j], x)
      {
        StepDraws(ds[i - 1], tr[i - 1], ds[i], rs[i - 1], x);
        if Draws(tr[i - 1], x) {
          assert tr[..i][i - 1] == tr[i - 1];
        } else {
          var j :| 0 <= j < i - 1 && Draws(tr[..i - 1][j], x);
          assert tr[..i][j] == tr[..i - 1][j];
        }
      }
    }
    if i < |tr| {
      DrawnUnused(tr, i, ds[i]);
    }
  }

  lemma EmptyConsistent()
    ensures Consistent(NoRows)
  {
  }

  /** In consistent tables the denormalised owner agrees: the check by message owner alone, the check by
      conversation owner alone and the check by both accept the same subject and message, and the owner filter
      of the message query drops no row of the conversation. */
  lemma OwnershipChecksAgree(d: Database, sub: Subject, m: Id)
    requires Consistent(d) && m in d.messages
    ensures OwnsMessage(d, sub, m) <==> OwnsRow(d, sub, d.messages[m].conversationId)
    ensures OwnsMessage(d, sub, m) <==> JoinsSource(d, sub, m)
    ensures forall c, x :: OwnsRow(d, sub, c) && x in d.messages && d.messages[x].conversationId == c ==>
      Matches(d.messages[x], c, sub, None)
  {
  }

  // --- Every call has an outcome

  lemma ListingExists(convs: map<Id, Conversation>, sub: Subject)
    ensures exists cs :: IsListing(convs, sub, cs)
  {
    var key := (c: Conversation) => -c.updatedAt;
    OrderExists(Owned(convs, sub), key);
    var cs: seq<Conversation> :| Enumerates(cs, Owned(convs, sub)) && OrderedBy(cs, key);
    assert NewestFirst(cs) by {
      forall i, j | 0 <= i < j < |cs| ensures cs[i].updatedAt >= cs[j].updatedAt {
        assert key(cs[i]) <= key(cs[j]);
      }
    }
    assert IsListing(convs, sub, cs);
  }

  lemma ResultExists(d: Database, c: Id, sub: Subject, until: Option<Time>)
    ensures exists ms :: IsResult(d, c, sub, until, ms)
  {
    var key := (m: Message) => m.createdAt;
    OrderExists(Selected(d, c, sub, until), key);
    var ms: seq<Message> :| Enumerates(ms, Selected(d, c, sub, until)) && OrderedBy(ms, key);
    assert OldestFirst(ms) by {
      forall i, j | 0 <= i < j < |ms| ensures ms[i].createdAt <= ms[j].createdAt {
        assert key(ms[i]) <= key(ms[j]);
      }
    }
    assert IsResult(d, c, sub, until, ms);
  }

  /** No call gets stuck: on any tables it has an outcome. */
  lemma StepExists(d: Database, e: Call)
    ensures exists d', r :: Steps(d, e, d', r)
  {
    hide IsListing, IsResult;
    match e.op
    case CreateConversation(_) => assert Steps(d, e, CreateStep(d, e).db, CreateStep(d, e).reply);
    case ListConversations =>
      ListingExists(d.conversations, e.sub);
      var cs :| IsListing(d.conversations, e.sub, cs);
      assert Steps(d, e, d, if e.sub == "" then Failed(Forbidden) else Conversations(cs));
    case GetConversation(id) => assert Steps(d, e, d, GetStep(d, e.sub, id));
    case RenameConversation(_, _) => assert Steps(d, e, RenameStep(d, e).db, RenameStep(d, e).reply);
    case DeleteConversation(_) => assert Steps(d, e, DeleteStep(d, e).db, DeleteStep(d, e).reply);
    case AppendMessage(_, _, _) => assert Steps(d, e, AppendStep(d, e).db, AppendStep(d, e).reply);
    case ListMessages(c) =>
      ResultExists(d, c, e.sub, None);
      var ms :| IsResult(d, c, e.sub, None, ms);
      assert Steps(d, e, d, if OwnsRow(d, e.sub, c) then Messages(ms) else Failed(NotFound));
    case BranchFromMessage(_, _) => BranchExists(d, e);
    case UpsertFeedback(_, _, _) => assert Steps(d, e, UpsertStep(d, e).db, UpsertStep(d, e).reply);
    case GetFeedback(m) => assert Steps(d, e, d, FeedbackStep(d, e.sub, m));
  }

  lemma BranchExists(d: Database, e: Call)
    requires e.op.BranchFromMessage?
    ensures exists d', r :: Steps(d, e, d', r)
  {
    hide IsResult, BranchStep, IsListing, CreateStep, RenameStep, DeleteStep, AppendStep, UpsertStep, DefaultTitle;
    var m := e.op.messageId;
    if e.sub == "" || !JoinsSource(d, e.sub, m) {
      assert Steps(d, e, d, Failed(if e.sub == "" then Forbidden else NotFound));
    } else {
      var row := d.messages[m];
      ResultExists(d, row.conversationId, e.sub, Some(row.createdAt));
      var ms :| IsResult(d, row.conversationId, e.sub, Some(row.createdAt), ms);
      assert CopyQuery(d, e, ms);
      var o := match InsertConversation(d, BranchRow(d, e))
        case Raised(err) => Outcome(d, Failed(MapPgErr(err)))
        case Done(_, _) => BranchStep(d, e, ms);
      assert Steps(d, e, o.db, o.reply);
    }
  }

  /** Every trace of calls has a run. */
  lemma {:induction false} RunExists(tr: seq<Call>) returns (ds: seq<Database>, rs: seq<Reply>)
    ensures Runs(tr, ds, rs)
  {
    hide Steps;
    if tr == [] {
      ds, rs := [NoRows], [];
    } else {
      var n := |tr| - 1;
      var ds0, rs0 := RunExists(tr[..n]);
      StepExists(ds0[n], tr[n]);
      var d, r :| Steps(ds0[n], tr[n], d, r);
      ds, rs := ds0 + [d], rs0 + [r];
      RunsSnoc(tr[..n], ds0, rs0, tr[n], d, r);
      assert tr == tr[..n] + [tr[n]];
    }
  }

  lemma RunsSnoc(tr: seq<Call>, ds: seq<Database>, rs: seq<Reply>, e: Call, d: Database, r: Reply)
    requires Runs(tr, ds, rs) && Steps(ds[|ds| - 1], e, d, r)
    ensures Runs(tr + [e], ds + [d], rs + [r])
  {
    hide Steps;
    forall i | 0 <= i < |tr| + 1
      ensures Steps((ds + [d])[i], (tr + [e])[i], (ds + [d])[i + 1], (rs + [r])[i])
    {
      if i < |tr| {
        assert Steps(ds[i], tr[i], ds[i + 1], rs[i]);
      }
    }
  }

  lemma RunsPrefix(tr: seq<Call>, ds: seq<Database>, rs: seq<Reply>, n: nat)
    requires Runs(tr, ds, rs) && n <= |tr|
    ensures Runs(tr[..n], ds[..n + 1], rs[..n])
  {
    hide Steps;
    forall i | 0 <= i < n ensures Steps(ds[..n + 1][i], tr[..n][i], ds[..n + 1][i + 1], rs[..n][i]) {
      assert Steps(ds[i], tr[i], ds[i + 1], rs[i]);
    }
  }
}
