/** What single steps of concurrent calls may do, given all the tables committed before. */
module Explanations {
  import opened StoreTypes
  import opened Tables
  import opened RelationalSpec
  import opened Interleaving
  import opened InterleavingSafety
  import opened Linearization

  /** The call has taken effect for good. */
  predicate Marked(pc: Pc) {
    pc.RenameUpdated? || (Over(pc) && pc.reply != Failed(Internal))
  }

  /** The one step at which a call takes effect for good: its last statement or commit, but for a rename its update. */
  predicate Marks(m: Machine, i: nat, m': Machine) {
    i < |m.pcs| && i < |m'.pcs| && !Marked(m.pcs[i]) && Marked(m'.pcs[i])
  }

  /** What the store answered, whether or not the answer arrives. */
  function AnswerOf(pc: Pc): Option<Reply> {
    if Over(pc) then Some(pc.reply) else None
  }

  // --- What a call may do, given all committed tables so far

  /** The join of a branch, on these tables, found this source, cut and new row. */
  ghost predicate Resolves(d: Database, e: Call, src: Id, title: string, cut: Time) {
    && e.op.BranchFromMessage? && JoinsSource(d, e.sub, e.op.messageId)
    && src == d.messages[e.op.messageId].conversationId
    && title == d.conversations[src].title
    && cut == d.messages[e.op.messageId].createdAt
  }

  ghost predicate Heads(d: Database, e: Call, head: Conversation, src: Id, cut: Time) {
    exists title :: Resolves(d, e, src, title, cut) && head == NewConversation(e, DefaultTitle(e.op.title, title))
  }

  /** A branch that resolved its source in one snapshot, copied from another, and commits on `d`. */
  ghost predicate Grafts(resolved: Database, read: Database, d: Database, e: Call, ms: seq<Message>, d': Database, r: Reply) {
    && Injective(e.mint) && e.op.BranchFromMessage? && JoinsSource(resolved, e.sub, e.op.messageId)
    && var row, head := resolved.messages[e.op.messageId], BranchRow(resolved, e);
      && IsResult(read, row.conversationId, e.sub, Some(row.createdAt), ms)
      && r == OneConversation(head) && d' == BranchCommit(d, head, GraftRows(e, head, ms))
  }

  ghost predicate Holds(ms: seq<Message>, x: Id) {
    exists k :: 0 <= k < |ms| && ms[k].id == x
  }

  /** The copy has the named message just when the source was still there to be read; then it has everything the
      cut selected when the source was resolved, and otherwise it has nothing. */
  ghost predicate WholeOrEmpty(resolved: Database, read: Database, e: Call, ms: seq<Message>)
    requires e.op.BranchFromMessage? && JoinsSource(resolved, e.sub, e.op.messageId)
  {
    var row := resolved.messages[e.op.messageId];
    && (Holds(ms, e.op.messageId) <==> row.conversationId in read.conversations)
    && (row.conversationId in read.conversations ==>
          forall x :: x in Selected(resolved, row.conversationId, e.sub, Some(row.createdAt)) ==> x in ms)
    && (row.conversationId !in read.conversations ==> ms == [])
  }

  ghost predicate GraftsFrom(ds: seq<Database>, since: nat, d: Database, e: Call, d': Database, r: Reply) {
    exists u, ms :: since <= u < |ds| && Grafts(ds[since], ds[u], d, e, ms, d', r) && WholeOrEmpty(ds[since], ds[u], e, ms)
  }

  /** After the committed tables `ds`, of which `ds[since]` were current at the call's first statement, the call takes
      the last of them to `d'` and answers: as the sequential call does; but a message listing may be empty when
      the conversation it checked in its first statement has been deleted since; a branch that takes effect
      resolved its source in its first statement and copied from tables committed since; a rename answers later. */
  ghost predicate Explains(ds: seq<Database>, since: nat, e: Call, d': Database, answer: Option<Reply>)
    requires since < |ds|
  {
    var d := ds[|ds| - 1];
    match e.op
    case RenameConversation(_, _) =>
      d' == RenameStep(d, e).db && (answer.Some? ==> answer.value == RenameStep(d, e).reply)
    case ListMessages(c) =>
      answer.Some? &&
      (Steps(d, e, d', answer.value)
       || (d' == d && answer.value == Messages([]) && c !in d.conversations && OwnsRow(ds[since], e.sub, c)))
    case BranchFromMessage(_, _) =>
      answer.Some? && ((answer.value.Failed? && Steps(d, e, d', answer.value)) || GraftsFrom(ds, since, d, e, d', answer.value))
    case _ =>
      answer.Some? && Steps(d, e, d', answer.value)
  }

  /** What a client between its statements, or after its last, owes to the tables `ds[since]`, current at its first
      statement, and to tables committed since, up to `ds[until - 1]`, current at its last one. For a rename
      `ds[since]` are the tables its update left, and its reply is what it read from `ds[until - 1]`. */
  ghost predicate Past(ds: seq<Database>, since: nat, until: nat, e: Call, pc: Pc)
    requires since < until <= |ds|
  {
    match pc
    case ListChecked => e.op.ListMessages? && OwnsRow(ds[since], e.sub, e.op.conversationId)
    case BranchResolved(src, title, cut) => Resolves(ds[since], e, src, title, cut)
    case BranchInserted(head, src, cut) => Heads(ds[since], e, head, src, cut)
    case BranchCopying(head, graft, _) =>
      Heads(ds[since], e, head, graft.src, graft.cut) && ReadBetween(ds, since, until, graft.snapshot)
    case Finished(r) => e.op.RenameConversation? && r != Failed(Internal) ==> r == GetStep(ds[until - 1], e.sub, e.op.id)
    case Unheard(r) => e.op.RenameConversation? ==> r == GetStep(ds[until - 1], e.sub, e.op.id)
    case _ => true
  }

  ghost predicate ReadBetween(ds: seq<Database>, since: nat, until: nat, snapshot: Database)
    requires until <= |ds|
  {
    exists u :: since <= u < until && ds[u] == snapshot
  }

  // --- What stays

  /** A message row stays as it is until its conversation is deleted. */
  ghost predicate Kept(d: Database, d': Database) {
    forall x :: x in d.messages && d.messages[x].conversationId in d'.conversations ==>
      x in d'.messages && d'.messages[x] == d.messages[x]
  }

  ghost predicate Known(d: Database, m: Machine) {
    Consistent(d) && d.conversations.Keys <= m.owners.Keys
  }

  /** The committed tables so far, up to the machine's, keep each other's messages. */
  ghost predicate Lasting(ds: seq<Database>, m: Machine) {
    && |ds| > 0 && ds[|ds| - 1] == m.db
    && (forall v :: 0 <= v < |ds| ==> Known(ds[v], m))
    && (forall v, u :: 0 <= v <= u < |ds| ==> Kept(ds[v], ds[u]))
  }

  lemma KeptOn(d: Database, m: Machine, d': Database)
    requires Known(d, m) && Kept(d, m.db) && Remembers(m) && Evolves(m, d')
    ensures Kept(d, d')
  {
  }

  lemma OwnersStay(reqs: seq<Call>, m: Machine, i: nat, m': Machine)
    requires Inv(reqs, m') && Step(reqs, m, i, m')
    ensures m.owners.Keys <= m'.owners.Keys && Known(m'.db, m')
  {
    hide Step, Consistent, Unspent, BranchesWhole, BranchesGone, OneLock, PcOk;
    StepShape(reqs, m, i, m');
  }

  lemma LastingSteps(reqs: seq<Call>, m: Machine, i: nat, m': Machine, ds: seq<Database>)
    requires FreshTrace(reqs) && Inv(reqs, m) && Inv(reqs, m') && Step(reqs, m, i, m') && Lasting(ds, m)
    ensures Lasting(ds + [m'.db], m')
    ensures m'.db == m.db ==> Lasting(ds, m')
  {
    hide Inv, FreshTrace, Step, Consistent, Kept, Evolves, Remembers;
    StepKeepsInv(reqs, m, i, m');
    OwnersStay(reqs, m, i, m');
    InvTables(reqs, m);
    var more := ds + [m'.db];
    forall v | 0 <= v < |ds| ensures Kept(ds[v], m'.db) && Known(ds[v], m') {
      KeptOn(ds[v], m, m'.db);
    }
    KeptSelf(m'.db);
  }

  lemma KeptSelf(d: Database)
    ensures Kept(d, d)
  {
  }

  /** A branch copies its source whole, or, if that was deleted after it was resolved, nothing. */
  lemma CopyIsWholeOrEmpty(resolved: Database, read: Database, e: Call, ms: seq<Message>)
    requires e.op.BranchFromMessage? && JoinsSource(resolved, e.sub, e.op.messageId)
    requires Kept(resolved, read) && Consistent(read)
    requires var row := resolved.messages[e.op.messageId]; IsResult(read, row.conversationId, e.sub, Some(row.createdAt), ms)
    ensures WholeOrEmpty(resolved, read, e, ms)
  {
    hide Consistent, Kept, IsResult;
    var x, row := e.op.messageId, resolved.messages[e.op.messageId];
    if row.conversationId in read.conversations {
      KeptIsSelected(resolved, read, row.conversationId, e.sub, Some(row.createdAt), ms);
      assert ToMessage(x, row) in ms;
    } else {
      NothingSelected(read, row.conversationId, e.sub, Some(row.createdAt), ms);
    }
  }

  lemma KeptIsSelected(resolved: Database, read: Database, c: Id, sub: Subject, until: Option<Time>, ms: seq<Message>)
    requires Kept(resolved, read) && c in read.conversations && IsResult(read, c, sub, until, ms)
    ensures forall x :: x in Selected(resolved, c, sub, until) ==> x in ms
    ensures forall x :: x in resolved.messages && Matches(resolved.messages[x], c, sub, until) ==>
      ToMessage(x, resolved.messages[x]) in ms
  {
    forall x | x in resolved.messages && Matches(resolved.messages[x], c, sub, until)
      ensures ToMessage(x, resolved.messages[x]) in Selected(read, c, sub, until)
    {
      assert read.messages[x] == resolved.messages[x];
    }
  }

  // --- One step

  lemma PastGrows(ds: seq<Database>, since: nat, until: nat, d: Database, e: Call, pc: Pc)
    requires since < until <= |ds| && Past(ds, since, until, e, pc)
    ensures Past(ds + [d], since, until, e, pc)
  {
    hide IsResult, GetStep, Resolves, Heads;
    var more := ds + [d];
    assert forall v :: 0 <= v < |ds| ==> more[v] == ds[v];
  }

  /** The tables so far after a step. */
  function Extended(ds: seq<Database>, m: Machine, i: nat, m': Machine): seq<Database> {
    if Marks(m, i, m') then ds + [m'.db] else ds
  }

  lemma FirstPcPast(ds: seq<Database>, e: Call)
    requires |ds| > 0 && !e.op.RenameConversation?
    ensures Past(ds, |ds| - 1, |ds|, e, FirstPc(ds[|ds| - 1], e))
  {
    hide GetStep, FeedbackStep, ReadBetween;
  }

  lemma FinishedOwesNothing(ds: seq<Database>, since: nat, until: nat, e: Call, r: Reply)
    requires since < until <= |ds| && (!e.op.RenameConversation? || r == Failed(Internal))
    ensures Past(ds, since, until, e, Finished(r))
  {
  }

  lemma RenamePast(ds: seq<Database>, e: Call, pc: Pc)
    requires |ds| > 0 && e.op.RenameConversation?
    requires pc.RenameUpdated? || (pc == Finished(Failed(NotFound)) && !OwnsRow(ds[|ds| - 1], e.sub, e.op.id))
    ensures Past(ds, |ds| - 1, |ds|, e, pc)
  {
  }

  lemma PastBegins(reqs: seq<Call>, m: Machine, i: nat, m': Machine, ds: seq<Database>)
    requires i < |reqs| == |m.pcs| && m.pcs[i].Ready? && Begins(reqs, m, i, m') && |ds| > 0 && ds[|ds| - 1] == m.db
    ensures i < |m'.pcs| && var ds' := Extended(ds, m, i, m'); Past(ds', |ds'| - 1, |ds'|, reqs[i], m'.pcs[i])
  {
    hide NoRowLocked, NoKeyShared, IsListing, CreateStep, FirstPc, Past, UpdateTitle, DeleteRow;
    var e, ds' := reqs[i], Extended(ds, m, i, m');
    match e.op
    case RenameConversation(_, _) => RenamePast(ds', e, m'.pcs[i]);
    case CreateConversation(_) => FinishedOwesNothing(ds', |ds'| - 1, |ds'|, e, m'.pcs[i].reply);
    case ListConversations => FinishedOwesNothing(ds', |ds'| - 1, |ds'|, e, m'.pcs[i].reply);
    case DeleteConversation(_) => FinishedOwesNothing(ds', |ds'| - 1, |ds'|, e, m'.pcs[i].reply);
    case _ =>
      assert ds'[|ds'| - 1] == m.db;
      FirstPcPast(ds', e);
  }

  lemma BranchPast(m: Machine, i: nat, e: Call, m': Machine, ds: seq<Database>, since: nat, until: nat)
    requires i < |m.pcs| && since < until <= |ds| && ds[|ds| - 1] == m.db && !e.op.RenameConversation?
    requires Past(ds, since, until, e, m.pcs[i])
    requires match m.pcs[i]
      case BranchResolved(_, _, _) => BranchInserts(m, i, e, m')
      case BranchInserted(_, _, _) => BranchReads(m, i, e, m')
      case BranchCopying(_, _, _) => BranchCopies(m, i, e, m') || BranchCommits(m, i, e, m')
      case _ => false
    ensures i < |m'.pcs| && Past(ds, since, |ds|, e, m'.pcs[i])
  {
    hide IsResult, BranchCommit, GraftRows, Injective, Resolves, GetStep;
    match m.pcs[i]
    case BranchResolved(src, title, cut) =>
      assert Heads(ds[since], e, NewConversation(e, DefaultTitle(e.op.title, title)), src, cut);
    case BranchInserted(_, _, _) => assert ReadBetween(ds, since, |ds|, ds[|ds| - 1]);
    case BranchCopying(_, graft, _) => assert ReadBetween(ds, since, |ds|, graft.snapshot);
  }

  lemma PastContinues(reqs: seq<Call>, m: Machine, i: nat, m': Machine, ds: seq<Database>, since: nat, until: nat)
    requires i < |reqs| == |m.pcs| && Continues(reqs, m, i, m') && since < until <= |ds| && ds[|ds| - 1] == m.db
    requires Past(ds, since, until, reqs[i], m.pcs[i]) && PcOk(reqs[i], m, m.pcs[i])
    ensures i < |m'.pcs| && Past(ds, since, |ds|, reqs[i], m'.pcs[i])
  {
    hide NoRowLocked, IsResult, BranchInserts, BranchReads, BranchCopies, BranchCommits, AppendCommit, GetStep, ReadBetween, Resolves, Heads, FirstPc;
    match m.pcs[i]
    case BranchResolved(_, _, _) => BranchPast(m, i, reqs[i], m', ds, since, until);
    case BranchInserted(_, _, _) => BranchPast(m, i, reqs[i], m', ds, since, until);
    case BranchCopying(_, _, _) => BranchPast(m, i, reqs[i], m', ds, since, until);
    case AppendChecked =>
    case AppendInserted =>
    case AppendTouched =>
    case ListChecked =>
    case UpsertChecked =>
    case RenameUpdated =>
  }

  /** After a step the client owes what it read to the tables so far: those of its first statement, if this is it, and
      none after those of this one. */
  lemma PastSteps(reqs: seq<Call>, m: Machine, i: nat, m': Machine, ds: seq<Database>, since: nat, until: nat)
    requires Inv(reqs, m) && Step(reqs, m, i, m') && since < until <= |ds| && ds[|ds| - 1] == m.db
    requires Past(ds, since, until, reqs[i], m.pcs[i])
    ensures i < |m'.pcs| && var ds' := Extended(ds, m, i, m');
      Past(ds', if m.pcs[i].Ready? then |ds'| - 1 else since, |ds'|, reqs[i], m'.pcs[i])
  {
    hide Begins, Continues, PcOk, Inv, Past;
    SizesAgree(reqs, m);
    var ds' := Extended(ds, m, i, m');
    if Breaks(m, i, m') {
      FinishedOwesNothing(ds', if m.pcs[i].Ready? then |ds'| - 1 else since, |ds'|, reqs[i], Failed(Internal));
    } else if m.pcs[i].Ready? {
      PastBegins(reqs, m, i, m', ds);
    } else {
      PastContinues(reqs, m, i, m', ds, since, until);
      if reqs[i].op.RenameConversation? {
        RenameIsUpdated(reqs[i], m, m.pcs[i]);
      }
      PastExtends(m, i, reqs[i], m', ds, since);
    }
  }

  lemma RenameIsUpdated(e: Call, m: Machine, pc: Pc)
    requires PcOk(e, m, pc) && !pc.Ready? && !Over(pc) && e.op.RenameConversation?
    ensures pc.RenameUpdated?
  {
    hide IsResult;
  }

  /** A later statement that marks ends its call, and only a rename owes its end to what it read. */
  lemma PastExtends(m: Machine, i: nat, e: Call, m': Machine, ds: seq<Database>, since: nat)
    requires since < |ds| && i < |m'.pcs| && Past(ds, since, |ds|, e, m'.pcs[i])
    requires Marks(m, i, m') ==> !e.op.RenameConversation?
    ensures var ds' := Extended(ds, m, i, m'); Past(ds', since, |ds'|, e, m'.pcs[i])
  {
    hide IsResult, GetStep, Resolves, Heads;
    var ds' := Extended(ds, m, i, m');
    assert forall v :: 0 <= v < |ds| ==> ds'[v] == ds[v];
  }

  lemma StepUnmarked(reqs: seq<Call>, m: Machine, i: nat, m': Machine)
    requires Step(reqs, m, i, m') && !Marks(m, i, m')
    ensures m'.db == m.db
  {
    hide Begins, Continues;
    StepShape(reqs, m, i, m');
  }

  /** Nothing but the marked step of a call changes the committed tables: no other statement, and no loss of the
      connection, before the reply or while it is under way. */
  lemma UnmarkedIsSilent(reqs: seq<Call>, m: Machine, i: nat, m': Machine)
    requires Happens(reqs, m, i, m') && !Marks(m, i, m')
    ensures m'.db == m.db
  {
    hide Step, Marks;
    if Step(reqs, m, i, m') {
      StepUnmarked(reqs, m, i, m');
    }
  }

  lemma BranchRefusal(reqs: seq<Call>, m: Machine, i: nat, m': Machine)
    requires Step(reqs, m, i, m') && Ends(m', i) && reqs[i].op.BranchFromMessage? && m.pcs[i].Ready?
    ensures m'.pcs[i].reply.Failed? && Steps(m.db, reqs[i], m'.db, m'.pcs[i].reply)
  {
    hide Steps, Continues, JoinsSource;
    ReadLinearizes(m.db, reqs[i]);
  }

  lemma ResolvedInserts(reqs: seq<Call>, m: Machine, i: nat, m': Machine)
    requires i < |reqs| && Inv(reqs, m) && m.pcs[i].BranchResolved? && BranchInserts(m, i, reqs[i], m')
    ensures i < |m'.pcs| && m'.pcs[i].BranchInserted?
  {
    hide Consistent, BranchesWhole, BranchesGone, OneLock, PcOk;
    assert reqs[i].mint(0) !in m.owners;
  }

  /** A branch ends before its commit only if it never resolved its source. */
  lemma BranchEnds(reqs: seq<Call>, m: Machine, i: nat, m': Machine)
    requires Inv(reqs, m) && Step(reqs, m, i, m') && Ends(m', i) && reqs[i].op.BranchFromMessage? && !m.pcs[i].Ready?
    ensures m.pcs[i].BranchCopying? && BranchCommits(m, i, reqs[i], m')
    ensures var graft := m.pcs[i].graft; IsResult(graft.snapshot, graft.src, reqs[i].sub, Some(graft.cut), graft.copied)
  {
    hide Inv, Begins, AppendInserts, AppendTouches, AppendCommits, ListReads, UpsertWrites, RenameReads, BranchInserts, BranchCopies, BranchCommits, IsResult;
    PcFits(reqs, m, i);
    match m.pcs[i]
    case BranchResolved(_, _, _) => ResolvedInserts(reqs, m, i, m');
    case BranchCopying(_, _, _) => CopyingEnds(reqs, m, i, m');
    case BranchInserted(_, _, _) =>
  }

  lemma CommitGrafts(reqs: seq<Call>, m: Machine, i: nat, m': Machine, ds: seq<Database>, since: nat, until: nat)
    requires Inv(reqs, m) && Step(reqs, m, i, m') && Ends(m', i) && reqs[i].op.BranchFromMessage? && !m.pcs[i].Ready?
    requires since < until <= |ds| && Past(ds, since, until, reqs[i], m.pcs[i]) && Lasting(ds, m)
    ensures GraftsFrom(ds, since, m.db, reqs[i], m'.db, m'.pcs[i].reply)
  {
    hide Inv, Begins, Continues, IsResult, JoinsSource, BranchCommit, BranchCommits, GraftRows, WholeOrEmpty, Kept;
    BranchEnds(reqs, m, i, m');
    BranchCommitted(m, i, reqs[i], m');
    var e, head, graft := reqs[i], m.pcs[i].head, m.pcs[i].graft;
    var u :| since <= u < until && ds[u] == graft.snapshot;
    assert Grafts(ds[since], ds[u], m.db, e, graft.copied, m'.db, m'.pcs[i].reply);
    assert Known(ds[u], m) && Kept(ds[since], ds[u]);
    CopyIsWholeOrEmpty(ds[since], ds[u], e, graft.copied);
  }

  /** The marked step explains the call. */
  lemma MarkExplains(reqs: seq<Call>, m: Machine, i: nat, m': Machine, ds: seq<Database>, since: nat, until: nat)
    requires Inv(reqs, m) && Step(reqs, m, i, m') && Marks(m, i, m')
    requires since < until <= |ds| && Past(ds, since, until, reqs[i], m.pcs[i]) && Lasting(ds, m)
    ensures Explains(ds, since, reqs[i], m'.db, AnswerOf(m'.pcs[i]))
  {
    hide Inv, Begins, Continues, Steps, GraftsFrom, RenameStep, Known, Kept;
    StepShape(reqs, m, i, m');
    match reqs[i].op
    case RenameConversation(_, _) => RenameMark(reqs, m, i, m');
    case ListMessages(c) =>
      ListingIsOneSnapshot(reqs, m, i, m');
      assert m.pcs[i].ListChecked? ==> OwnsRow(ds[since], reqs[i].sub, c);
    case BranchFromMessage(_, _) =>
      if m.pcs[i].Ready? {
        BranchRefusal(reqs, m, i, m');
      } else {
        CommitGrafts(reqs, m, i, m', ds, since, until);
      }
    case _ => EndLinearizes(reqs, m, i, m');
  }

  lemma RenameMark(reqs: seq<Call>, m: Machine, i: nat, m': Machine)
    requires Inv(reqs, m) && Step(reqs, m, i, m') && Marks(m, i, m') && reqs[i].op.RenameConversation?
    ensures m'.db == RenameStep(m.db, reqs[i]).db
    ensures Over(m'.pcs[i]) ==> m'.pcs[i].reply == RenameStep(m.db, reqs[i]).reply
  {
    hide Inv, Begins, Continues, RenameStep;
    PcFits(reqs, m, i);
    RenameUpdates(reqs, m, i, m');
  }

  // --- Undisturbed branches

  lemma SameCommit(d: Database, e: Call, head: Conversation, ms: seq<Message>, o: Database)
    requires Injective(e.mint) && (forall k: nat :: e.mint(k) !in d.messages)
    requires CopiesAdded(d.(conversations := d.conversations[head.id := head]), o, head, ms, e.mint, |ms|)
    ensures o == BranchCommit(d, head, GraftRows(e, head, ms))
  {
    hide CopyRow, GraftRows;
    GraftRowsHold(e, head, ms);
    var rows := GraftRows(e, head, ms);
    var all := d.messages + rows;
    forall x | x in o.messages ensures x in all && o.messages[x] == all[x] {
      if x in d.messages {
        assert x !in rows;
      } else {
        var k: nat :| 1 <= k <= |ms| && x == e.mint(k);
        assert x in rows;
      }
    }
    forall x | x in all ensures x in o.messages {
      if x in rows {
        var k: nat :| 1 <= k <= |ms| && x == e.mint(k);
        assert e.mint(k) in o.messages;
      }
    }
    assert o.messages == all;
  }

  lemma SameBranch(d: Database, e: Call, ms: seq<Message>, d': Database, r: Reply)
    requires Unused(d, e.mint) && e.op.BranchFromMessage? && JoinsSource(d, e.sub, e.op.messageId)
    ensures Outcome(d', r) == BranchStep(d, e, ms) && CopyQuery(d, e, ms) <==> Grafts(d, d, d, e, ms, d', r)
  {
    hide CopiesAdded, GraftRows, BranchCommit, BranchStep, IsResult, DefaultTitle;
    BranchSucceeds(d, e, ms);
    SameCommit(d, e, BranchRow(d, e), ms, BranchStep(d, e, ms).db);
  }

  /** A sequential branch with unused identifiers is a resolve, a copy query and the insert loop. */
  lemma BranchUnfolds(d: Database, e: Call, d': Database, r: Reply)
    requires Unused(d, e.mint) && e.op.BranchFromMessage? && e.sub != "" && JoinsSource(d, e.sub, e.op.messageId)
    ensures Steps(d, e, d', r) <==> exists ms :: CopyQuery(d, e, ms) && Outcome(d', r) == BranchStep(d, e, ms)
  {
    hide BranchStep, CopyQuery, IsListing, IsResult, CreateStep, RenameStep, DeleteStep, AppendStep, UpsertStep;
  }

  /** A branch that resolves, reads and commits on the same tables is exactly the sequential branch. */
  lemma UndisturbedBranch(d: Database, e: Call, d': Database, r: Reply)
    requires Unused(d, e.mint) && e.op.BranchFromMessage? && e.sub != "" && JoinsSource(d, e.sub, e.op.messageId)
    ensures Steps(d, e, d', r) <==> exists ms :: Grafts(d, d, d, e, ms, d', r)
  {
    hide Steps, Unused, BranchStep, CopyQuery, Grafts, JoinsSource;
    BranchUnfolds(d, e, d', r);
    forall ms ensures Outcome(d', r) == BranchStep(d, e, ms) && CopyQuery(d, e, ms) <==> Grafts(d, d, d, e, ms, d', r) {
      SameBranch(d, e, ms, d', r);
    }
  }
}
