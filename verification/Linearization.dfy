/** What single steps of concurrent calls of the Postgres store amount to. */
module Linearization {
  import opened StoreTypes
  import opened Permutations
  import opened Tables
  import opened RelationalSpec
  import opened Interleaving
  import opened InterleavingSafety

  // --- Races

  /** A delete that commits between the ownership check and the insert of an append makes the append end in
      NotFound, by way of the foreign key, and leave no row. */
  lemma AppendLosesToDelete(reqs: seq<Call>, m: Machine, i: nat, m': Machine)
    requires Inv(reqs, m) && Step(reqs, m, i, m') && !Breaks(m, i, m')
    requires m.pcs[i].AppendChecked? && reqs[i].op.AppendMessage?
    requires reqs[i].op.conversationId !in m.db.conversations
    ensures m' == Move(m, i, Finished(Failed(NotFound)))
  {
    hide Consistent, BranchesWhole, BranchesGone, OneLock, PcOk;
    assert reqs[i].mint(0) !in m.authors;
  }

  /** The same race of a delete against the check and the insert of a feedback upsert. */
  lemma UpsertLosesToDelete(reqs: seq<Call>, m: Machine, i: nat, m': Machine)
    requires Step(reqs, m, i, m') && !Breaks(m, i, m')
    requires m.pcs[i].UpsertChecked? && reqs[i].op.UpsertFeedback? && reqs[i].op.messageId !in m.db.messages
    ensures m' == Move(m, i, Finished(Failed(NotFound)))
  {
  }

  // --- Linearization points

  /** Calls that take effect in one step, at which effect and reply are those of the sequential store. */
  predicate Atomic(op: Op) {
    !op.RenameConversation? && !op.ListMessages? && !op.BranchFromMessage?
  }

  predicate Ends(m': Machine, i: nat) {
    i < |m'.pcs| && Over(m'.pcs[i]) && m'.pcs[i].reply != Failed(Internal)
  }

  /** A call that its first statement refuses or answers, as the sequential call is. */
  lemma FirstPcLinearizes(d: Database, e: Call)
    requires FirstPc(d, e).Finished?
    requires !e.op.CreateConversation? && !e.op.ListConversations? && !e.op.RenameConversation? && !e.op.DeleteConversation?
    ensures Steps(d, e, d, FirstPc(d, e).reply)
  {
    hide IsListing, IsResult, BranchSteps, CreateStep, RenameStep, DeleteStep;
  }

  lemma ListingLinearizes(m: Machine, i: nat, e: Call, m': Machine)
    requires i < |m.pcs| && BeginsListing(m, i, e, m') && e.op.ListConversations?
    ensures i < |m'.pcs| && m'.pcs[i].Finished? && Steps(m.db, e, m'.db, m'.pcs[i].reply)
  {
    hide IsListing, BranchSteps, CreateStep, RenameStep, DeleteStep, AppendStep, UpsertStep;
  }

  lemma DeleteLinearizes(reqs: seq<Call>, m: Machine, i: nat, m': Machine)
    requires i < |reqs| == |m.pcs| && reqs[i].op.DeleteConversation? && BeginsDelete(reqs, m, i, m')
    ensures i < |m'.pcs| && m'.pcs[i].Finished? && Outcome(m'.db, m'.pcs[i].reply) == DeleteStep(m.db, reqs[i])
  {
    hide NoKeyShared, Cascade;
  }

  lemma BeginLinearizes(reqs: seq<Call>, m: Machine, i: nat, m': Machine)
    requires i < |reqs| == |m.pcs| && m.pcs[i].Ready? && Begins(reqs, m, i, m') && Ends(m', i) && Atomic(reqs[i].op)
    ensures Steps(m.db, reqs[i], m'.db, m'.pcs[i].reply)
  {
    hide FirstPc, BranchSteps, IsListing, IsResult, BeginsListing, BeginsDelete, CreateStep, DeleteStep, RenameStep, AppendStep, UpsertStep;
    match reqs[i].op
    case CreateConversation(_) =>
    case ListConversations => ListingLinearizes(m, i, reqs[i], m');
    case DeleteConversation(_) => DeleteLinearizes(reqs, m, i, m');
    case GetConversation(_) => ReadLinearizes(m.db, reqs[i]);
    case AppendMessage(_, _, _) => ReadLinearizes(m.db, reqs[i]);
    case UpsertFeedback(_, _, _) => ReadLinearizes(m.db, reqs[i]);
    case GetFeedback(_) => ReadLinearizes(m.db, reqs[i]);
  }

  lemma ReadLinearizes(d: Database, e: Call)
    requires !e.op.CreateConversation? && !e.op.ListConversations? && !e.op.RenameConversation? && !e.op.DeleteConversation?
    ensures FirstPc(d, e).Unheard? || FirstPc(d, e).Finished? ==> Steps(d, e, d, FirstPc(d, e).reply)
  {
    hide Steps, FirstPc;
    FirstPcMidway(d, e);
    if FirstPc(d, e).Finished? {
      FirstPcLinearizes(d, e);
    }
  }

  lemma AppendLinearizes(reqs: seq<Call>, m: Machine, i: nat, m': Machine)
    requires i < |reqs| && Inv(reqs, m) && Ends(m', i) && reqs[i].op.AppendMessage?
    requires (m.pcs[i].AppendChecked? && AppendInserts(m, i, reqs[i], m')) || (m.pcs[i].AppendTouched? && AppendCommits(m, i, reqs[i], m'))
    ensures Outcome(m'.db, m'.pcs[i].reply) == AppendStep(m.db, reqs[i])
  {
    hide Consistent, BranchesWhole, BranchesGone, OneLock;
    assert PcOk(reqs[i], m, m.pcs[i]);
    assert reqs[i].mint(0) !in m.authors;
  }

  lemma UpsertLinearizes(reqs: seq<Call>, m: Machine, i: nat, m': Machine)
    requires i < |reqs| && Inv(reqs, m) && Ends(m', i) && m.pcs[i].UpsertChecked? && UpsertWrites(m, i, reqs[i], m')
    ensures Outcome(m'.db, m'.pcs[i].reply) == UpsertStep(m.db, reqs[i])
  {
    hide Consistent, BranchesWhole, BranchesGone, OneLock, Unspent;
    assert PcOk(reqs[i], m, m.pcs[i]);
  }

  lemma PcFits(reqs: seq<Call>, m: Machine, i: nat)
    requires i < |reqs| && Inv(reqs, m)
    ensures i < |m.pcs| && PcOk(reqs[i], m, m.pcs[i])
  {
  }

  lemma ContinueLinearizes(reqs: seq<Call>, m: Machine, i: nat, m': Machine)
    requires i < |reqs| && Inv(reqs, m) && !m.pcs[i].Ready? && Ends(m', i) && Atomic(reqs[i].op)
    requires Continues(reqs, m, i, m')
    ensures Steps(m.db, reqs[i], m'.db, m'.pcs[i].reply)
  {
    hide Inv, AppendInserts, AppendCommits, UpsertWrites, BranchReads, BranchSteps, AppendStep, UpsertStep, IsResult, IsListing;
    PcFits(reqs, m, i);
    match m.pcs[i]
    case AppendChecked => AppendLinearizes(reqs, m, i, m');
    case AppendTouched => AppendLinearizes(reqs, m, i, m');
    case UpsertChecked => UpsertLinearizes(reqs, m, i, m');
    case AppendInserted =>
  }

  /** The step that ends an atomic call is its linearization point. */
  lemma EndLinearizes(reqs: seq<Call>, m: Machine, i: nat, m': Machine)
    requires Inv(reqs, m) && Step(reqs, m, i, m') && Ends(m', i) && Atomic(reqs[i].op)
    ensures Steps(m.db, reqs[i], m'.db, m'.pcs[i].reply)
  {
    hide Inv, Begins, Continues, Steps;
    if m.pcs[i].Ready? {
      BeginLinearizes(reqs, m, i, m');
    } else {
      ContinueLinearizes(reqs, m, i, m');
    }
  }

  // --- Calls that are not atomic

  lemma RenameBegins(reqs: seq<Call>, m: Machine, i: nat, m': Machine)
    requires i < |reqs| == |m.pcs| && reqs[i].op.RenameConversation? && BeginsRename(reqs, m, i, m')
    ensures |m'.pcs| == |m.pcs| && m'.db == RenameStep(m.db, reqs[i]).db
    ensures m'.pcs[i].RenameUpdated? <==> OwnsRow(m.db, reqs[i].sub, reqs[i].op.id)
    ensures !m'.pcs[i].RenameUpdated? ==> m'.pcs[i] == Finished(RenameStep(m.db, reqs[i]).reply)
  {
    hide NoRowLocked;
  }

  /** A rename takes effect in its update, as the sequential rename does, and answers from a later snapshot. */
  lemma RenameUpdates(reqs: seq<Call>, m: Machine, i: nat, m': Machine)
    requires Step(reqs, m, i, m') && !Breaks(m, i, m') && reqs[i].op.RenameConversation?
    ensures |m'.pcs| == |m.pcs|
    ensures m.pcs[i].Ready? ==> m'.db == RenameStep(m.db, reqs[i]).db
    ensures m.pcs[i].Ready? && Over(m'.pcs[i]) ==> m'.pcs[i].reply == RenameStep(m.db, reqs[i]).reply
    ensures m.pcs[i].RenameUpdated? ==>
      m'.db == m.db && m'.pcs[i] == Finished(GetStep(m.db, reqs[i].sub, reqs[i].op.id))
  {
    hide BeginsRename, RenameStep, AppendInserts, AppendTouches, AppendCommits, ListReads, UpsertWrites, BranchInserts, BranchReads, BranchCopies, BranchCommits, GetStep, Shape;
    StepShape(reqs, m, i, m');
    SameSize(m, i, reqs[i], m');
    if m.pcs[i].Ready? {
      RenameBegins(reqs, m, i, m');
    }
  }

  lemma SameSize(m: Machine, i: nat, e: Call, m': Machine)
    requires Shape(m, i, e, m')
    ensures |m'.pcs| == |m.pcs|
  {
  }

  /** A message query about a conversation that is gone returns nothing. */
  lemma NothingSelected(d: Database, c: Id, sub: Subject, until: Option<Time>, ms: seq<Message>)
    requires Consistent(d) && c !in d.conversations && IsResult(d, c, sub, until, ms)
    ensures ms == []
  {
    assert Selected(d, c, sub, until) == {};
    EnumerationsAgree(ms, [], {});
  }

  lemma ListingReads(reqs: seq<Call>, m: Machine, i: nat, m': Machine)
    requires i < |reqs| && Inv(reqs, m) && m.pcs[i].ListChecked? && ListReads(m, i, reqs[i], m') && reqs[i].op.ListMessages?
    ensures m'.db == m.db && |m'.pcs| == |m.pcs| && m'.pcs[i].Finished?
    ensures var c := reqs[i].op.conversationId; var r := m'.pcs[i].reply;
      if c in m.db.conversations then Steps(m.db, reqs[i], m.db, r) else r == Messages([])
  {
    hide Inv, IsResult, Steps;
    var c := reqs[i].op.conversationId;
    PcFits(reqs, m, i);
    var ms :| IsResult(m.db, c, reqs[i].sub, None, ms) && m' == Move(m, i, Finished(Messages(ms)));
    InvTables(reqs, m);
    if c !in m.db.conversations {
      NothingSelected(m.db, c, reqs[i].sub, None, ms);
    } else {
      StillOwned(reqs, m, i, c);
      ListingSteps(m.db, reqs[i], ms);
    }
  }

  lemma ListingSteps(d: Database, e: Call, ms: seq<Message>)
    requires e.op.ListMessages? && OwnsRow(d, e.sub, e.op.conversationId) && IsResult(d, e.op.conversationId, e.sub, None, ms)
    ensures Steps(d, e, d, Messages(ms))
  {
    hide IsResult, IsListing, BranchSteps, CreateStep, RenameStep, DeleteStep, AppendStep, UpsertStep;
  }

  lemma InvTables(reqs: seq<Call>, m: Machine)
    requires Inv(reqs, m)
    ensures Consistent(m.db) && Remembers(m)
  {
  }

  /** ListMessages answers NotFound where the sequential listing does, or one full committed snapshot, or the
      empty list when a delete fell between its two statements. */
  lemma ListingIsOneSnapshot(reqs: seq<Call>, m: Machine, i: nat, m': Machine)
    requires Inv(reqs, m) && Step(reqs, m, i, m') && Ends(m', i) && reqs[i].op.ListMessages?
    ensures m'.db == m.db
    ensures var c := reqs[i].op.conversationId; var r := m'.pcs[i].reply;
      || Steps(m.db, reqs[i], m.db, r)
      || (m.pcs[i].ListChecked? && c !in m.db.conversations && r == Messages([]))
  {
    hide Inv, FirstPc, ListReads, BranchReads, BranchInserts, BranchCopies, BranchCommits, AppendInserts, AppendTouches, AppendCommits, UpsertWrites, Steps, IsResult;
    PcFits(reqs, m, i);
    match m.pcs[i]
    case Ready =>
      ReadLinearizes(m.db, reqs[i]);
    case ListChecked => ListingReads(reqs, m, i, m');
  }

  // --- Branches

  /** Until it commits, a branch is invisible: no committed row is its conversation or one of its messages. */
  lemma BranchInvisible(reqs: seq<Call>, m: Machine, i: nat)
    requires i < |reqs| && Inv(reqs, m) && !Over(m.pcs[i])
    ensures reqs[i].mint(0) !in m.db.conversations
    ensures forall x :: x in m.db.messages ==> m.db.messages[x].conversationId != reqs[i].mint(0)
  {
    hide BranchesWhole, BranchesGone, OneLock, PcOk;
    assert reqs[i].mint(0) !in m.owners;
  }

  /** The rows filed under the branch after its commit, and what they hold. */
  ghost predicate HoldsExactly(d: Database, e: Call, head: Conversation, copied: seq<Message>) {
    && (forall x :: x in d.messages && d.messages[x].conversationId == head.id ==> exists k: nat :: 1 <= k <= |copied| && x == e.mint(k))
    && (forall k: nat :: 1 <= k <= |copied| ==> e.mint(k) in d.messages && d.messages[e.mint(k)] == CopyRow(head, copied[k - 1]))
  }

  lemma CommitHoldsExactly(d: Database, e: Call, head: Conversation, copied: seq<Message>)
    requires Injective(e.mint)
    requires forall x :: x in d.messages ==> d.messages[x].conversationId != head.id
    ensures HoldsExactly(BranchCommit(d, head, GraftRows(e, head, copied)), e, head, copied)
  {
    hide GraftRows, CopyRow;
    GraftRowsHold(e, head, copied);
  }

  lemma GraftRowsHold(e: Call, head: Conversation, copied: seq<Message>)
    requires Injective(e.mint)
    ensures var rows := GraftRows(e, head, copied);
      && (forall x :: x in rows ==> exists k: nat :: 1 <= k <= |copied| && x == e.mint(k))
      && (forall k: nat :: 1 <= k <= |copied| ==> e.mint(k) in rows && rows[e.mint(k)] == CopyRow(head, copied[k - 1]))
  {
    hide CopyRow;
  }

  lemma CommitAddsRow(d: Database, head: Conversation, rows: map<Id, MessageRow>)
    ensures BranchCommit(d, head, rows).conversations == d.conversations[head.id := head]
  {
  }

  /** The commit of a branch makes exactly the rows of its copy query visible, all at once, under fresh
      identifiers and one shared time. */
  lemma BranchCommitsItsCopy(reqs: seq<Call>, m: Machine, i: nat, m': Machine)
    requires Inv(reqs, m) && Step(reqs, m, i, m') && m.pcs[i].BranchCopying? && Ends(m', i)
    ensures var e := reqs[i]; var head := m.pcs[i].head; var graft := m.pcs[i].graft;
      && m'.pcs[i].reply == OneConversation(head) && head.id == e.mint(0)
      && m'.db.conversations == m.db.conversations[head.id := head]
      && HoldsExactly(m'.db, e, head, graft.copied)
      && IsResult(graft.snapshot, graft.src, e.sub, Some(graft.cut), graft.copied)
  {
    hide Inv, Begins, Continues, IsResult, HoldsExactly, GraftRows, BranchCommits, BranchCommit;
    PcFits(reqs, m, i);
    CopyingEnds(reqs, m, i, m');
    var e, head, copied := reqs[i], m.pcs[i].head, m.pcs[i].graft.copied;
    BranchCommitted(m, i, e, m');
    BranchInvisible(reqs, m, i);
    CommitHoldsExactly(m.db, e, head, copied);
    CommitAddsRow(m.db, head, GraftRows(e, head, copied));
  }

  lemma BranchCommitted(m: Machine, i: nat, e: Call, m': Machine)
    requires i < |m.pcs| && m.pcs[i].BranchCopying? && BranchCommits(m, i, e, m')
    ensures |m'.pcs| == |m.pcs| && Injective(e.mint) && m'.pcs[i] == Finished(OneConversation(m.pcs[i].head))
    ensures m'.db == BranchCommit(m.db, m.pcs[i].head, GraftRows(e, m.pcs[i].head, m.pcs[i].graft.copied))
  {
    hide BranchCommit, GraftRows;
  }

  /** A branch under way that ends with a reply of its own has committed. */
  lemma CopyingEnds(reqs: seq<Call>, m: Machine, i: nat, m': Machine)
    requires Inv(reqs, m) && Step(reqs, m, i, m') && m.pcs[i].BranchCopying? && Ends(m', i)
    ensures BranchCommits(m, i, reqs[i], m')
  {
    hide Inv, BranchCommits, Begins, AppendInserts, AppendTouches, AppendCommits, ListReads, UpsertWrites, RenameReads, BranchInserts, BranchReads;
    NewId(reqs, m, i, m.pcs[i].done + 1);
  }

  lemma NewId(reqs: seq<Call>, m: Machine, i: nat, k: nat)
    requires i < |reqs| && Inv(reqs, m) && !Over(m.pcs[i])
    ensures reqs[i].mint(k) !in m.db.messages
  {
    assert reqs[i].mint(k) !in m.authors;
  }

  /** At every moment either every row of a committed branch is there, with its conversation, or none is. */
  lemma BranchAllOrNothing(reqs: seq<Call>, m: Machine, b: Id)
    requires Inv(reqs, m) && b in m.branches
    ensures b in m.db.conversations ==>
      forall x :: x in m.branches[b] ==> x in m.db.messages && m.db.messages[x] == m.branches[b][x]
    ensures b !in m.db.conversations ==> forall x :: x in m.branches[b] ==> x !in m.db.messages
  {
    hide Unspent, OneLock, PcOk, Remembers;
  }

  // --- Progress

  ghost predicate Advances(reqs: seq<Call>, m: Machine, i: nat) {
    && i < |reqs| == |m.pcs| && !Over(m.pcs[i])
    && if m.pcs[i].Ready? then exists m' :: Begins(reqs, m, i, m') else exists m' :: Continues(reqs, m, i, m')
  }

  /** A client that no lock blocks can take its next statement. */
  lemma UnblockedBegins(reqs: seq<Call>, m: Machine, i: nat)
    requires i < |reqs| && Inv(reqs, m) && m.pcs[i].Ready?
    requires forall c :: NoKeyShared(reqs, m, c) && NoRowLocked(reqs, m, c)
    ensures Advances(reqs, m, i)
  {
    hide Inv, NoKeyShared, NoRowLocked, IsListing, Cascade, FirstPc, Settle;
    SizesAgree(reqs, m);
    var e, d := reqs[i], m.db;
    match e.op
    case CreateConversation(_) =>
      var o := CreateStep(d, e);
      assert Begins(reqs, m, i, Settle(m, i, o.db, Finished(o.reply)));
    case ListConversations =>
      ListingExists(d.conversations, e.sub);
      var cs :| IsListing(d.conversations, e.sub, cs);
      assert Begins(reqs, m, i, Move(m, i, if e.sub == "" then Finished(Failed(Forbidden)) else Finished(Conversations(cs))));
    case RenameConversation(id, title) =>
      assert Begins(reqs, m, i, if OwnsRow(d, e.sub, id) then Settle(m, i, UpdateTitle(d, id, e.sub, title, e.now).db, RenameUpdated)
                                else Move(m, i, Finished(Failed(NotFound))));
    case DeleteConversation(id) =>
      assert Begins(reqs, m, i, if OwnsRow(d, e.sub, id) then Settle(m, i, DeleteRow(d, id, e.sub).db, Finished(Deleted))
                                else Move(m, i, Finished(Failed(NotFound))));
    case _ => assert Begins(reqs, m, i, Move(m, i, FirstPc(d, e)));
  }

  lemma UnblockedBranch(reqs: seq<Call>, m: Machine, i: nat)
    requires FreshTrace(reqs) && i < |reqs| == |m.pcs| && PcOk(reqs[i], m, m.pcs[i])
    requires m.pcs[i].BranchResolved? || m.pcs[i].BranchInserted? || m.pcs[i].BranchCopying?
    ensures Advances(reqs, m, i)
  {
    hide FreshTrace, IsResult, Begins, After, AppendInserts, AppendTouches, AppendCommits, ListReads, UpsertWrites, RenameReads, BranchCopies, BranchCommits;
    var e, d, pc := reqs[i], m.db, m.pcs[i];
    match pc
    case BranchResolved(src, srcTitle, cut) =>
      var head := NewConversation(e, DefaultTitle(e.op.title, srcTitle));
      assert Continues(reqs, m, i, Move(m, i, After(InsertConversation(d, head), BranchInserted(head, src, cut))));
    case BranchInserted(head, src, cut) =>
      ResultExists(d, src, e.sub, Some(cut));
      var ms :| IsResult(d, src, e.sub, Some(cut), ms);
      assert Continues(reqs, m, i, Move(m, i, BranchCopying(head, Graft(d, src, cut, ms), 0)));
    case BranchCopying(_, _, _) => UnblockedCopy(reqs, m, i);
  }

  lemma MintInjective(reqs: seq<Call>, i: nat)
    requires FreshTrace(reqs) && i < |reqs|
    ensures Injective(reqs[i].mint)
  {
  }

  lemma UnblockedCopy(reqs: seq<Call>, m: Machine, i: nat)
    requires FreshTrace(reqs) && i < |reqs| == |m.pcs| && m.pcs[i].BranchCopying?
    ensures Advances(reqs, m, i)
  {
    hide GraftRows, BranchCommit, Settle, Injective, AppendInserts, AppendTouches, AppendCommits, ListReads, UpsertWrites, RenameReads, BranchInserts, BranchReads, Begins;
    MintInjective(reqs, i);
    var e, d, head, graft, k := reqs[i], m.db, m.pcs[i].head, m.pcs[i].graft, m.pcs[i].done;
    if k < |graft.copied| {
      assert Continues(reqs, m, i, Move(m, i, if e.mint(k + 1) in d.messages then Finished(Failed(Conflict)) else BranchCopying(head, graft, k + 1)));
    } else {
      var rows := GraftRows(e, head, graft.copied);
      assert Continues(reqs, m, i,
        Settle(m, i, BranchCommit(d, head, rows), Finished(OneConversation(head))).(branches := m.branches[head.id := rows]));
    }
  }

  lemma UnblockedAppend(reqs: seq<Call>, m: Machine, i: nat)
    requires i < |reqs| == |m.pcs| && PcOk(reqs[i], m, m.pcs[i])
    requires m.pcs[i].AppendChecked? || m.pcs[i].AppendInserted? || m.pcs[i].AppendTouched?
    requires m.pcs[i].AppendInserted? ==> forall c :: NoRowLocked(reqs, m, c)
    ensures Advances(reqs, m, i)
  {
    hide NoRowLocked, AppendRow, AppendCommit, Settle, Begins, ListReads, UpsertWrites, RenameReads, BranchInserts, BranchReads, BranchCopies, BranchCommits;
    var e, d := reqs[i], m.db;
    match m.pcs[i]
    case AppendChecked => assert Continues(reqs, m, i, Move(m, i, After(InsertMessage(d, e.mint(0), AppendRow(e)), AppendInserted)));
    case AppendInserted => assert Continues(reqs, m, i, Move(m, i, AppendTouched));
    case AppendTouched =>
      assert Continues(reqs, m, i, Settle(m, i, AppendCommit(d, e), Finished(OneMessage(ToMessage(e.mint(0), AppendRow(e))))));
  }

  lemma UnblockedOther(reqs: seq<Call>, m: Machine, i: nat)
    requires i < |reqs| == |m.pcs| && PcOk(reqs[i], m, m.pcs[i])
    requires m.pcs[i].ListChecked? || m.pcs[i].UpsertChecked? || m.pcs[i].RenameUpdated?
    ensures Advances(reqs, m, i)
  {
    hide IsResult, Settle, Begins, AppendInserts, AppendTouches, AppendCommits, BranchInserts, BranchReads, BranchCopies, BranchCommits;
    var e, d := reqs[i], m.db;
    match m.pcs[i]
    case ListChecked =>
      ResultExists(d, e.op.conversationId, e.sub, None);
      var ms :| IsResult(d, e.op.conversationId, e.sub, None, ms);
      assert Continues(reqs, m, i, Move(m, i, Finished(Messages(ms))));
    case UpsertChecked =>
      var exec := UpsertRow(d, NewFeedback(e));
      var pc := After(exec, Finished(OneFeedback(NewFeedback(e))));
      assert Continues(reqs, m, i, if exec.Done? then Settle(m, i, exec.db, pc) else Move(m, i, pc));
    case RenameUpdated => assert Continues(reqs, m, i, Move(m, i, Finished(GetStep(d, e.sub, e.op.id))));
  }

  lemma UnblockedContinues(reqs: seq<Call>, m: Machine, i: nat)
    requires FreshTrace(reqs) && i < |reqs| && Inv(reqs, m) && !m.pcs[i].Ready? && !Over(m.pcs[i])
    requires m.pcs[i].AppendInserted? ==> forall c :: NoRowLocked(reqs, m, c)
    ensures Advances(reqs, m, i)
  {
    hide Inv, FreshTrace, Advances, PcOk, NoRowLocked;
    SizesAgree(reqs, m);
    if m.pcs[i].AppendChecked? || m.pcs[i].AppendInserted? || m.pcs[i].AppendTouched? {
      UnblockedAppend(reqs, m, i);
    } else if m.pcs[i].BranchResolved? || m.pcs[i].BranchInserted? || m.pcs[i].BranchCopying? {
      UnblockedBranch(reqs, m, i);
    } else {
      UnblockedOther(reqs, m, i);
    }
  }

  /** No deadlock: while some call is unfinished, some unfinished call can take its next statement. */
  lemma Progress(reqs: seq<Call>, m: Machine, i: nat) returns (j: nat)
    requires FreshTrace(reqs) && Inv(reqs, m) && i < |reqs| && !Over(m.pcs[i])
    ensures Advances(reqs, m, j)
  {
    hide FreshTrace, Inv, Advances;
    SizesAgree(reqs, m);
    if k: nat :| k < |reqs| && m.pcs[k].AppendTouched? {
      j := k;
      UnblockedContinues(reqs, m, j);
    } else if k: nat :| k < |reqs| && m.pcs[k].AppendInserted? {
      j := k;
      UnblockedContinues(reqs, m, j);
    } else {
      j := i;
      if m.pcs[i].Ready? {
        UnblockedBegins(reqs, m, i);
      } else {
        UnblockedContinues(reqs, m, i);
      }
    }
  }

  /** And any call may be cut off: an unfinished one fails with nothing more committed, and one that has ended, unless it
      failed so, has its answer lost. */
  lemma AnyCallMayFail(reqs: seq<Call>, m: Machine, i: nat) returns (m': Machine)
    requires i < |reqs| == |m.pcs| && !m.pcs[i].Unheard? && m.pcs[i] != Finished(Failed(Internal))
    ensures Happens(reqs, m, i, m') && m'.db == m.db && i < |m'.pcs|
    ensures if Over(m.pcs[i]) then m'.pcs[i] == Unheard(m.pcs[i].reply) else m'.pcs[i] == Finished(Failed(Internal))
  {
    hide Begins, Continues;
    m' := Move(m, i, if Over(m.pcs[i]) then Unheard(m.pcs[i].reply) else Finished(Failed(Internal)));
  }
}
