/** What every step of every interleaving keeps. */
module InterleavingSafety {
  import opened StoreTypes
  import opened Tables
  import opened RelationalSpec
  import opened Interleaving

  /** The history remembers every committed row's subject. */
  ghost predicate Remembers(m: Machine) {
    && (forall c :: c in m.db.conversations ==> c in m.owners && m.owners[c] == m.db.conversations[c].sub)
    && (forall x :: x in m.db.messages ==> x in m.authors && m.authors[x] == m.db.messages[x].sub)
  }

  /** No identifier of an unfinished call was ever committed. */
  ghost predicate Unspent(reqs: seq<Call>, m: Machine)
    requires |m.pcs| == |reqs|
  {
    forall i, k: nat :: 0 <= i < |reqs| && !Over(m.pcs[i]) ==>
      reqs[i].mint(k) !in m.owners && reqs[i].mint(k) !in m.authors
  }

  /** What each client may rely on between its statements, whatever the others do. */
  ghost predicate PcOk(e: Call, m: Machine, pc: Pc) {
    match pc
    case AppendChecked =>
      e.op.AppendMessage? && e.op.conversationId in m.owners && m.owners[e.op.conversationId] == e.sub
    case AppendInserted => e.op.AppendMessage? && OwnsRow(m.db, e.sub, e.op.conversationId)
    case AppendTouched => e.op.AppendMessage? && OwnsRow(m.db, e.sub, e.op.conversationId)
    case ListChecked =>
      e.op.ListMessages? && e.op.conversationId in m.owners && m.owners[e.op.conversationId] == e.sub
    case UpsertChecked =>
      e.op.UpsertFeedback? && ValidRating(e.op.rating) && e.op.messageId in m.authors && m.authors[e.op.messageId] == e.sub
    case RenameUpdated => e.op.RenameConversation?
    case BranchResolved(_, _, _) => e.op.BranchFromMessage? && e.sub != ""
    case BranchInserted(head, _, _) => HeadOk(e, head)
    case BranchCopying(head, graft, done) =>
      && HeadOk(e, head) && done <= |graft.copied|
      && IsResult(graft.snapshot, graft.src, e.sub, Some(graft.cut), graft.copied)
    case _ => true
  }

  ghost predicate HeadOk(e: Call, head: Conversation) {
    e.op.BranchFromMessage? && e.sub != "" && head.id == e.mint(0) && head.sub == e.sub && head.createdAt == e.now
  }

  /** A committed branch is whole while its conversation lives, and wholly gone once it is deleted. */
  ghost predicate BranchesWhole(m: Machine) {
    forall b :: b in m.branches ==>
      && (b in m.db.conversations ==> forall x :: x in m.branches[b] ==> x in m.db.messages && m.db.messages[x] == m.branches[b][x])
      && (forall x :: x in m.branches[b] ==> x in m.authors && m.branches[b][x].conversationId == b)
      && b in m.owners
  }

  /** A message row never comes back under another conversation. */
  ghost predicate BranchesGone(m: Machine) {
    forall b, x :: b in m.branches && x in m.branches[b] && x in m.db.messages ==> m.db.messages[x] == m.branches[b][x]
  }

  ghost predicate OneLock(reqs: seq<Call>, m: Machine)
    requires |m.pcs| == |reqs|
  {
    forall i, j, c :: 0 <= i < j < |reqs| && LocksRow(reqs, m, i, c) ==> !LocksRow(reqs, m, j, c)
  }

  ghost predicate Inv(reqs: seq<Call>, m: Machine) {
    && |m.pcs| == |reqs|
    && Consistent(m.db) && Remembers(m) && Unspent(reqs, m)
    && (forall i :: 0 <= i < |reqs| ==> PcOk(reqs[i], m, m.pcs[i]))
    && BranchesWhole(m) && BranchesGone(m) && OneLock(reqs, m)
  }

  // --- What a change of the committed tables may do

  /** Owners never change, deleted rows never come back, message rows never change, and a message goes only
      with its conversation. */
  ghost predicate Evolves(m: Machine, d: Database) {
    && Consistent(d)
    && (forall c :: c in d.conversations && c in m.owners ==> c in m.db.conversations && d.conversations[c].sub == m.owners[c])
    && (forall x :: x in d.messages && x in m.authors ==> x in m.db.messages && d.messages[x] == m.db.messages[x])
    && (forall x :: x in m.db.messages && x !in d.messages ==> m.db.messages[x].conversationId !in d.conversations)
  }

  /** Every new row is under an identifier of the call that makes the change. */
  ghost predicate OnlyAdds(m: Machine, e: Call, d: Database) {
    && (forall c :: c in d.conversations && c !in m.owners ==> Draws(e, c))
    && (forall x :: x in d.messages && x !in m.authors ==> Draws(e, x))
  }

  /** A conversation another open transaction has inserted a message into stays. */
  ghost predicate KeepsShared(reqs: seq<Call>, m: Machine, i: nat, d: Database)
    requires |m.pcs| == |reqs|
  {
    forall j, c :: 0 <= j < |reqs| && j != i && SharesKey(reqs, m, j, c) && c in m.db.conversations ==> c in d.conversations
  }

  lemma SettleOwners(m: Machine, i: nat, d: Database, pc: Pc)
    requires i < |m.pcs| && Evolves(m, d)
    ensures var m' := Settle(m, i, d, pc);
      && Remembers(m')
      && (forall c :: c in m.owners ==> c in m'.owners && m'.owners[c] == m.owners[c])
      && (forall x :: x in m.authors && Remembers(m) ==> x in m'.authors && m'.authors[x] == m.authors[x])
  {
  }

  lemma SettleUnspent(reqs: seq<Call>, m: Machine, i: nat, d: Database, pc: Pc)
    requires FreshTrace(reqs) && i < |reqs| == |m.pcs| && Unspent(reqs, m) && !Over(m.pcs[i])
    requires OnlyAdds(m, reqs[i], d)
    requires pc.Finished? || (d.conversations.Keys <= m.owners.Keys && d.messages.Keys <= m.authors.Keys)
    ensures Unspent(reqs, Settle(m, i, d, pc))
  {
    var m' := Settle(m, i, d, pc);
    forall j, k: nat | 0 <= j < |reqs| && !Over(m'.pcs[j])
      ensures reqs[j].mint(k) !in m'.owners && reqs[j].mint(k) !in m'.authors
    {
      var x := reqs[j].mint(k);
      if Draws(reqs[i], x) && j != i {
        NotDrawn(reqs, i, j, k);
      }
    }
  }

  lemma NotDrawn(reqs: seq<Call>, i: nat, j: nat, k: nat)
    requires FreshTrace(reqs) && i < |reqs| && j < |reqs| && i != j
    ensures !Draws(reqs[i], reqs[j].mint(k))
  {
  }

  lemma SettleBranches(m: Machine, i: nat, d: Database, pc: Pc)
    requires i < |m.pcs| && Remembers(m) && Evolves(m, d) && BranchesWhole(m) && BranchesGone(m)
    ensures BranchesWhole(Settle(m, i, d, pc)) && BranchesGone(Settle(m, i, d, pc))
  {
  }

  lemma SettlePc(reqs: seq<Call>, m: Machine, i: nat, d: Database, pc: Pc, j: nat)
    requires i < |reqs| == |m.pcs| && j < |reqs| && j != i
    requires Remembers(m) && Evolves(m, d) && KeepsShared(reqs, m, i, d) && PcOk(reqs[j], m, m.pcs[j])
    ensures PcOk(reqs[j], Settle(m, i, d, pc), m.pcs[j])
  {
    SettleOwners(m, i, d, pc);
    if m.pcs[j].AppendInserted? || m.pcs[j].AppendTouched? {
      var c := reqs[j].op.conversationId;
      assert SharesKey(reqs, m, j, c);
    }
  }

  lemma FewerLocks(reqs: seq<Call>, m: Machine, m': Machine, i: nat)
    requires i < |reqs| == |m.pcs| == |m'.pcs| && OneLock(reqs, m) && !m'.pcs[i].AppendTouched?
    requires forall j :: 0 <= j < |reqs| && j != i ==> m'.pcs[j] == m.pcs[j]
    ensures OneLock(reqs, m')
  {
    forall a, b, c | 0 <= a < b < |reqs| && LocksRow(reqs, m', a, c) ensures !LocksRow(reqs, m', b, c) {
      assert LocksRow(reqs, m, a, c);
      assert b != i ==> LocksRow(reqs, m', b, c) == LocksRow(reqs, m, b, c);
    }
  }

  /** Any such change keeps the invariant. */
  lemma SettleKeepsInv(reqs: seq<Call>, m: Machine, i: nat, d: Database, pc: Pc)
    requires FreshTrace(reqs) && i < |reqs| && Inv(reqs, m) && !Over(m.pcs[i])
    requires Evolves(m, d) && OnlyAdds(m, reqs[i], d) && KeepsShared(reqs, m, i, d)
    requires pc.Finished? || (pc.RenameUpdated? && d.conversations.Keys <= m.owners.Keys && d.messages.Keys <= m.authors.Keys)
    requires PcOk(reqs[i], m, pc)
    ensures Inv(reqs, Settle(m, i, d, pc))
  {
    hide Consistent, Remembers, Unspent, BranchesWhole, BranchesGone, OneLock, OnlyAdds, KeepsShared, FreshTrace;
    SettleOwners(m, i, d, pc);
    SettleUnspent(reqs, m, i, d, pc);
    SettleBranches(m, i, d, pc);
    forall j | 0 <= j < |reqs| && j != i ensures PcOk(reqs[j], Settle(m, i, d, pc), m.pcs[j]) {
      SettlePc(reqs, m, i, d, pc, j);
    }
    FewerLocks(reqs, m, Settle(m, i, d, pc), i);
  }

  /** A step that commits nothing keeps the invariant when the client's own new position is sound. */
  lemma MoveKeepsInv(reqs: seq<Call>, m: Machine, i: nat, pc: Pc)
    requires i < |reqs| && Inv(reqs, m) && (Over(m.pcs[i]) ==> Over(pc)) && PcOk(reqs[i], m, pc)
    requires pc.AppendTouched? ==> reqs[i].op.AppendMessage? && NoRowLocked(reqs, m, reqs[i].op.conversationId)
    ensures Inv(reqs, Move(m, i, pc))
  {
    var m' := Move(m, i, pc);
    forall j | 0 <= j < |reqs| ensures PcOk(reqs[j], m', m'.pcs[j]) {
      assert PcOk(reqs[j], m, m.pcs[j]);
    }
    MoveLocks(reqs, m, i, pc);
  }

  lemma MoveLocks(reqs: seq<Call>, m: Machine, i: nat, pc: Pc)
    requires i < |reqs| == |m.pcs| && OneLock(reqs, m)
    requires pc.AppendTouched? ==> reqs[i].op.AppendMessage? && NoRowLocked(reqs, m, reqs[i].op.conversationId)
    ensures OneLock(reqs, Move(m, i, pc))
  {
    var m' := Move(m, i, pc);
    forall a, b, c | 0 <= a < b < |reqs| && LocksRow(reqs, m', a, c) ensures !LocksRow(reqs, m', b, c) {
      assert a != i ==> LocksRow(reqs, m, a, c);
      assert b != i ==> LocksRow(reqs, m', b, c) == LocksRow(reqs, m, b, c);
    }
  }

  // --- Each change of the committed tables

  lemma CreateEvolves(reqs: seq<Call>, m: Machine, i: nat)
    requires i < |reqs| && Inv(reqs, m) && m.pcs[i].Ready? && reqs[i].op.CreateConversation?
    ensures var d := CreateStep(m.db, reqs[i]).db;
      Evolves(m, d) && OnlyAdds(m, reqs[i], d) && KeepsShared(reqs, m, i, d)
  {
    var e := reqs[i];
    assert e.mint(0) !in m.owners;
    if e.sub != "" {
      RowConsistent(m.db, NewConversation(e, e.op.title));
    }
  }

  lemma RenameEvolves(reqs: seq<Call>, m: Machine, i: nat)
    requires i < |reqs| && Inv(reqs, m) && reqs[i].op.RenameConversation?
    requires OwnsRow(m.db, reqs[i].sub, reqs[i].op.id)
    ensures var e := reqs[i]; var d := UpdateTitle(m.db, e.op.id, e.sub, e.op.title, e.now).db;
      && Evolves(m, d) && OnlyAdds(m, e, d) && KeepsShared(reqs, m, i, d)
      && d.conversations.Keys <= m.owners.Keys && d.messages.Keys <= m.authors.Keys
  {
    var e := reqs[i];
    IsOwned(m.db, e.sub, e.op.id);
    RowConsistent(m.db, m.db.conversations[e.op.id].(title := e.op.title, updatedAt := e.now));
  }

  lemma DeleteEvolves(reqs: seq<Call>, m: Machine, i: nat)
    requires i < |reqs| && Inv(reqs, m) && reqs[i].op.DeleteConversation? && NoKeyShared(reqs, m, reqs[i].op.id)
    ensures var d := Cascade(m.db, reqs[i].op.id);
      Evolves(m, d) && OnlyAdds(m, reqs[i], d) && KeepsShared(reqs, m, i, d)
  {
    CascadeConsistent(m.db, reqs[i].op.id);
  }

  lemma AppendEvolves(reqs: seq<Call>, m: Machine, i: nat)
    requires i < |reqs| && Inv(reqs, m) && m.pcs[i].AppendTouched?
    ensures reqs[i].op.AppendMessage? && reqs[i].op.conversationId in m.db.conversations
    ensures var d := AppendCommit(m.db, reqs[i]);
      Evolves(m, d) && OnlyAdds(m, reqs[i], d) && KeepsShared(reqs, m, i, d)
  {
    var e := reqs[i];
    assert PcOk(e, m, m.pcs[i]);
    assert e.mint(0) !in m.authors;
    IsOwned(m.db, e.sub, e.op.conversationId);
    MessageConsistent(m.db, e.mint(0), AppendRow(e));
    RowConsistent(m.db.(messages := m.db.messages[e.mint(0) := AppendRow(e)]),
                  m.db.conversations[e.op.conversationId].(updatedAt := e.now));
  }

  lemma UpsertEvolves(reqs: seq<Call>, m: Machine, i: nat)
    requires i < |reqs| && Inv(reqs, m) && m.pcs[i].UpsertChecked? && reqs[i].op.UpsertFeedback?
    requires UpsertRow(m.db, NewFeedback(reqs[i])).Done?
    ensures OwnsMessage(m.db, reqs[i].sub, reqs[i].op.messageId)
    ensures var d := UpsertRow(m.db, NewFeedback(reqs[i])).db;
      Evolves(m, d) && OnlyAdds(m, reqs[i], d) && KeepsShared(reqs, m, i, d)
  {
    assert PcOk(reqs[i], m, m.pcs[i]);
    FeedbackConsistent(m.db, NewFeedback(reqs[i]));
  }

  lemma RowsDrawn(e: Call, head: Conversation, copied: seq<Message>, x: Id)
    requires Injective(e.mint)
    ensures var rows := GraftRows(e, head, copied);
      x in rows ==> Draws(e, x) && rows[x].conversationId == head.id && rows[x].sub == head.sub
  {
  }

  lemma CommitConsistent(d: Database, head: Conversation, rows: map<Id, MessageRow>)
    requires Consistent(d) && head.id !in d.conversations && head.sub != ""
    requires forall x :: x in rows ==> x !in d.messages && rows[x].conversationId == head.id && rows[x].sub == head.sub
    ensures Consistent(BranchCommit(d, head, rows))
  {
  }

  lemma BranchEvolves(reqs: seq<Call>, m: Machine, i: nat, head: Conversation, copied: seq<Message>)
    requires i < |reqs| && Inv(reqs, m) && !Over(m.pcs[i]) && HeadOk(reqs[i], head) && Injective(reqs[i].mint)
    ensures var d := BranchCommit(m.db, head, GraftRows(reqs[i], head, copied));
      Evolves(m, d) && OnlyAdds(m, reqs[i], d) && KeepsShared(reqs, m, i, d)
  {
    hide Consistent, BranchesWhole, BranchesGone, OneLock, PcOk, GraftRows;
    var e := reqs[i];
    var rows := GraftRows(e, head, copied);
    assert e.mint(0) !in m.owners && Draws(e, head.id);
    forall x | x in rows ensures x !in m.authors && Draws(e, x) && rows[x].conversationId == head.id && rows[x].sub == head.sub {
      RowsDrawn(e, head, copied, x);
    }
    CommitConsistent(m.db, head, rows);
  }

  // --- Every step

  lemma SizesAgree(reqs: seq<Call>, m: Machine)
    requires Inv(reqs, m)
    ensures |m.pcs| == |reqs| && forall i :: 0 <= i < |reqs| ==> PcOk(reqs[i], m, m.pcs[i])
  {
  }

  lemma FinishedOk(e: Call, m: Machine, r: Reply)
    ensures PcOk(e, m, Finished(r))
  {
  }

  lemma StandStill(reqs: seq<Call>, m: Machine)
    requires Inv(reqs, m)
    ensures Evolves(m, m.db)
  {
  }

  lemma CreateKeepsInv(reqs: seq<Call>, m: Machine, i: nat, m': Machine)
    requires FreshTrace(reqs) && i < |reqs| && Inv(reqs, m) && m.pcs[i].Ready? && reqs[i].op.CreateConversation?
    requires BeginsCreate(m, i, reqs[i], m')
    ensures Inv(reqs, m') && Evolves(m, m'.db)
  {
    hide Inv, FreshTrace, Evolves, OnlyAdds, KeepsShared, CreateStep, PcOk;
    var o := CreateStep(m.db, reqs[i]);
    FinishedOk(reqs[i], m, o.reply);
    CreateEvolves(reqs, m, i);
    SettleKeepsInv(reqs, m, i, o.db, Finished(o.reply));
  }

  lemma RenameKeepsInv(reqs: seq<Call>, m: Machine, i: nat, m': Machine)
    requires FreshTrace(reqs) && i < |reqs| && Inv(reqs, m) && m.pcs[i].Ready? && reqs[i].op.RenameConversation?
    requires BeginsRename(reqs, m, i, m')
    ensures Inv(reqs, m') && Evolves(m, m'.db)
  {
    hide Inv, FreshTrace, Evolves, OnlyAdds, KeepsShared, NoRowLocked;
    var e := reqs[i];
    if OwnsRow(m.db, e.sub, e.op.id) {
      RenameEvolves(reqs, m, i);
      SettleKeepsInv(reqs, m, i, UpdateTitle(m.db, e.op.id, e.sub, e.op.title, e.now).db, RenameUpdated);
    } else {
      StandStill(reqs, m);
      MoveKeepsInv(reqs, m, i, Finished(Failed(NotFound)));
    }
  }

  lemma DeleteKeepsInv(reqs: seq<Call>, m: Machine, i: nat, m': Machine)
    requires FreshTrace(reqs) && i < |reqs| && Inv(reqs, m) && m.pcs[i].Ready? && reqs[i].op.DeleteConversation?
    requires BeginsDelete(reqs, m, i, m')
    ensures Inv(reqs, m') && Evolves(m, m'.db)
  {
    hide Inv, FreshTrace, Evolves, OnlyAdds, KeepsShared, Cascade, NoKeyShared;
    var e := reqs[i];
    if OwnsRow(m.db, e.sub, e.op.id) {
      DeleteEvolves(reqs, m, i);
      SettleKeepsInv(reqs, m, i, Cascade(m.db, e.op.id), Finished(Deleted));
    } else {
      StandStill(reqs, m);
      MoveKeepsInv(reqs, m, i, Finished(Failed(NotFound)));
    }
  }

  /** What a first read establishes for the client's later statements. */
  lemma FirstPcOk(reqs: seq<Call>, m: Machine, i: nat)
    requires i < |reqs| && Inv(reqs, m)
    ensures PcOk(reqs[i], m, FirstPc(m.db, reqs[i])) && !FirstPc(m.db, reqs[i]).AppendTouched?
  {
    hide Consistent, Unspent, BranchesWhole, BranchesGone, OneLock, HeadOk, IsResult;
  }

  lemma ListingKeepsInv(reqs: seq<Call>, m: Machine, i: nat, m': Machine)
    requires i < |reqs| && Inv(reqs, m) && m.pcs[i].Ready? && BeginsListing(m, i, reqs[i], m')
    ensures Inv(reqs, m') && m'.db == m.db
  {
    hide Inv, IsListing;
    SizesAgree(reqs, m);
    if reqs[i].sub == "" {
      MoveKeepsInv(reqs, m, i, Finished(Failed(Forbidden)));
    } else {
      var cs :| IsListing(m.db.conversations, reqs[i].sub, cs) && m' == Move(m, i, Finished(Conversations(cs)));
      MoveKeepsInv(reqs, m, i, Finished(Conversations(cs)));
    }
  }

  lemma BeginKeepsInv(reqs: seq<Call>, m: Machine, i: nat, m': Machine)
    requires FreshTrace(reqs) && i < |reqs| && Inv(reqs, m) && m.pcs[i].Ready? && Begins(reqs, m, i, m')
    ensures Inv(reqs, m') && Evolves(m, m'.db)
  {
    hide Inv, FreshTrace, Evolves, PcOk, FirstPc, BeginsCreate, BeginsListing, BeginsRename, BeginsDelete;
    SizesAgree(reqs, m);
    match reqs[i].op
    case CreateConversation(_) => CreateKeepsInv(reqs, m, i, m');
    case RenameConversation(_, _) => RenameKeepsInv(reqs, m, i, m');
    case DeleteConversation(_) => DeleteKeepsInv(reqs, m, i, m');
    case ListConversations =>
      ListingKeepsInv(reqs, m, i, m');
      StandStill(reqs, m);
    case _ =>
      FirstPcOk(reqs, m, i);
      MoveKeepsInv(reqs, m, i, FirstPc(m.db, reqs[i]));
      StandStill(reqs, m);
  }

  /** A conversation that was the caller's when it was checked still is, if it is still there. */
  lemma StillOwned(reqs: seq<Call>, m: Machine, i: nat, c: Id)
    requires i < |reqs| && Inv(reqs, m) && c in m.db.conversations
    requires c in m.owners && m.owners[c] == reqs[i].sub
    ensures OwnsRow(m.db, reqs[i].sub, c)
  {
  }

  lemma AppendInsertsOk(reqs: seq<Call>, m: Machine, i: nat, m': Machine)
    requires i < |reqs| && Inv(reqs, m) && m.pcs[i].AppendChecked? && AppendInserts(m, i, reqs[i], m')
    ensures Inv(reqs, m') && m'.db == m.db
  {
    hide Inv;
    var e := reqs[i];
    SizesAgree(reqs, m);
    assert PcOk(e, m, AppendChecked);
    if e.op.conversationId in m.db.conversations {
      StillOwned(reqs, m, i, e.op.conversationId);
    }
    MoveKeepsInv(reqs, m, i, After(InsertMessage(m.db, e.mint(0), AppendRow(e)), AppendInserted));
  }

  lemma AppendTouchesOk(reqs: seq<Call>, m: Machine, i: nat, m': Machine)
    requires i < |reqs| && Inv(reqs, m) && m.pcs[i].AppendInserted? && AppendTouches(reqs, m, i, m')
    ensures Inv(reqs, m') && m'.db == m.db
  {
    hide Inv, NoRowLocked;
    SizesAgree(reqs, m);
    assert PcOk(reqs[i], m, AppendInserted);
    MoveKeepsInv(reqs, m, i, AppendTouched);
  }

  lemma AppendCommitsOk(reqs: seq<Call>, m: Machine, i: nat, m': Machine)
    requires FreshTrace(reqs) && i < |reqs| && Inv(reqs, m) && m.pcs[i].AppendTouched? && AppendCommits(m, i, reqs[i], m')
    ensures Inv(reqs, m') && Evolves(m, m'.db)
  {
    hide Inv, FreshTrace, Evolves, OnlyAdds, KeepsShared, AppendCommit, ToMessage, AppendRow;
    AppendEvolves(reqs, m, i);
    SettleKeepsInv(reqs, m, i, AppendCommit(m.db, reqs[i]), Finished(OneMessage(ToMessage(reqs[i].mint(0), AppendRow(reqs[i])))));
  }

  lemma ListReadsOk(reqs: seq<Call>, m: Machine, i: nat, m': Machine)
    requires i < |reqs| && Inv(reqs, m) && m.pcs[i].ListChecked? && ListReads(m, i, reqs[i], m')
    ensures Inv(reqs, m') && m'.db == m.db
  {
    hide Inv, IsResult;
    SizesAgree(reqs, m);
    var ms :| IsResult(m.db, reqs[i].op.conversationId, reqs[i].sub, None, ms) && m' == Move(m, i, Finished(Messages(ms)));
    MoveKeepsInv(reqs, m, i, Finished(Messages(ms)));
  }

  lemma UpsertWritesOk(reqs: seq<Call>, m: Machine, i: nat, m': Machine)
    requires FreshTrace(reqs) && i < |reqs| && Inv(reqs, m) && m.pcs[i].UpsertChecked? && UpsertWrites(m, i, reqs[i], m')
    ensures Inv(reqs, m') && Evolves(m, m'.db)
  {
    hide Inv, FreshTrace, Evolves, OnlyAdds, KeepsShared;
    var exec := UpsertRow(m.db, NewFeedback(reqs[i]));
    if exec.Done? {
      UpsertEvolves(reqs, m, i);
      SettleKeepsInv(reqs, m, i, exec.db, Finished(OneFeedback(NewFeedback(reqs[i]))));
    } else {
      StandStill(reqs, m);
      MoveKeepsInv(reqs, m, i, After(exec, Finished(OneFeedback(NewFeedback(reqs[i])))));
    }
  }

  lemma BranchInsertsOk(reqs: seq<Call>, m: Machine, i: nat, m': Machine)
    requires i < |reqs| && Inv(reqs, m) && m.pcs[i].BranchResolved? && BranchInserts(m, i, reqs[i], m')
    ensures Inv(reqs, m') && m'.db == m.db
  {
    hide Inv, IsResult;
    SizesAgree(reqs, m);
    var e, pc := reqs[i], m.pcs[i];
    assert PcOk(e, m, pc);
    var head := NewConversation(e, DefaultTitle(e.op.title, pc.srcTitle));
    MoveKeepsInv(reqs, m, i, After(InsertConversation(m.db, head), BranchInserted(head, pc.src, pc.cut)));
  }

  lemma BranchReadsOk(reqs: seq<Call>, m: Machine, i: nat, m': Machine)
    requires i < |reqs| && Inv(reqs, m) && m.pcs[i].BranchInserted? && BranchReads(m, i, reqs[i], m')
    ensures Inv(reqs, m') && m'.db == m.db
  {
    hide Inv, IsResult, HeadOk;
    SizesAgree(reqs, m);
    var e, pc := reqs[i], m.pcs[i];
    assert PcOk(e, m, pc);
    var ms :| IsResult(m.db, pc.src, e.sub, Some(pc.cut), ms)
              && m' == Move(m, i, BranchCopying(pc.head, Graft(m.db, pc.src, pc.cut, ms), 0));
    MoveKeepsInv(reqs, m, i, BranchCopying(pc.head, Graft(m.db, pc.src, pc.cut, ms), 0));
  }

  lemma BranchCopiesOk(reqs: seq<Call>, m: Machine, i: nat, m': Machine)
    requires i < |reqs| && Inv(reqs, m) && m.pcs[i].BranchCopying? && BranchCopies(m, i, reqs[i], m')
    requires m.pcs[i].done < |m.pcs[i].graft.copied|
    ensures Inv(reqs, m') && m'.db == m.db
  {
    hide Inv, IsResult, HeadOk;
    SizesAgree(reqs, m);
    assert PcOk(reqs[i], m, m.pcs[i]);
    MoveKeepsInv(reqs, m, i, m'.pcs[i]);
  }

  lemma BranchCommitsOk(reqs: seq<Call>, m: Machine, i: nat, m': Machine)
    requires FreshTrace(reqs) && i < |reqs| && Inv(reqs, m) && m.pcs[i].BranchCopying? && BranchCommits(m, i, reqs[i], m')
    ensures Inv(reqs, m') && Evolves(m, m'.db)
  {
    hide Inv, Evolves, OnlyAdds, KeepsShared, FreshTrace, GraftRows, BranchCommit, IsResult;
    SizesAgree(reqs, m);
    var e, head, copied := reqs[i], m.pcs[i].head, m.pcs[i].graft.copied;
    assert PcOk(e, m, m.pcs[i]);
    var rows := GraftRows(e, head, copied);
    var d := BranchCommit(m.db, head, rows);
    BranchEvolves(reqs, m, i, head, copied);
    SettleKeepsInv(reqs, m, i, d, Finished(OneConversation(head)));
    forall x | x in rows ensures rows[x].conversationId == head.id {
      RowsDrawn(e, head, copied, x);
    }
    CommitHolds(m, i, head, rows);
    InvWithBranch(reqs, Settle(m, i, d, Finished(OneConversation(head))), m', head.id, rows);
  }

  lemma ContinueKeepsInv(reqs: seq<Call>, m: Machine, i: nat, m': Machine)
    requires FreshTrace(reqs) && i < |reqs| && Inv(reqs, m) && !m.pcs[i].Ready? && !Over(m.pcs[i]) && Continues(reqs, m, i, m')
    ensures Inv(reqs, m') && Evolves(m, m'.db)
  {
    hide Inv, FreshTrace, Evolves, AppendInserts, AppendTouches, AppendCommits, ListReads, UpsertWrites, BranchInserts, BranchReads, BranchCopies, BranchCommits;
    SizesAgree(reqs, m);
    StandStill(reqs, m);
    match m.pcs[i]
    case AppendChecked => AppendInsertsOk(reqs, m, i, m');
    case AppendInserted => AppendTouchesOk(reqs, m, i, m');
    case AppendTouched => AppendCommitsOk(reqs, m, i, m');
    case ListChecked => ListReadsOk(reqs, m, i, m');
    case UpsertChecked => UpsertWritesOk(reqs, m, i, m');
    case RenameUpdated => MoveKeepsInv(reqs, m, i, Finished(GetStep(m.db, reqs[i].sub, reqs[i].op.id)));
    case BranchResolved(_, _, _) => BranchInsertsOk(reqs, m, i, m');
    case BranchInserted(_, _, _) => BranchReadsOk(reqs, m, i, m');
    case BranchCopying(_, graft, done) =>
      if done < |graft.copied| {
        BranchCopiesOk(reqs, m, i, m');
      } else {
        BranchCommitsOk(reqs, m, i, m');
      }
  }

  /** Right after the commit all rows of the branch are there. */
  lemma CommitHolds(m: Machine, i: nat, head: Conversation, rows: map<Id, MessageRow>)
    requires i < |m.pcs|
    ensures var t := Settle(m, i, BranchCommit(m.db, head, rows), Finished(OneConversation(head)));
      && head.id in t.owners
      && forall x :: x in rows ==> x in t.db.messages && t.db.messages[x] == rows[x] && x in t.authors
  {
  }

  lemma LocksIgnoreBranches(reqs: seq<Call>, t: Machine, m': Machine)
    requires |t.pcs| == |reqs| && m' == t.(branches := m'.branches) && OneLock(reqs, t)
    ensures OneLock(reqs, m')
  {
    forall i, j, c | 0 <= i < j < |reqs| && LocksRow(reqs, m', i, c) ensures !LocksRow(reqs, m', j, c) {
      assert LocksRow(reqs, t, i, c);
      assert LocksRow(reqs, t, j, c) == LocksRow(reqs, m', j, c);
    }
  }

  lemma PcIgnoresBranches(e: Call, t: Machine, m': Machine, pc: Pc)
    requires m' == t.(branches := m'.branches) && PcOk(e, t, pc)
    ensures PcOk(e, m', pc)
  {
  }

  lemma WholeWithBranch(t: Machine, m': Machine, b: Id, rows: map<Id, MessageRow>)
    requires BranchesWhole(t) && BranchesGone(t) && m' == t.(branches := t.branches[b := rows]) && b in t.owners
    requires forall x :: x in rows ==>
      x in t.db.messages && t.db.messages[x] == rows[x] && x in t.authors && rows[x].conversationId == b
    ensures BranchesWhole(m') && BranchesGone(m')
  {
  }

  lemma InvWithBranch(reqs: seq<Call>, t: Machine, m': Machine, b: Id, rows: map<Id, MessageRow>)
    requires Inv(reqs, t) && m' == t.(branches := t.branches[b := rows]) && b in t.owners
    requires forall x :: x in rows ==>
      x in t.db.messages && t.db.messages[x] == rows[x] && x in t.authors && rows[x].conversationId == b
    ensures Inv(reqs, m')
  {
    WholeWithBranch(t, m', b, rows);
    LocksIgnoreBranches(reqs, t, m');
    forall i | 0 <= i < |reqs| ensures PcOk(reqs[i], m', m'.pcs[i]) {
      PcIgnoresBranches(reqs[i], t, m', m'.pcs[i]);
    }
  }

  /** Safety: every step of every client keeps the invariant; and owners never change, deleted rows never come
      back, and a message row stays as it is until its conversation is deleted. */
  lemma StepKeepsInv(reqs: seq<Call>, m: Machine, i: nat, m': Machine)
    requires FreshTrace(reqs) && Inv(reqs, m) && Step(reqs, m, i, m')
    ensures Inv(reqs, m') && Evolves(m, m'.db)
  {
    hide Inv, FreshTrace, Evolves, Begins, Continues;
    if Breaks(m, i, m') {
      StandStill(reqs, m);
      FinishedOk(reqs[i], m, Failed(Internal));
      MoveKeepsInv(reqs, m, i, m'.pcs[i]);
    } else if m.pcs[i].Ready? {
      BeginKeepsInv(reqs, m, i, m');
    } else {
      ContinueKeepsInv(reqs, m, i, m');
    }
  }

  lemma LossKeepsInv(reqs: seq<Call>, m: Machine, i: nat, m': Machine)
    requires Inv(reqs, m) && Loses(m, i, m')
    ensures Inv(reqs, m')
  {
    hide Consistent, Remembers, Unspent, BranchesWhole, BranchesGone, OneLock;
    MoveKeepsInv(reqs, m, i, Unheard(m.pcs[i].reply));
  }

  lemma HappeningKeepsInv(reqs: seq<Call>, m: Machine, i: nat, m': Machine)
    requires FreshTrace(reqs) && Inv(reqs, m) && Happens(reqs, m, i, m')
    ensures Inv(reqs, m')
  {
    hide FreshTrace, Inv, Step, Loses;
    if Step(reqs, m, i, m') {
      StepKeepsInv(reqs, m, i, m');
    } else {
      LossKeepsInv(reqs, m, i, m');
    }
  }

  lemma InitInv(reqs: seq<Call>, m: Machine)
    requires Init(reqs, m)
    ensures Inv(reqs, m)
  {
  }

  /** Every state of every interleaved execution satisfies the invariant. */
  lemma {:induction false} ExecutionSafe(reqs: seq<Call>, ms: seq<Machine>, who: seq<nat>, t: nat)
    requires FreshTrace(reqs) && Execution(reqs, ms, who) && t <= |who|
    ensures Inv(reqs, ms[t])
  {
    hide Inv, FreshTrace, Happens, Init;
    if t == 0 {
      InitInv(reqs, ms[0]);
    } else {
      ExecutionSafe(reqs, ms, who, t - 1);
      HappeningKeepsInv(reqs, ms[t - 1], who[t - 1], ms[t]);
    }
  }
}
