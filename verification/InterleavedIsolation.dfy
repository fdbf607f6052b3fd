/** Non-interference under concurrency: stop every other subject's clients from moving, and one subject's clients can
    still take all their steps, with the same replies. No lock and no race crosses subjects. */
module InterleavedIsolation {
  import opened StoreTypes
  import opened Tables
  import opened RelationalSpec
  import opened Interleaving
  import opened InterleavingSafety
  import opened Explanations
  import opened ConcurrentHistory
  import opened RelationalIsolation

  /** A client as it stands when only the clients of subject a have moved. */
  function OwnPc(e: Call, pc: Pc, a: Subject): Pc {
    if e.sub != a then Ready
    else match pc
      case BranchCopying(head, graft, k) => BranchCopying(head, graft.(snapshot := Share(graft.snapshot, a)), k)
      case _ => pc
  }

  function OwnPcs(reqs: seq<Call>, pcs: seq<Pc>, a: Subject): (own: seq<Pc>)
    requires |pcs| == |reqs|
    ensures |own| == |reqs| && forall i :: 0 <= i < |reqs| ==> own[i] == OwnPc(reqs[i], pcs[i], a)
  {
    seq(|reqs|, i requires 0 <= i < |reqs| => OwnPc(reqs[i], pcs[i], a))
  }

  function Only(subs: map<Id, Subject>, a: Subject): map<Id, Subject> {
    map x | x in subs && subs[x] == a :: a
  }

  function OnlyBranches(m: Machine, a: Subject): map<Id, map<Id, MessageRow>> {
    map b | b in m.branches && b in m.owners && m.owners[b] == a :: m.branches[b]
  }

  /** The machine with subject a's rows and clients alone. */
  function Own(reqs: seq<Call>, m: Machine, a: Subject): (own: Machine)
    requires |m.pcs| == |reqs|
    ensures own.db == Share(m.db, a) && own.pcs == OwnPcs(reqs, m.pcs, a)
    ensures own.owners == Only(m.owners, a) && own.authors == Only(m.authors, a) && own.branches == OnlyBranches(m, a)
  {
    Machine(Share(m.db, a), OwnPcs(reqs, m.pcs, a), Only(m.owners, a), Only(m.authors, a), OnlyBranches(m, a))
  }

  // --- Steps that commit nothing, and steps that commit

  lemma OwnPcsUpdate(reqs: seq<Call>, pcs: seq<Pc>, i: nat, pc: Pc, a: Subject)
    requires i < |pcs| == |reqs|
    ensures OwnPcs(reqs, pcs[i := pc], a) == OwnPcs(reqs, pcs, a)[i := OwnPc(reqs[i], pc, a)]
  {
  }

  lemma OwnMove(reqs: seq<Call>, m: Machine, i: nat, pc: Pc, a: Subject)
    requires i < |m.pcs| == |reqs|
    ensures Own(reqs, Move(m, i, pc), a) == Move(Own(reqs, m, a), i, OwnPc(reqs[i], pc, a))
  {
    OwnPcsUpdate(reqs, m.pcs, i, pc, a);
  }

  lemma OnlyPlus(subs: map<Id, Subject>, more: map<Id, Subject>, a: Subject)
    requires forall x :: x in subs && x in more ==> subs[x] == more[x]
    ensures Only(subs + more, a) == Only(subs, a) + Only(more, a)
  {
  }

  function OwnersIn(db: Database): map<Id, Subject> {
    map c | c in db.conversations :: db.conversations[c].sub
  }

  function AuthorsIn(db: Database): map<Id, Subject> {
    map x | x in db.messages :: db.messages[x].sub
  }

  lemma OnlyShare(db: Database, a: Subject)
    ensures Only(OwnersIn(db), a) == OwnersIn(Share(db, a))
    ensures Only(AuthorsIn(db), a) == AuthorsIn(Share(db, a))
  {
  }

  lemma OwnOwners(m: Machine, db: Database, a: Subject)
    requires Remembers(m) && Evolves(m, db)
    ensures Only(m.owners + OwnersIn(db), a) == Only(m.owners, a) + OwnersIn(Share(db, a))
    ensures Only(m.authors + AuthorsIn(db), a) == Only(m.authors, a) + AuthorsIn(Share(db, a))
  {
    hide Consistent, Only, Share;
    OnlyPlus(m.owners, OwnersIn(db), a);
    OnlyPlus(m.authors, AuthorsIn(db), a);
    OnlyShare(db, a);
  }

  lemma OwnBranches(m: Machine, i: nat, db: Database, pc: Pc, a: Subject)
    requires i < |m.pcs| && Remembers(m) && Evolves(m, db) && BranchesWhole(m)
    ensures OnlyBranches(Settle(m, i, db, pc), a) == OnlyBranches(m, a)
  {
    hide Consistent;
    SettleOwners(m, i, db, pc);
  }

  lemma OwnSettle(reqs: seq<Call>, m: Machine, i: nat, db: Database, pc: Pc, a: Subject)
    requires i < |m.pcs| == |reqs| && Remembers(m) && Evolves(m, db) && BranchesWhole(m)
    ensures Own(reqs, Settle(m, i, db, pc), a) == Settle(Own(reqs, m, a), i, Share(db, a), OwnPc(reqs[i], pc, a))
  {
    hide Evolves, Remembers, BranchesWhole, Only, OnlyBranches, Share;
    OwnPcsUpdate(reqs, m.pcs, i, pc, a);
    OwnOwners(m, db, a);
    OwnBranches(m, i, db, pc, a);
  }

  // --- Locks

  /** Every lock the subject's clients meet alone they also meet among the others. */
  lemma OwnLocks(reqs: seq<Call>, m: Machine, c: Id, a: Subject)
    requires |m.pcs| == |reqs|
    ensures NoRowLocked(reqs, m, c) ==> NoRowLocked(reqs, Own(reqs, m, a), c)
    ensures NoKeyShared(reqs, m, c) ==> NoKeyShared(reqs, Own(reqs, m, a), c)
  {
    var own := Own(reqs, m, a);
    forall j | 0 <= j < |reqs|
      ensures LocksRow(reqs, own, j, c) ==> LocksRow(reqs, m, j, c)
      ensures SharesKey(reqs, own, j, c) ==> SharesKey(reqs, m, j, c)
    {
    }
  }

  // --- The subject's own steps

  lemma SharesUnused(reqs: seq<Call>, m: Machine, i: nat)
    requires FreshTrace(reqs) && Inv(reqs, m) && i < |reqs| && !Over(m.pcs[i])
    ensures Unused(m.db, reqs[i].mint)
  {
    forall k: nat ensures reqs[i].mint(k) !in m.db.conversations && reqs[i].mint(k) !in m.db.messages {
      assert reqs[i].mint(k) !in m.owners && reqs[i].mint(k) !in m.authors;
    }
  }

  lemma InvParts(reqs: seq<Call>, m: Machine)
    requires Inv(reqs, m)
    ensures |m.pcs| == |reqs| && Consistent(m.db) && Remembers(m) && BranchesWhole(m)
    ensures forall i :: 0 <= i < |reqs| ==> PcOk(reqs[i], m, m.pcs[i])
  {
  }

  lemma OwnBeginsCreate(reqs: seq<Call>, m: Machine, i: nat, m': Machine)
    requires FreshTrace(reqs) && Inv(reqs, m) && i < |reqs| == |m.pcs| && !Over(m.pcs[i]) && reqs[i].op.CreateConversation?
    requires Evolves(m, m'.db) && BeginsCreate(m, i, reqs[i], m')
    ensures |m'.pcs| == |reqs| && BeginsCreate(Own(reqs, m, reqs[i].sub), i, reqs[i], Own(reqs, m', reqs[i].sub))
  {
    hide Inv, FreshTrace, Share, Evolves, Settle, Own, Remembers, BranchesWhole, Unused, CreateStep;
    var e, a := reqs[i], reqs[i].sub;
    var o := CreateStep(m.db, e);
    InvParts(reqs, m);
    SharesUnused(reqs, m, i);
    OwnSettle(reqs, m, i, o.db, Finished(o.reply), a);
    ShareCreate(m.db, e);
  }

  lemma ShareCreate(d: Database, e: Call)
    requires Unused(d, e.mint) && e.op.CreateConversation?
    ensures CreateStep(Share(d, e.sub), e) == Outcome(Share(CreateStep(d, e).db, e.sub), CreateStep(d, e).reply)
  {
    hide Share;
    ShareUnused(d, e.sub, e.mint);
    ShareRow(d, NewConversation(e, e.op.title), e.sub);
  }

  lemma OwnBeginsRename(reqs: seq<Call>, m: Machine, i: nat, m': Machine)
    requires Inv(reqs, m) && i < |reqs| == |m.pcs| && reqs[i].op.RenameConversation?
    requires Evolves(m, m'.db) && BeginsRename(reqs, m, i, m')
    ensures |m'.pcs| == |reqs| && BeginsRename(reqs, Own(reqs, m, reqs[i].sub), i, Own(reqs, m', reqs[i].sub))
  {
    hide Inv, Share, Evolves, Consistent, Own, Remembers, BranchesWhole, NoRowLocked;
    var e, a, id := reqs[i], reqs[i].sub, reqs[i].op.id;
    InvParts(reqs, m);
    ShareChecks(m.db, a);
    ShareFinds(m.db, a);
    if OwnsRow(m.db, a, id) {
      IsOwned(m.db, a, id);
      ShareRow(m.db, m.db.conversations[id].(title := e.op.title, updatedAt := e.now), a);
      OwnLocks(reqs, m, id, a);
      OwnSettle(reqs, m, i, m'.db, RenameUpdated, a);
    } else {
      OwnMove(reqs, m, i, Finished(Failed(NotFound)), a);
    }
  }

  lemma OwnBeginsDelete(reqs: seq<Call>, m: Machine, i: nat, m': Machine)
    requires Inv(reqs, m) && i < |reqs| == |m.pcs| && reqs[i].op.DeleteConversation?
    requires Evolves(m, m'.db) && BeginsDelete(reqs, m, i, m')
    ensures |m'.pcs| == |reqs| && BeginsDelete(reqs, Own(reqs, m, reqs[i].sub), i, Own(reqs, m', reqs[i].sub))
  {
    hide Inv, Share, Evolves, Consistent, Own, Remembers, BranchesWhole, NoKeyShared, Cascade;
    var e, a, id := reqs[i], reqs[i].sub, reqs[i].op.id;
    InvParts(reqs, m);
    ShareChecks(m.db, a);
    if OwnsRow(m.db, a, id) {
      ShareCascadeOwn(m.db, id, a);
      OwnLocks(reqs, m, id, a);
      OwnSettle(reqs, m, i, m'.db, Finished(Deleted), a);
    } else {
      OwnMove(reqs, m, i, Finished(Failed(NotFound)), a);
    }
  }

  /** The first statement of a call that does not write leaves it where it leaves it on its subject's rows alone. */
  lemma OwnFirstPc(d: Database, e: Call)
    ensures FirstPc(Share(d, e.sub), e) == FirstPc(d, e) && OwnPc(e, FirstPc(d, e), e.sub) == FirstPc(d, e)
  {
    hide Share;
    ShareChecks(d, e.sub);
    ShareFinds(d, e.sub);
    ShareMessages(d, e.sub);
  }

  lemma ShareMessages(d: Database, a: Subject)
    ensures forall m :: OwnsMessage(d, a, m) ==> OwnsMessage(Share(d, a), a, m) && Share(d, a).messages[m] == d.messages[m]
  {
  }

  lemma OwnBeginsList(reqs: seq<Call>, m: Machine, i: nat, m': Machine)
    requires i < |reqs| == |m.pcs| && BeginsListing(m, i, reqs[i], m')
    ensures |m'.pcs| == |reqs| && BeginsListing(Own(reqs, m, reqs[i].sub), i, reqs[i], Own(reqs, m', reqs[i].sub))
  {
    hide Share, Own, Owned, Enumerates, NewestFirst;
    var a := reqs[i].sub;
    ShareLists(m.db, a);
    if a == "" {
      OwnMove(reqs, m, i, Finished(Failed(Forbidden)), a);
    } else {
      var cs :| IsListing(m.db.conversations, a, cs) && m' == Move(m, i, Finished(Conversations(cs)));
      OwnMove(reqs, m, i, Finished(Conversations(cs)), a);
      assert IsListing(Share(m.db, a).conversations, a, cs);
    }
  }

  lemma OwnBegins(reqs: seq<Call>, m: Machine, i: nat, m': Machine)
    requires FreshTrace(reqs) && Inv(reqs, m) && i < |reqs| == |m.pcs| && m.pcs[i].Ready? && Begins(reqs, m, i, m') && Evolves(m, m'.db)
    ensures |m'.pcs| == |reqs| && Begins(reqs, Own(reqs, m, reqs[i].sub), i, Own(reqs, m', reqs[i].sub))
  {
    hide Inv, FreshTrace, Own, Evolves, BeginsCreate, BeginsRename, BeginsDelete, BeginsListing, FirstPc, Share;
    match reqs[i].op
    case CreateConversation(_) => OwnBeginsCreate(reqs, m, i, m');
    case RenameConversation(_, _) => OwnBeginsRename(reqs, m, i, m');
    case DeleteConversation(_) => OwnBeginsDelete(reqs, m, i, m');
    case ListConversations => OwnBeginsList(reqs, m, i, m');
    case _ =>
      OwnFirstPc(m.db, reqs[i]);
      OwnMove(reqs, m, i, FirstPc(m.db, reqs[i]), reqs[i].sub);
  }

  // Later statements

  lemma OwnAppendInserts(reqs: seq<Call>, m: Machine, i: nat, m': Machine)
    requires FreshTrace(reqs) && Inv(reqs, m) && i < |reqs| == |m.pcs| && m.pcs[i].AppendChecked? && AppendInserts(m, i, reqs[i], m')
    ensures |m'.pcs| == |reqs| && AppendInserts(Own(reqs, m, reqs[i].sub), i, reqs[i], Own(reqs, m', reqs[i].sub))
  {
    hide Inv, FreshTrace, Share, Own, Consistent, BranchesWhole, Remembers, Unused, AppendRow, InsertMessage;
    var e, a := reqs[i], reqs[i].sub;
    InvParts(reqs, m);
    SharesUnused(reqs, m, i);
    if e.op.conversationId in m.db.conversations {
      assert PcOk(e, m, AppendChecked);
      StillOwned(reqs, m, i, e.op.conversationId);
    }
    ShareInserts(m.db, e);
    OwnMove(reqs, m, i, After(InsertMessage(m.db, e.mint(0), AppendRow(e)), AppendInserted), a);
  }

  /** An insert that fails fails alone, one that does not does not. */
  lemma ShareInserts(d: Database, e: Call)
    requires Unused(d, e.mint) && e.op.AppendMessage?
    requires e.op.conversationId in d.conversations ==> OwnsRow(d, e.sub, e.op.conversationId)
    ensures After(InsertMessage(Share(d, e.sub), e.mint(0), AppendRow(e)), AppendInserted)
         == After(InsertMessage(d, e.mint(0), AppendRow(e)), AppendInserted)
  {
    hide Share;
    ShareUnused(d, e.sub, e.mint);
    ShareChecks(d, e.sub);
    ShareRowsLess(d, e.sub);
  }

  lemma ShareRowsLess(d: Database, a: Subject)
    ensures forall c :: c in Share(d, a).conversations ==> OwnsRow(d, a, c)
    ensures forall x :: x in Share(d, a).messages ==> OwnsMessage(d, a, x)
  {
  }

  lemma OwnAppendCommits(reqs: seq<Call>, m: Machine, i: nat, m': Machine)
    requires FreshTrace(reqs) && Inv(reqs, m) && i < |reqs| == |m.pcs| && m.pcs[i].AppendTouched? && AppendCommits(m, i, reqs[i], m')
    requires Evolves(m, m'.db)
    ensures |m'.pcs| == |reqs| && AppendCommits(Own(reqs, m, reqs[i].sub), i, reqs[i], Own(reqs, m', reqs[i].sub))
  {
    hide Inv, FreshTrace, Share, Own, Consistent, BranchesWhole, Evolves, Remembers, Settle, Unused, AppendCommit, AppendRow, ToMessage;
    var e, a := reqs[i], reqs[i].sub;
    InvParts(reqs, m);
    assert PcOk(e, m, AppendTouched);
    SharesUnused(reqs, m, i);
    ShareAppend(m.db, e);
    OwnSettle(reqs, m, i, AppendCommit(m.db, e), Finished(OneMessage(ToMessage(e.mint(0), AppendRow(e)))), a);
  }

  lemma ShareAppend(d: Database, e: Call)
    requires Consistent(d) && Unused(d, e.mint) && e.op.AppendMessage? && OwnsRow(d, e.sub, e.op.conversationId)
    ensures OwnsRow(Share(d, e.sub), e.sub, e.op.conversationId)
    ensures Share(AppendCommit(d, e), e.sub) == AppendCommit(Share(d, e.sub), e)
    ensures forall a :: a != e.sub ==> Share(AppendCommit(d, e), a) == Share(d, a)
  {
    hide Share, Consistent;
    var c := e.op.conversationId;
    ShareChecks(d, e.sub);
    ShareFinds(d, e.sub);
    IsOwned(d, e.sub, c);
    var d1 := d.(messages := d.messages[e.mint(0) := AppendRow(e)]);
    forall a ensures Share(d1, a) == if a == e.sub then Share(d, a).(messages := Share(d, a).messages[e.mint(0) := AppendRow(e)]) else Share(d, a) {
      ShareMessage(d, e.mint(0), AppendRow(e), a);
    }
    forall a ensures Share(AppendCommit(d, e), a) == if a == e.sub then AppendCommit(Share(d, a), e) else Share(d, a) {
      ShareRow(d1, d.conversations[c].(updatedAt := e.now), a);
    }
  }

  lemma OwnAppendTouches(reqs: seq<Call>, m: Machine, i: nat, m': Machine)
    requires i < |reqs| == |m.pcs| && AppendTouches(reqs, m, i, m')
    ensures |m'.pcs| == |reqs| && AppendTouches(reqs, Own(reqs, m, reqs[i].sub), i, Own(reqs, m', reqs[i].sub))
  {
    hide Own, NoRowLocked;
    OwnMove(reqs, m, i, AppendTouched, reqs[i].sub);
    OwnLocks(reqs, m, reqs[i].op.conversationId, reqs[i].sub);
  }

  lemma OwnListReads(reqs: seq<Call>, m: Machine, i: nat, m': Machine)
    requires i < |reqs| == |m.pcs| && ListReads(m, i, reqs[i], m')
    ensures |m'.pcs| == |reqs| && ListReads(Own(reqs, m, reqs[i].sub), i, reqs[i], Own(reqs, m', reqs[i].sub))
  {
    hide Own, Share, Selected, Enumerates, OldestFirst;
    var e, a := reqs[i], reqs[i].sub;
    ShareSelects(m.db, a, e.op.conversationId, None);
    var ms :| IsResult(m.db, e.op.conversationId, e.sub, None, ms) && m' == Move(m, i, Finished(Messages(ms)));
    OwnMove(reqs, m, i, Finished(Messages(ms)), a);
    assert IsResult(Share(m.db, a), e.op.conversationId, e.sub, None, ms);
  }

  lemma OwnUpsertWrites(reqs: seq<Call>, m: Machine, i: nat, m': Machine)
    requires Inv(reqs, m) && i < |reqs| == |m.pcs| && m.pcs[i].UpsertChecked? && UpsertWrites(m, i, reqs[i], m') && Evolves(m, m'.db)
    ensures |m'.pcs| == |reqs| && UpsertWrites(Own(reqs, m, reqs[i].sub), i, reqs[i], Own(reqs, m', reqs[i].sub))
  {
    hide Inv, Own, Share, Consistent, BranchesWhole, Evolves, Settle;
    var e, a := reqs[i], reqs[i].sub;
    InvParts(reqs, m);
    assert PcOk(e, m, UpsertChecked);
    var f := NewFeedback(e);
    ShareUpserts(m.db, f);
    if f.messageId in m.db.messages {
      OwnSettle(reqs, m, i, UpsertRow(m.db, f).db, Finished(OneFeedback(f)), a);
    } else {
      OwnMove(reqs, m, i, After(UpsertRow(m.db, f), Finished(OneFeedback(f))), a);
    }
  }

  lemma ShareUpserts(d: Database, f: Feedback)
    requires f.messageId in d.messages ==> OwnsMessage(d, f.sub, f.messageId)
    ensures UpsertRow(Share(d, f.sub), f) ==
      match UpsertRow(d, f)
      case Done(d', n) => Done(Share(d', f.sub), n)
      case Raised(err) => Raised(err)
  {
    hide Share;
    ShareChecks(d, f.sub);
    ShareRowsLess(d, f.sub);
    ShareFeedback(d, FeedbackKey(f.sub, f.messageId), f, f.sub);
  }

  lemma OwnRenameReads(reqs: seq<Call>, m: Machine, i: nat, m': Machine)
    requires i < |reqs| == |m.pcs| && RenameReads(m, i, reqs[i], m')
    ensures |m'.pcs| == |reqs| && RenameReads(Own(reqs, m, reqs[i].sub), i, reqs[i], Own(reqs, m', reqs[i].sub))
  {
    hide Own, Share;
    var e, a := reqs[i], reqs[i].sub;
    ShareChecks(m.db, a);
    ShareFinds(m.db, a);
    OwnMove(reqs, m, i, Finished(GetStep(m.db, a, e.op.id)), a);
  }

  lemma OwnBranchInserts(reqs: seq<Call>, m: Machine, i: nat, m': Machine)
    requires FreshTrace(reqs) && Inv(reqs, m) && i < |reqs| == |m.pcs| && m.pcs[i].BranchResolved? && BranchInserts(m, i, reqs[i], m')
    ensures |m'.pcs| == |reqs| && BranchInserts(Own(reqs, m, reqs[i].sub), i, reqs[i], Own(reqs, m', reqs[i].sub))
  {
    hide Inv, FreshTrace, Own, Share, DefaultTitle;
    var e, a, pc := reqs[i], reqs[i].sub, m.pcs[i];
    SharesUnused(reqs, m, i);
    ShareUnused(m.db, a, e.mint);
    var head := NewConversation(e, DefaultTitle(e.op.title, pc.srcTitle));
    OwnMove(reqs, m, i, After(InsertConversation(m.db, head), BranchInserted(head, pc.src, pc.cut)), a);
  }

  lemma OwnBranchReads(reqs: seq<Call>, m: Machine, i: nat, m': Machine)
    requires i < |reqs| == |m.pcs| && m.pcs[i].BranchInserted? && BranchReads(m, i, reqs[i], m')
    ensures |m'.pcs| == |reqs| && BranchReads(Own(reqs, m, reqs[i].sub), i, reqs[i], Own(reqs, m', reqs[i].sub))
  {
    hide Own, Share, Selected, Enumerates, OldestFirst;
    var e, a, pc := reqs[i], reqs[i].sub, m.pcs[i];
    ShareSelects(m.db, a, pc.src, Some(pc.cut));
    var ms :| IsResult(m.db, pc.src, e.sub, Some(pc.cut), ms)
              && m' == Move(m, i, BranchCopying(pc.head, Graft(m.db, pc.src, pc.cut, ms), 0));
    OwnMove(reqs, m, i, BranchCopying(pc.head, Graft(m.db, pc.src, pc.cut, ms), 0), a);
    assert IsResult(Share(m.db, a), pc.src, e.sub, Some(pc.cut), ms);
  }

  lemma OwnBranchCopies(reqs: seq<Call>, m: Machine, i: nat, m': Machine)
    requires FreshTrace(reqs) && Inv(reqs, m) && i < |reqs| == |m.pcs| && m.pcs[i].BranchCopying? && BranchCopies(m, i, reqs[i], m')
    ensures |m'.pcs| == |reqs| && BranchCopies(Own(reqs, m, reqs[i].sub), i, reqs[i], Own(reqs, m', reqs[i].sub))
  {
    hide Inv, FreshTrace, Own, Share;
    var e, a, pc := reqs[i], reqs[i].sub, m.pcs[i];
    SharesUnused(reqs, m, i);
    ShareUnused(m.db, a, e.mint);
    OwnMove(reqs, m, i, BranchCopying(pc.head, pc.graft, pc.done + 1), a);
  }

  lemma OwnBranchCommits(reqs: seq<Call>, m: Machine, i: nat, m': Machine)
    requires FreshTrace(reqs) && Inv(reqs, m) && i < |reqs| == |m.pcs| && m.pcs[i].BranchCopying? && BranchCommits(m, i, reqs[i], m')
    requires Evolves(m, m'.db)
    ensures |m'.pcs| == |reqs| && BranchCommits(Own(reqs, m, reqs[i].sub), i, reqs[i], Own(reqs, m', reqs[i].sub))
  {
    hide Inv, FreshTrace, Share, Evolves, Consistent, Remembers, BranchesWhole, GraftRows, Unused, IsResult, BranchCommit, Own;
    InvParts(reqs, m);
    var e, a, head, copied := reqs[i], reqs[i].sub, m.pcs[i].head, m.pcs[i].graft.copied;
    assert PcOk(e, m, m.pcs[i]);
    SharesUnused(reqs, m, i);
    ShareCommit(m.db, e, head, copied, a);
    var rows := GraftRows(e, head, copied);
    var t := Settle(m, i, BranchCommit(m.db, head, rows), Finished(OneConversation(head)));
    OwnSettle(reqs, m, i, t.db, Finished(OneConversation(head)), a);
    SettledHead(m, i, head, rows);
    OwnWithBranch(reqs, t, m', head.id, rows, a);
  }

  lemma SettledHead(m: Machine, i: nat, head: Conversation, rows: map<Id, MessageRow>)
    requires i < |m.pcs|
    ensures var t := Settle(m, i, BranchCommit(m.db, head, rows), Finished(OneConversation(head)));
      head.id in t.owners && t.owners[head.id] == head.sub
  {
  }

  /** Recording a branch, for the machine and for the subject alone. */
  lemma OwnWithBranch(reqs: seq<Call>, t: Machine, m': Machine, b: Id, rows: map<Id, MessageRow>, a: Subject)
    requires |t.pcs| == |reqs| && m' == t.(branches := t.branches[b := rows]) && b in t.owners
    ensures t.owners[b] == a ==> Own(reqs, m', a) == Own(reqs, t, a).(branches := OnlyBranches(t, a)[b := rows])
    ensures t.owners[b] != a && b !in t.branches ==> Own(reqs, m', a) == Own(reqs, t, a)
  {
  }

  lemma OwnContinues(reqs: seq<Call>, m: Machine, i: nat, m': Machine)
    requires FreshTrace(reqs) && Inv(reqs, m) && i < |reqs| == |m.pcs| && !m.pcs[i].Ready? && !Over(m.pcs[i]) && Continues(reqs, m, i, m')
    requires Evolves(m, m'.db)
    ensures |m'.pcs| == |reqs| && Continues(reqs, Own(reqs, m, reqs[i].sub), i, Own(reqs, m', reqs[i].sub))
  {
    hide Inv, FreshTrace, Evolves, Own, Share, AppendInserts, AppendTouches, AppendCommits, ListReads, UpsertWrites, RenameReads, BranchInserts, BranchReads, BranchCopies, BranchCommits;
    match m.pcs[i]
    case AppendChecked => OwnAppendInserts(reqs, m, i, m');
    case AppendInserted => OwnAppendTouches(reqs, m, i, m');
    case AppendTouched => OwnAppendCommits(reqs, m, i, m');
    case ListChecked => OwnListReads(reqs, m, i, m');
    case UpsertChecked => OwnUpsertWrites(reqs, m, i, m');
    case RenameUpdated => OwnRenameReads(reqs, m, i, m');
    case BranchResolved(_, _, _) => OwnBranchInserts(reqs, m, i, m');
    case BranchInserted(_, _, _) => OwnBranchReads(reqs, m, i, m');
    case BranchCopying(_, graft, done) =>
      if done < |graft.copied| {
        OwnBranchCopies(reqs, m, i, m');
      } else {
        OwnBranchCommits(reqs, m, i, m');
      }
  }

  /** The subject's own event happens just so when nobody else has moved. */
  lemma OwnHappens(reqs: seq<Call>, m: Machine, i: nat, m': Machine)
    requires FreshTrace(reqs) && Inv(reqs, m) && Happens(reqs, m, i, m')
    ensures i < |reqs| == |m'.pcs| && Happens(reqs, Own(reqs, m, reqs[i].sub), i, Own(reqs, m', reqs[i].sub))
  {
    hide Inv, FreshTrace, Begins, Continues, Own, Evolves;
    InvParts(reqs, m);
    var a := reqs[i].sub;
    if Step(reqs, m, i, m') {
      StepKeepsInv(reqs, m, i, m');
    }
    if Loses(m, i, m') {
      OwnMove(reqs, m, i, Unheard(m.pcs[i].reply), a);
    } else if Breaks(m, i, m') {
      OwnMove(reqs, m, i, Finished(Failed(Internal)), a);
    } else if m.pcs[i].Ready? {
      OwnBegins(reqs, m, i, m');
    } else {
      OwnContinues(reqs, m, i, m');
    }
  }

  // --- The steps of other subjects

  lemma OtherMove(reqs: seq<Call>, m: Machine, i: nat, pc: Pc, a: Subject)
    requires i < |m.pcs| == |reqs| && reqs[i].sub != a
    ensures Own(reqs, Move(m, i, pc), a) == Own(reqs, m, a)
  {
    OwnPcsUpdate(reqs, m.pcs, i, pc, a);
    assert OwnPcs(reqs, m.pcs, a)[i := Ready] == OwnPcs(reqs, m.pcs, a);
  }

  lemma OnlyKnown(m: Machine, db: Database, a: Subject)
    requires Remembers(m) && Share(db, a) == Share(m.db, a)
    ensures Only(m.owners, a) + OwnersIn(Share(db, a)) == Only(m.owners, a)
    ensures Only(m.authors, a) + AuthorsIn(Share(db, a)) == Only(m.authors, a)
  {
    ShareRowsLess(m.db, a);
  }

  lemma OtherSettle(reqs: seq<Call>, m: Machine, i: nat, db: Database, pc: Pc, a: Subject)
    requires i < |m.pcs| == |reqs| && Remembers(m) && Evolves(m, db) && BranchesWhole(m)
    requires reqs[i].sub != a && Share(db, a) == Share(m.db, a)
    ensures Own(reqs, Settle(m, i, db, pc), a) == Own(reqs, m, a)
  {
    hide Evolves, Remembers, BranchesWhole, Only, OnlyBranches, Share;
    OwnSettle(reqs, m, i, db, pc, a);
    OnlyKnown(m, db, a);
    assert OwnPcs(reqs, m.pcs, a)[i := Ready] == OwnPcs(reqs, m.pcs, a);
  }

  lemma OtherBegins(reqs: seq<Call>, m: Machine, i: nat, m': Machine, a: Subject)
    requires FreshTrace(reqs) && Inv(reqs, m) && i < |reqs| == |m.pcs| && m.pcs[i].Ready? && Begins(reqs, m, i, m') && Evolves(m, m'.db)
    requires reqs[i].sub != a
    ensures |m'.pcs| == |reqs| && Own(reqs, m', a) == Own(reqs, m, a)
  {
    hide Inv, FreshTrace, Share, Evolves, Consistent, Own, Remembers, BranchesWhole, NoRowLocked, NoKeyShared, Cascade, IsListing, Settle, Unused, FirstPc, CreateStep;
    var e, d := reqs[i], m.db;
    InvParts(reqs, m);
    match e.op
    case CreateConversation(_) =>
      SharesUnused(reqs, m, i);
      OtherCreate(d, e, a);
      OtherSettle(reqs, m, i, m'.db, Finished(CreateStep(d, e).reply), a);
    case RenameConversation(id, title) =>
      if OwnsRow(d, e.sub, id) {
        IsOwned(d, e.sub, id);
        ShareRow(d, d.conversations[id].(title := title, updatedAt := e.now), a);
        OtherSettle(reqs, m, i, m'.db, RenameUpdated, a);
      } else {
        OtherMove(reqs, m, i, Finished(Failed(NotFound)), a);
      }
    case DeleteConversation(id) =>
      if OwnsRow(d, e.sub, id) {
        ShareCascadeOther(d, id, e.sub, a);
        OtherSettle(reqs, m, i, m'.db, Finished(Deleted), a);
      } else {
        OtherMove(reqs, m, i, Finished(Failed(NotFound)), a);
      }
    case ListConversations => OtherMove(reqs, m, i, m'.pcs[i], a);
    case _ => OtherMove(reqs, m, i, FirstPc(d, e), a);
  }

  lemma OtherCreate(d: Database, e: Call, a: Subject)
    requires Unused(d, e.mint) && e.op.CreateConversation? && e.sub != a
    ensures Share(CreateStep(d, e).db, a) == Share(d, a)
  {
    hide Share;
    ShareRow(d, NewConversation(e, e.op.title), a);
  }

  lemma OtherBranchCommits(reqs: seq<Call>, m: Machine, i: nat, m': Machine, a: Subject)
    requires FreshTrace(reqs) && Inv(reqs, m) && i < |reqs| == |m.pcs| && m.pcs[i].BranchCopying? && BranchCommits(m, i, reqs[i], m')
    requires reqs[i].sub != a && Evolves(m, m'.db)
    ensures |m'.pcs| == |reqs| && Own(reqs, m', a) == Own(reqs, m, a)
  {
    hide Inv, FreshTrace, Share, Evolves, Consistent, Remembers, BranchesWhole, GraftRows, Unused, IsResult, BranchCommit, Own;
    InvParts(reqs, m);
    var e, head, copied := reqs[i], m.pcs[i].head, m.pcs[i].graft.copied;
    assert PcOk(e, m, m.pcs[i]);
    SharesUnused(reqs, m, i);
    ShareCommit(m.db, e, head, copied, a);
    var rows := GraftRows(e, head, copied);
    var t := Settle(m, i, BranchCommit(m.db, head, rows), Finished(OneConversation(head)));
    OtherSettle(reqs, m, i, t.db, Finished(OneConversation(head)), a);
    SettledHead(m, i, head, rows);
    NewBranch(reqs, m, i);
    OwnWithBranch(reqs, t, m', head.id, rows, a);
  }

  lemma NewBranch(reqs: seq<Call>, m: Machine, i: nat)
    requires Inv(reqs, m) && i < |reqs| && !Over(m.pcs[i])
    ensures reqs[i].mint(0) !in m.branches
  {
    assert reqs[i].mint(0) !in m.owners;
  }

  lemma OtherWrites(reqs: seq<Call>, m: Machine, i: nat, m': Machine, a: Subject)
    requires FreshTrace(reqs) && Inv(reqs, m) && i < |reqs| == |m.pcs| && reqs[i].sub != a && Evolves(m, m'.db)
    requires (m.pcs[i].AppendTouched? && AppendCommits(m, i, reqs[i], m')) || (m.pcs[i].UpsertChecked? && UpsertWrites(m, i, reqs[i], m'))
    ensures |m'.pcs| == |reqs| && Own(reqs, m', a) == Own(reqs, m, a)
  {
    hide Inv, FreshTrace, Share, Evolves, Consistent, Own, Remembers, BranchesWhole, Settle, Unused, AppendCommit, AppendRow, ToMessage;
    InvParts(reqs, m);
    var e, d := reqs[i], m.db;
    SharesUnused(reqs, m, i);
    if m.pcs[i].AppendTouched? {
      assert PcOk(e, m, AppendTouched);
      ShareAppend(d, e);
      OtherSettle(reqs, m, i, m'.db, Finished(OneMessage(ToMessage(e.mint(0), AppendRow(e)))), a);
    } else {
      var f := NewFeedback(e);
      if UpsertRow(d, f).Done? {
        ShareFeedback(d, FeedbackKey(e.sub, f.messageId), f, a);
        OtherSettle(reqs, m, i, m'.db, Finished(OneFeedback(f)), a);
      } else {
        OtherMove(reqs, m, i, After(UpsertRow(d, f), Finished(OneFeedback(f))), a);
      }
    }
  }

  lemma OtherContinues(reqs: seq<Call>, m: Machine, i: nat, m': Machine, a: Subject)
    requires FreshTrace(reqs) && Inv(reqs, m) && i < |reqs| == |m.pcs| && !m.pcs[i].Ready? && !Over(m.pcs[i]) && Continues(reqs, m, i, m')
    requires reqs[i].sub != a && Evolves(m, m'.db)
    ensures |m'.pcs| == |reqs| && Own(reqs, m', a) == Own(reqs, m, a)
  {
    hide Inv, FreshTrace, Share, Evolves, Own, AppendInserts, AppendTouches, AppendCommits, ListReads, UpsertWrites, RenameReads, BranchInserts, BranchReads, BranchCopies, BranchCommits;
    match m.pcs[i]
    case AppendTouched => OtherWrites(reqs, m, i, m', a);
    case UpsertChecked => OtherWrites(reqs, m, i, m', a);
    case BranchCopying(_, graft, done) =>
      if done < |graft.copied| {
        OtherBranchReads(reqs, m, i, m', a);
      } else {
        OtherBranchCommits(reqs, m, i, m', a);
      }
    case BranchResolved(_, _, _) => OtherBranchReads(reqs, m, i, m', a);
    case BranchInserted(_, _, _) => OtherBranchReads(reqs, m, i, m', a);
    case AppendChecked => OtherReads(reqs, m, i, m', a);
    case AppendInserted => OtherReads(reqs, m, i, m', a);
    case ListChecked => OtherReads(reqs, m, i, m', a);
    case RenameUpdated => OtherReads(reqs, m, i, m', a);
  }

  lemma OtherBranchReads(reqs: seq<Call>, m: Machine, i: nat, m': Machine, a: Subject)
    requires i < |reqs| == |m.pcs| && reqs[i].sub != a
    requires match m.pcs[i]
      case BranchResolved(_, _, _) => BranchInserts(m, i, reqs[i], m')
      case BranchInserted(_, _, _) => BranchReads(m, i, reqs[i], m')
      case BranchCopying(_, _, _) => BranchCopies(m, i, reqs[i], m')
      case _ => false
    ensures |m'.pcs| == |reqs| && Own(reqs, m', a) == Own(reqs, m, a)
  {
    hide Own, IsResult;
    OtherMove(reqs, m, i, m'.pcs[i], a);
  }

  lemma OtherReads(reqs: seq<Call>, m: Machine, i: nat, m': Machine, a: Subject)
    requires i < |reqs| == |m.pcs| && reqs[i].sub != a
    requires match m.pcs[i]
      case AppendChecked => AppendInserts(m, i, reqs[i], m')
      case AppendInserted => AppendTouches(reqs, m, i, m')
      case ListChecked => ListReads(m, i, reqs[i], m')
      case RenameUpdated => RenameReads(m, i, reqs[i], m')
      case _ => false
    ensures |m'.pcs| == |reqs| && Own(reqs, m', a) == Own(reqs, m, a)
  {
    hide Own, IsResult, NoRowLocked, AppendRow, GetStep;
    OtherMove(reqs, m, i, m'.pcs[i], a);
  }

  /** Another subject's event changes nothing in the machine with the subject's rows and clients alone. */
  lemma OtherHappens(reqs: seq<Call>, m: Machine, i: nat, m': Machine, a: Subject)
    requires FreshTrace(reqs) && Inv(reqs, m) && Happens(reqs, m, i, m') && i < |reqs| && reqs[i].sub != a
    ensures |m'.pcs| == |reqs| && Own(reqs, m', a) == Own(reqs, m, a)
  {
    hide Inv, FreshTrace, Begins, Continues, Own, Evolves;
    InvParts(reqs, m);
    if Step(reqs, m, i, m') {
      StepKeepsInv(reqs, m, i, m');
    }
    if Loses(m, i, m') {
      OtherMove(reqs, m, i, Unheard(m.pcs[i].reply), a);
    } else if Breaks(m, i, m') {
      OtherMove(reqs, m, i, Finished(Failed(Internal)), a);
    } else if m.pcs[i].Ready? {
      OtherBegins(reqs, m, i, m', a);
    } else {
      OtherContinues(reqs, m, i, m', a);
    }
  }

  // --- Whole executions

  /** The moves of the subject's clients. */
  function MovesOf(reqs: seq<Call>, who: seq<nat>, a: Subject): (own: seq<nat>)
    requires forall t :: 0 <= t < |who| ==> who[t] < |reqs|
  {
    if who == [] then []
    else
      var rest := MovesOf(reqs, who[..|who| - 1], a);
      if reqs[who[|who| - 1]].sub == a then rest + [who[|who| - 1]] else rest
  }

  lemma InitOwn(reqs: seq<Call>, m: Machine, a: Subject)
    requires Init(reqs, m)
    ensures Own(reqs, m, a) == m && Execution(reqs, [m], [])
  {
    assert Own(reqs, m, a).pcs == m.pcs;
  }

  /** Take any execution and leave out every move of every other subject's clients: what remains is an execution,
      which ends with the subject's rows and its clients as they were. */
  lemma {:induction false} OwnExecution(reqs: seq<Call>, ms: seq<Machine>, who: seq<nat>, a: Subject)
    returns (own: seq<Machine>)
    requires FreshTrace(reqs) && Execution(reqs, ms, who)
    ensures |ms[|who|].pcs| == |reqs| && forall t :: 0 <= t < |who| ==> who[t] < |reqs|
    ensures Execution(reqs, own, MovesOf(reqs, who, a))
    ensures own[|MovesOf(reqs, who, a)|] == Own(reqs, ms[|who|], a)
    decreases |who|
  {
    hide Happens, Inv, FreshTrace, Init, Own;
    SizesStay(reqs, ms, who);
    if who == [] {
      InitOwn(reqs, ms[0], a);
      own := [ms[0]];
    } else {
      var n := |who| - 1;
      ExecutionPrefix(reqs, ms, who, n);
      own := OwnExecution(reqs, ms[..n + 1], who[..n], a);
      ExecutionSafe(reqs, ms, who, n);
      assert Happens(reqs, ms[n], who[n], ms[n + 1]) && ms[..n + 1][n] == ms[n];
      if reqs[who[n]].sub == a {
        OwnHappens(reqs, ms[n], who[n], ms[n + 1]);
        ExtendExecution(reqs, own, MovesOf(reqs, who[..n], a), who[n], Own(reqs, ms[n + 1], a));
        own := own + [Own(reqs, ms[n + 1], a)];
      } else {
        OtherHappens(reqs, ms[n], who[n], ms[n + 1], a);
      }
    }
  }

  /** So every reply the subject's clients got they could have got with nobody else there. */
  lemma SameRepliesAlone(reqs: seq<Call>, ms: seq<Machine>, who: seq<nat>, a: Subject)
    returns (own: seq<Machine>)
    requires FreshTrace(reqs) && Execution(reqs, ms, who)
    ensures |ms[|who|].pcs| == |reqs| && forall t :: 0 <= t < |who| ==> who[t] < |reqs|
    ensures var moves := MovesOf(reqs, who, a);
      && Execution(reqs, own, moves) && |own[|moves|].pcs| == |reqs|
      && own[|moves|].db == Share(ms[|who|].db, a)
      && forall i :: 0 <= i < |reqs| ==>
           if reqs[i].sub != a then own[|moves|].pcs[i].Ready?
           else Over(ms[|who|].pcs[i]) ==> own[|moves|].pcs[i] == ms[|who|].pcs[i]
  {
    hide Execution, FreshTrace, Share;
    own := OwnExecution(reqs, ms, who, a);
  }
}
