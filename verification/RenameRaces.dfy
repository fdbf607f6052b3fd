/** When a rename answers as the sequential rename would: its update and its read are two statements. */
module RenameRaces {
  import opened StoreTypes
  import opened Tables
  import opened RelationalSpec
  import opened Interleaving
  import opened InterleavingSafety
  import opened Linearization
  import opened Explanations
  import opened ConcurrentHistory

  /** In this step a rename, append or delete of conversation `c` takes effect. */
  predicate Touches(e: Call, m: Machine, i: nat, m': Machine, c: Id) {
    && Marks(m, i, m')
    && match e.op
       case RenameConversation(id, _) => id == c && m'.pcs[i].RenameUpdated?
       case AppendMessage(id, _, _) => id == c && m'.pcs[i].Finished? && m'.pcs[i].reply.OneMessage?
       case DeleteConversation(id) => id == c && m'.pcs[i] == Finished(Deleted)
       case _ => false
  }

  predicate SameRow(d: Database, d': Database, c: Id) {
    (c in d'.conversations <==> c in d.conversations) && (c in d.conversations ==> d'.conversations[c] == d.conversations[c])
  }

  /** What a step does to the row of an old conversation: nothing, unless it touches it; then the row carries the time
      of the call, or is gone. */
  predicate RowMoves(e: Call, m: Machine, i: nat, m': Machine, c: Id) {
    if !Touches(e, m, i, m', c) then SameRow(m.db, m'.db, c)
    else if e.op.DeleteConversation? then c !in m'.db.conversations
    else c in m.db.conversations && c in m'.db.conversations && m'.db.conversations[c].updatedAt == e.now
  }

  // --- One step

  lemma NewIdIsNotOld(reqs: seq<Call>, m: Machine, i: nat, c: Id)
    requires i < |reqs| && Inv(reqs, m) && !Over(m.pcs[i]) && c in m.owners
    ensures reqs[i].mint(0) != c
  {
    hide Consistent, Remembers, BranchesWhole, BranchesGone, OneLock, PcOk;
    assert reqs[i].mint(0) !in m.owners;
  }

  lemma CreateMoves(reqs: seq<Call>, m: Machine, i: nat, m': Machine, c: Id)
    requires i < |reqs| == |m.pcs| && reqs[i].op.CreateConversation? && BeginsCreate(m, i, reqs[i], m') && reqs[i].mint(0) != c
    ensures RowMoves(reqs[i], m, i, m', c)
  {
  }

  lemma RenameMoves(reqs: seq<Call>, m: Machine, i: nat, m': Machine, c: Id)
    requires i < |reqs| == |m.pcs| && m.pcs[i].Ready? && reqs[i].op.RenameConversation? && BeginsRename(reqs, m, i, m')
    ensures RowMoves(reqs[i], m, i, m', c)
  {
    hide NoRowLocked;
  }

  lemma DeleteMoves(reqs: seq<Call>, m: Machine, i: nat, m': Machine, c: Id)
    requires i < |reqs| == |m.pcs| && m.pcs[i].Ready? && reqs[i].op.DeleteConversation? && BeginsDelete(reqs, m, i, m')
    ensures RowMoves(reqs[i], m, i, m', c)
  {
    hide NoKeyShared, MessagesIn;
  }

  lemma AppendMoves(m: Machine, i: nat, e: Call, m': Machine, c: Id)
    requires i < |m.pcs| && m.pcs[i].AppendTouched? && AppendCommits(m, i, e, m')
    ensures RowMoves(e, m, i, m', c)
  {
  }

  lemma StillMoves(e: Call, m: Machine, i: nat, m': Machine, c: Id)
    requires m'.db.conversations == m.db.conversations
    requires i < |m'.pcs| && !m'.pcs[i].RenameUpdated? && (Over(m'.pcs[i]) ==> m'.pcs[i].reply != Deleted && !m'.pcs[i].reply.OneMessage?)
    ensures RowMoves(e, m, i, m', c)
  {
  }

  lemma FirstPcReply(d: Database, e: Call)
    ensures var pc := FirstPc(d, e); Over(pc) ==> pc.reply != Deleted && !pc.reply.OneMessage?
  {
  }

  lemma BeginMoves(reqs: seq<Call>, m: Machine, i: nat, m': Machine, c: Id)
    requires i < |reqs| == |m.pcs| && m.pcs[i].Ready? && Begins(reqs, m, i, m') && reqs[i].mint(0) != c
    ensures RowMoves(reqs[i], m, i, m', c)
  {
    hide RowMoves, BeginsCreate, BeginsRename, BeginsDelete, FirstPc, IsListing;
    match reqs[i].op
    case CreateConversation(_) => CreateMoves(reqs, m, i, m', c);
    case RenameConversation(_, _) => RenameMoves(reqs, m, i, m', c);
    case DeleteConversation(_) => DeleteMoves(reqs, m, i, m', c);
    case ListConversations => StillMoves(reqs[i], m, i, m', c);
    case _ =>
      FirstPcMidway(m.db, reqs[i]);
      FirstPcReply(m.db, reqs[i]);
      StillMoves(reqs[i], m, i, m', c);
  }

  lemma UpsertMoves(m: Machine, i: nat, e: Call, m': Machine, c: Id)
    requires i < |m.pcs| && UpsertWrites(m, i, e, m')
    ensures RowMoves(e, m, i, m', c)
  {
    hide RowMoves;
    StillMoves(e, m, i, m', c);
  }

  lemma BranchMoves(m: Machine, i: nat, e: Call, m': Machine, c: Id)
    requires i < |m.pcs| && m.pcs[i].BranchCopying? && BranchCommits(m, i, e, m') && m.pcs[i].head.id != c
    requires e.op.BranchFromMessage?
    ensures RowMoves(e, m, i, m', c)
  {
    hide GraftRows;
  }

  lemma ContinueMoves(reqs: seq<Call>, m: Machine, i: nat, m': Machine, c: Id)
    requires i < |reqs| == |m.pcs| && Continues(reqs, m, i, m') && reqs[i].mint(0) != c && PcOk(reqs[i], m, m.pcs[i])
    ensures RowMoves(reqs[i], m, i, m', c)
  {
    hide RowMoves, AppendCommits, UpsertWrites, BranchCommits, IsResult, NoRowLocked, AppendRow, Injective;
    match m.pcs[i]
    case AppendTouched => AppendMoves(m, i, reqs[i], m', c);
    case UpsertChecked => UpsertMoves(m, i, reqs[i], m', c);
    case BranchCopying(_, graft, done) =>
      if done < |graft.copied| {
        StillMoves(reqs[i], m, i, m', c);
      } else {
        BranchMoves(m, i, reqs[i], m', c);
      }
    case AppendChecked => StillMoves(reqs[i], m, i, m', c);
    case AppendInserted => StillMoves(reqs[i], m, i, m', c);
    case ListChecked => StillMoves(reqs[i], m, i, m', c);
    case RenameUpdated => StillMoves(reqs[i], m, i, m', c);
    case BranchResolved(_, _, _) => StillMoves(reqs[i], m, i, m', c);
    case BranchInserted(_, _, _) => StillMoves(reqs[i], m, i, m', c);
  }

  /** The frame of every event. */
  lemma HappeningMoves(reqs: seq<Call>, m: Machine, i: nat, m': Machine, c: Id)
    requires Inv(reqs, m) && Happens(reqs, m, i, m') && c in m.owners
    ensures i < |reqs| && RowMoves(reqs[i], m, i, m', c)
  {
    hide Inv, Begins, Continues, PcOk, RowMoves;
    SizesAgree(reqs, m);
    if Loses(m, i, m') {
      LossMoves(reqs[i], m, i, m', c);
    } else {
      NewIdIsNotOld(reqs, m, i, c);
      if Breaks(m, i, m') {
        StillMoves(reqs[i], m, i, m', c);
      } else if m.pcs[i].Ready? {
        BeginMoves(reqs, m, i, m', c);
      } else {
        ContinueMoves(reqs, m, i, m', c);
      }
    }
  }

  lemma LossMoves(e: Call, m: Machine, i: nat, m': Machine, c: Id)
    requires Loses(m, i, m')
    ensures RowMoves(e, m, i, m', c)
  {
  }

  // --- Locks

  /** A rename waits for the row, a delete for the foreign keys to it, and only one append at a time has updated it. */
  lemma BeginWaits(reqs: seq<Call>, m: Machine, i: nat, m': Machine, j: nat, c: Id)
    requires i < |reqs| == |m.pcs| && m.pcs[i].Ready? && Begins(reqs, m, i, m') && j < |reqs| && LocksRow(reqs, m, j, c)
    ensures !Touches(reqs[i], m, i, m', c)
  {
    hide IsListing, Marks, FirstPc, Cascade;
    assert SharesKey(reqs, m, j, c);
    FirstPcMidway(m.db, reqs[i]);
    FirstPcReply(m.db, reqs[i]);
  }

  lemma ContinueWaits(reqs: seq<Call>, m: Machine, i: nat, m': Machine, j: nat, c: Id)
    requires i < |reqs| == |m.pcs| && Continues(reqs, m, i, m') && j < |reqs| && j != i && LocksRow(reqs, m, j, c) && OneLock(reqs, m)
    requires PcOk(reqs[i], m, m.pcs[i])
    ensures !Touches(reqs[i], m, i, m', c)
  {
    hide Marks, PcOk, AppendCommit, BranchCommit, GraftRows, IsResult, NoRowLocked;
    assert m.pcs[i].AppendTouched? && reqs[i].op.AppendMessage? && reqs[i].op.conversationId == c ==> LocksRow(reqs, m, i, c);
  }

  lemma LockedRow(reqs: seq<Call>, m: Machine, j: nat, c: Id)
    requires Inv(reqs, m) && j < |reqs| == |m.pcs| && LocksRow(reqs, m, j, c)
    ensures c in m.db.conversations && c in m.owners && OneLock(reqs, m)
  {
    hide Consistent, Unspent, BranchesWhole, BranchesGone, OneLock;
    assert PcOk(reqs[j], m, m.pcs[j]);
  }

  /** The row lock of an open append holds: until the append commits or loses its connection, no other client changes or
      removes the row. */
  lemma LockHolds(reqs: seq<Call>, m: Machine, i: nat, m': Machine, j: nat, c: Id)
    requires Inv(reqs, m) && Happens(reqs, m, i, m') && j < |reqs| == |m.pcs| && j != i && LocksRow(reqs, m, j, c)
    ensures c in m.db.conversations && c in m'.db.conversations && m'.db.conversations[c] == m.db.conversations[c]
  {
    hide Inv, Begins, Continues, PcOk, Touches, LocksRow, OneLock;
    SizesAgree(reqs, m);
    LockedRow(reqs, m, j, c);
    HappeningMoves(reqs, m, i, m', c);
    if Loses(m, i, m') || Breaks(m, i, m') {
      EndsUntouched(reqs[i], m, i, m', c);
    } else if m.pcs[i].Ready? {
      BeginWaits(reqs, m, i, m', j, c);
    } else {
      ContinueWaits(reqs, m, i, m', j, c);
    }
  }

  lemma EndsUntouched(e: Call, m: Machine, i: nat, m': Machine, c: Id)
    requires i < |m.pcs| && (Loses(m, i, m') || Breaks(m, i, m'))
    ensures !Touches(e, m, i, m', c)
  {
  }

  // --- Between the update and the read

  predicate TouchedAt(reqs: seq<Call>, ms: seq<Machine>, who: seq<nat>, u: nat, c: Id) {
    u < |who| < |ms| && who[u] < |reqs| && Touches(reqs[who[u]], ms[u], who[u], ms[u + 1], c)
  }

  /** Rename i updates its row in step a, and step b is its next. */
  ghost predicate Pauses(reqs: seq<Call>, ms: seq<Machine>, who: seq<nat>, i: nat, a: nat, b: nat) {
    && Execution(reqs, ms, who) && a < b < |who| && who[a] == i == who[b] && i < |reqs| && reqs[i].op.RenameConversation?
    && i < |ms[a].pcs| && ms[a].pcs[i].Ready? && i < |ms[a + 1].pcs| && ms[a + 1].pcs[i].RenameUpdated?
    && forall u :: a < u < b ==> who[u] != i
  }

  /** What has become of the row since the update: it is as updated while nobody touched it; once somebody has, it is
      gone or carries the time of one of those. */
  ghost predicate Followed(reqs: seq<Call>, ms: seq<Machine>, who: seq<nat>, a: nat, t: nat, c: Id, row: Conversation)
    requires t < |ms|
  {
    if forall u :: a < u < t ==> !TouchedAt(reqs, ms, who, u, c)
    then c in ms[t].db.conversations && ms[t].db.conversations[c] == row
    else c in ms[t].db.conversations ==>
           exists u :: a < u < t && TouchedAt(reqs, ms, who, u, c) && ms[t].db.conversations[c].updatedAt == reqs[who[u]].now
  }

  lemma FollowStep(reqs: seq<Call>, ms: seq<Machine>, who: seq<nat>, a: nat, t: nat, c: Id, row: Conversation)
    requires a < t < |who| < |ms| && who[t] < |reqs| && Followed(reqs, ms, who, a, t, c, row)
    requires RowMoves(reqs[who[t]], ms[t], who[t], ms[t + 1], c)
    ensures Followed(reqs, ms, who, a, t + 1, c, row)
  {
    hide Touches;
    if TouchedAt(reqs, ms, who, t, c) {
    } else if u :| a < u < t && TouchedAt(reqs, ms, who, u, c) {
      if c in ms[t].db.conversations {
        var v :| a < v < t && TouchedAt(reqs, ms, who, v, c) && ms[t].db.conversations[c].updatedAt == reqs[who[v]].now;
      }
    }
  }

  lemma UpdatedRow(reqs: seq<Call>, m: Machine, i: nat, m': Machine)
    requires i < |reqs| == |m.pcs| && m.pcs[i].Ready? && reqs[i].op.RenameConversation? && Begins(reqs, m, i, m')
    requires i < |m'.pcs| && m'.pcs[i].RenameUpdated?
    ensures var e := reqs[i]; var c := e.op.id;
      && OwnsRow(m.db, e.sub, c) && c in m'.db.conversations
      && m'.db.conversations[c].updatedAt == e.now && m'.db.conversations[c].sub == e.sub
      && RenameStep(m.db, e).reply == OneConversation(m'.db.conversations[c])
  {
    hide NoRowLocked;
  }

  lemma Remembered(reqs: seq<Call>, m: Machine, c: Id)
    requires Inv(reqs, m) && c in m.db.conversations
    ensures c in m.owners
  {
  }

  lemma {:induction false} Follow(reqs: seq<Call>, ms: seq<Machine>, who: seq<nat>, i: nat, a: nat, b: nat, t: nat)
    requires FreshTrace(reqs) && Pauses(reqs, ms, who, i, a, b) && a < t <= b && |ms| == |who| + 1
    ensures var e := reqs[i]; var c := e.op.id;
      && c in ms[t].owners && c in ms[a + 1].db.conversations
      && ms[a + 1].db.conversations[c].updatedAt == e.now && ms[a + 1].db.conversations[c].sub == e.sub
      && RenameStep(ms[a].db, e).reply == OneConversation(ms[a + 1].db.conversations[c])
      && Followed(reqs, ms, who, a, t, c, ms[a + 1].db.conversations[c])
      && i < |ms[t].pcs| && ms[t].pcs[i].RenameUpdated?
    decreases t
  {
    hide FreshTrace, Happens, Init, Inv, RowMoves, Touches, RenameStep, Followed;
    var c := reqs[i].op.id;
    if t == a + 1 {
      assert Happens(reqs, ms[a], who[a], ms[a + 1]);
      FirstMove(reqs, ms[a], i, ms[a + 1]);
      UpdatedRow(reqs, ms[a], i, ms[a + 1]);
      ExecutionSafe(reqs, ms, who, t);
      Remembered(reqs, ms[t], c);
      FollowFirst(reqs, ms, who, a, c);
    } else {
      Follow(reqs, ms, who, i, a, b, t - 1);
      ExecutionSafe(reqs, ms, who, t - 1);
      assert Happens(reqs, ms[t - 1], who[t - 1], ms[t]);
      HappeningMoves(reqs, ms[t - 1], who[t - 1], ms[t], c);
      FollowStep(reqs, ms, who, a, t - 1, c, ms[a + 1].db.conversations[c]);
      HappensTo(reqs, ms[t - 1], who[t - 1], ms[t]);
      OwnersKept(reqs, ms[t - 1], who[t - 1], ms[t]);
    }
  }

  lemma FollowFirst(reqs: seq<Call>, ms: seq<Machine>, who: seq<nat>, a: nat, c: Id)
    requires a + 1 < |ms| && c in ms[a + 1].db.conversations
    ensures Followed(reqs, ms, who, a, a + 1, c, ms[a + 1].db.conversations[c])
  {
  }

  lemma FirstMove(reqs: seq<Call>, m: Machine, i: nat, m': Machine)
    requires Happens(reqs, m, i, m') && i < |m.pcs| && m.pcs[i].Ready? && i < |m'.pcs| && m'.pcs[i].RenameUpdated?
    ensures i < |reqs| == |m.pcs| && Begins(reqs, m, i, m')
  {
    hide Begins;
  }

  lemma OwnersKept(reqs: seq<Call>, m: Machine, i: nat, m': Machine)
    requires Happens(reqs, m, i, m')
    ensures m.owners.Keys <= m'.owners.Keys
  {
    hide Step;
    if Step(reqs, m, i, m') {
      StepShape(reqs, m, i, m');
    }
  }

  /** What the read answers, unless the connection is lost there. */
  lemma ReadAnswers(reqs: seq<Call>, m: Machine, i: nat, m': Machine)
    requires Happens(reqs, m, i, m') && i < |reqs| && reqs[i].op.RenameConversation? && i < |m.pcs| && m.pcs[i].RenameUpdated?
    requires !Breaks(m, i, m')
    ensures i < |m'.pcs| && m'.pcs[i] == Finished(GetStep(m.db, reqs[i].sub, reqs[i].op.id))
  {
    hide Begins, GetStep, RenameStep;
    RenameUpdates(reqs, m, i, m');
  }

  /** A rename answers as the sequential rename, if no rename, append or delete of the conversation takes effect
      between its update and its read. */
  lemma RenameAnswersItself(reqs: seq<Call>, ms: seq<Machine>, who: seq<nat>, i: nat, a: nat, b: nat)
    requires FreshTrace(reqs) && Pauses(reqs, ms, who, i, a, b) && |ms| == |who| + 1 && !Breaks(ms[b], i, ms[b + 1])
    requires forall u :: a < u < b ==> !TouchedAt(reqs, ms, who, u, reqs[i].op.id)
    ensures i < |ms[b + 1].pcs| && ms[b + 1].pcs[i] == Finished(RenameStep(ms[a].db, reqs[i]).reply)
  {
    hide FreshTrace, Happens, Init, RenameStep, Touches;
    Follow(reqs, ms, who, i, a, b, b);
    assert Happens(reqs, ms[b], who[b], ms[b + 1]);
    ReadAnswers(reqs, ms[b], i, ms[b + 1]);
  }

  ghost predicate DistinctClocks(reqs: seq<Call>) {
    forall i, j :: 0 <= i < j < |reqs| ==> reqs[i].now != reqs[j].now
  }

  /** With no two calls at one clock reading, only then: a rename answers as the sequential rename if and only if no other
      rename, append or delete of the conversation takes effect between its update and its read. */
  lemma RenameAnswersItselfIff(reqs: seq<Call>, ms: seq<Machine>, who: seq<nat>, i: nat, a: nat, b: nat)
    requires FreshTrace(reqs) && DistinctClocks(reqs)
    requires Pauses(reqs, ms, who, i, a, b) && |ms| == |who| + 1 && !Breaks(ms[b], i, ms[b + 1])
    ensures i < |ms[b + 1].pcs| && ms[b + 1].pcs[i].Finished?
    ensures ms[b + 1].pcs[i].reply == RenameStep(ms[a].db, reqs[i]).reply <==>
            forall u :: a < u < b ==> !TouchedAt(reqs, ms, who, u, reqs[i].op.id)
  {
    hide FreshTrace, Happens, Init, RenameStep, Touches;
    var c := reqs[i].op.id;
    Follow(reqs, ms, who, i, a, b, b);
    assert Happens(reqs, ms[b], who[b], ms[b + 1]);
    ReadAnswers(reqs, ms[b], i, ms[b + 1]);
    if !(forall u :: a < u < b ==> !TouchedAt(reqs, ms, who, u, c)) && c in ms[b].db.conversations {
      var u :| a < u < b && TouchedAt(reqs, ms, who, u, c) && ms[b].db.conversations[c].updatedAt == reqs[who[u]].now;
      assert who[u] != i;
    }
  }
}
