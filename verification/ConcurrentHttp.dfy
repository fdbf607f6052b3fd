/** The HTTP layer over the Postgres store with requests served concurrently: the calls of all requests are the clients
    of one interleaved execution. */
module ConcurrentHttp {
  import opened StoreTypes
  import opened Tables
  import opened RelationalSpec
  import opened Interleaving
  import opened InterleavingSafety
  import opened ConcurrentHistory
  import opened InterleavedIsolation
  import RelationalIsolation
  import Http
  import HttpOverPostgres

  /** What the requests ask of the store: a subject with every call, and one of the four roles with every append. */
  predicate Checked(reqs: seq<Call>) {
    forall i :: 0 <= i < |reqs| ==> reqs[i].sub != "" && (reqs[i].op.AppendMessage? ==> ValidRole(reqs[i].op.role))
  }

  lemma CallsAreChecked(verify: Http.Verifier, arrivals: seq<Http.Arrival>)
    ensures Checked(Http.Calls(verify, arrivals))
  {
    var reqs := Http.Calls(verify, arrivals);
    forall i | 0 <= i < |reqs| ensures reqs[i].sub != "" && (reqs[i].op.AppendMessage? ==> ValidRole(reqs[i].op.role)) {
      HttpOverPostgres.CallsAreChecked(verify, arrivals, i);
    }
  }

  // --- Roles

  ghost predicate CopiesOk(pc: Pc) {
    pc.BranchCopying? ==> forall k :: 0 <= k < |pc.graft.copied| ==> ValidRole(pc.graft.copied[k].role)
  }

  /** Every committed message and every message a branch under way has read has one of the four roles. */
  ghost predicate RolesHold(m: Machine) {
    HttpOverPostgres.RolesOk(m.db) && forall i :: 0 <= i < |m.pcs| ==> CopiesOk(m.pcs[i])
  }

  lemma MoveRoles(m: Machine, i: nat, m': Machine)
    requires RolesHold(m) && i < |m.pcs| == |m'.pcs| && m'.pcs == m.pcs[i := m'.pcs[i]]
    requires HttpOverPostgres.RolesOk(m'.db) && CopiesOk(m'.pcs[i])
    ensures RolesHold(m')
  {
  }

  lemma FewerRoles(d: Database, d': Database)
    requires HttpOverPostgres.RolesOk(d) && forall x :: x in d'.messages ==> x in d.messages && d'.messages[x] == d.messages[x]
    ensures HttpOverPostgres.RolesOk(d')
  {
  }

  lemma FirstPcCopies(d: Database, e: Call)
    ensures CopiesOk(FirstPc(d, e))
  {
  }

  lemma BeginRoles(reqs: seq<Call>, m: Machine, i: nat, m': Machine)
    requires i < |reqs| == |m.pcs| && Begins(reqs, m, i, m') && RolesHold(m) && i < |m'.pcs|
    ensures HttpOverPostgres.RolesOk(m'.db) && CopiesOk(m'.pcs[i])
  {
    hide IsListing, NoRowLocked, NoKeyShared, FirstPc, ValidRole, HttpOverPostgres.RolesOk;
    FirstPcCopies(m.db, reqs[i]);
    FewerRoles(m.db, m'.db);
  }

  lemma AppendRoles(m: Machine, i: nat, e: Call, m': Machine)
    requires i < |m.pcs| && AppendCommits(m, i, e, m') && HttpOverPostgres.RolesOk(m.db)
    requires e.op.AppendMessage? ==> ValidRole(e.op.role)
    ensures i < |m'.pcs| && HttpOverPostgres.RolesOk(m'.db) && CopiesOk(m'.pcs[i])
  {
    hide ValidRole;
  }

  lemma ReadRoles(m: Machine, i: nat, e: Call, m': Machine)
    requires i < |m.pcs| && m.pcs[i].BranchInserted? && BranchReads(m, i, e, m') && HttpOverPostgres.RolesOk(m.db)
    ensures i < |m'.pcs| && HttpOverPostgres.RolesOk(m'.db) && CopiesOk(m'.pcs[i])
  {
    hide ValidRole, HttpOverPostgres.RolesOk, IsResult;
    var src, cut := m.pcs[i].src, m.pcs[i].cut;
    var ms :| IsResult(m.db, src, e.sub, Some(cut), ms) && m' == Move(m, i, BranchCopying(m.pcs[i].head, Graft(m.db, src, cut, ms), 0));
    HttpOverPostgres.SelectedRoles(m.db, src, e.sub, Some(cut), ms);
  }

  lemma CommitRoles(m: Machine, i: nat, e: Call, m': Machine)
    requires i < |m.pcs| && m.pcs[i].BranchCopying? && BranchCommits(m, i, e, m')
    requires HttpOverPostgres.RolesOk(m.db) && CopiesOk(m.pcs[i])
    ensures i < |m'.pcs| && HttpOverPostgres.RolesOk(m'.db) && CopiesOk(m'.pcs[i])
  {
    hide ValidRole;
    var rows := GraftRows(e, m.pcs[i].head, m.pcs[i].graft.copied);
    forall x | x in rows ensures ValidRole(rows[x].role) {
    }
  }

  lemma ContinueRoles(reqs: seq<Call>, m: Machine, i: nat, m': Machine)
    requires Checked(reqs) && i < |reqs| == |m.pcs| && Continues(reqs, m, i, m') && RolesHold(m) && i < |m'.pcs|
    ensures HttpOverPostgres.RolesOk(m'.db) && CopiesOk(m'.pcs[i])
  {
    hide ValidRole, HttpOverPostgres.RolesOk, AppendCommits, BranchReads, BranchCommits, IsResult, NoRowLocked;
    assert CopiesOk(m.pcs[i]);
    match m.pcs[i]
    case AppendTouched => AppendRoles(m, i, reqs[i], m');
    case UpsertChecked => FewerRoles(m.db, m'.db);
    case BranchInserted(_, _, _) => ReadRoles(m, i, reqs[i], m');
    case BranchCopying(_, graft, done) =>
      if done >= |graft.copied| {
        CommitRoles(m, i, reqs[i], m');
      }
    case AppendChecked =>
    case AppendInserted =>
    case ListChecked =>
    case RenameUpdated =>
    case BranchResolved(_, _, _) =>
  }

  lemma HappeningKeepsRoles(reqs: seq<Call>, m: Machine, i: nat, m': Machine)
    requires Checked(reqs) && Happens(reqs, m, i, m') && RolesHold(m)
    ensures RolesHold(m')
  {
    hide Begins, Continues, RolesHold;
    HappensTo(reqs, m, i, m');
    HeldRoles(m, i);
    if Loses(m, i, m') || Breaks(m, i, m') {
    } else if m.pcs[i].Ready? {
      BeginRoles(reqs, m, i, m');
    } else {
      ContinueRoles(reqs, m, i, m');
    }
    MoveRoles(m, i, m');
  }

  lemma HeldRoles(m: Machine, i: nat)
    requires RolesHold(m)
    ensures HttpOverPostgres.RolesOk(m.db)
  {
  }

  lemma InitRoles(reqs: seq<Call>, m: Machine)
    requires Init(reqs, m)
    ensures RolesHold(m)
  {
  }

  lemma {:induction false} ExecutionRoles(reqs: seq<Call>, ms: seq<Machine>, who: seq<nat>, t: nat)
    requires Checked(reqs) && Execution(reqs, ms, who) && t <= |who|
    ensures RolesHold(ms[t])
  {
    hide Happens, RolesHold, Checked, Init;
    if t == 0 {
      InitRoles(reqs, ms[0]);
    } else {
      ExecutionRoles(reqs, ms, who, t - 1);
      HappeningKeepsRoles(reqs, ms[t - 1], who[t - 1], ms[t]);
    }
  }

  /** However the requests interleave, every message row ever committed has one of the four roles. */
  lemma StoredRolesAreValid(verify: Http.Verifier, arrivals: seq<Http.Arrival>, ms: seq<Machine>, who: seq<nat>, t: nat)
    requires Execution(Http.Calls(verify, arrivals), ms, who) && t <= |who|
    ensures HttpOverPostgres.RolesOk(ms[t].db)
  {
    hide Execution, Checked;
    CallsAreChecked(verify, arrivals);
    SizesStay(Http.Calls(verify, arrivals), ms, who);
    ExecutionRoles(Http.Calls(verify, arrivals), ms, who, t);
  }

  // --- Status 403

  predicate Allowed(pc: Pc) {
    Over(pc) ==> pc.reply != Failed(Forbidden)
  }

  lemma FirstPcAllowed(d: Database, e: Call)
    requires e.sub != ""
    ensures Allowed(FirstPc(d, e))
  {
  }

  lemma BeginAllows(reqs: seq<Call>, m: Machine, i: nat, m': Machine)
    requires i < |reqs| == |m.pcs| && Begins(reqs, m, i, m') && reqs[i].sub != "" && i < |m'.pcs|
    ensures Allowed(m'.pcs[i])
  {
    hide IsListing, NoRowLocked, NoKeyShared, FirstPc;
    FirstPcAllowed(m.db, reqs[i]);
  }

  lemma AfterAllows(exec: Exec, next: Pc)
    requires Allowed(next)
    ensures Allowed(After(exec, next))
  {
  }

  lemma ContinueAllows(reqs: seq<Call>, m: Machine, i: nat, m': Machine)
    requires i < |reqs| == |m.pcs| && Continues(reqs, m, i, m') && i < |m'.pcs|
    ensures Allowed(m'.pcs[i])
  {
    hide IsResult, NoRowLocked, After, MapPgErr, AppendCommit, BranchCommit, GraftRows, Injective, InsertMessage, InsertConversation, UpsertRow;
    var e := reqs[i];
    match m.pcs[i]
    case AppendChecked => AfterAllows(InsertMessage(m.db, e.mint(0), AppendRow(e)), AppendInserted);
    case UpsertChecked => AfterAllows(UpsertRow(m.db, NewFeedback(e)), Finished(OneFeedback(NewFeedback(e))));
    case BranchResolved(src, title, cut) =>
      var head := NewConversation(e, DefaultTitle(e.op.title, title));
      AfterAllows(InsertConversation(m.db, head), BranchInserted(head, src, cut));
    case AppendInserted =>
    case AppendTouched =>
    case ListChecked =>
    case RenameUpdated =>
    case BranchInserted(_, _, _) =>
    case BranchCopying(_, _, _) =>
  }

  lemma HappeningAllows(reqs: seq<Call>, m: Machine, i: nat, m': Machine)
    requires Checked(reqs) && Happens(reqs, m, i, m') && i < |m.pcs| && Allowed(m.pcs[i])
    ensures i < |m'.pcs| && Allowed(m'.pcs[i])
  {
    hide Begins, Continues;
    HappensTo(reqs, m, i, m');
    if Loses(m, i, m') || Breaks(m, i, m') {
    } else if m.pcs[i].Ready? {
      BeginAllows(reqs, m, i, m');
    } else {
      ContinueAllows(reqs, m, i, m');
    }
  }

  lemma {:induction false} ExecutionAllows(reqs: seq<Call>, ms: seq<Machine>, who: seq<nat>, t: nat, i: nat)
    requires Checked(reqs) && Execution(reqs, ms, who) && t <= |who| && i < |reqs|
    ensures i < |ms[t].pcs| && Allowed(ms[t].pcs[i])
  {
    hide Happens, Checked, Allowed;
    if t == 0 {
      InitAllows(reqs, ms[0], i);
    } else {
      ExecutionAllows(reqs, ms, who, t - 1, i);
      assert Happens(reqs, ms[t - 1], who[t - 1], ms[t]);
      HappensTo(reqs, ms[t - 1], who[t - 1], ms[t]);
      if who[t - 1] == i {
        HappeningAllows(reqs, ms[t - 1], i, ms[t]);
      }
    }
  }

  lemma InitAllows(reqs: seq<Call>, m: Machine, i: nat)
    requires Init(reqs, m) && i < |reqs|
    ensures i < |m.pcs| && Allowed(m.pcs[i])
  {
  }

  /** However the requests interleave, none is answered with status 403. */
  lemma NeverForbidden(verify: Http.Verifier, arrivals: seq<Http.Arrival>, ms: seq<Machine>, who: seq<nat>, t: nat, i: nat)
    requires Execution(Http.Calls(verify, arrivals), ms, who) && t <= |who| && i < |Http.Calls(verify, arrivals)|
    ensures i < |ms[t].pcs|
    ensures Over(ms[t].pcs[i]) ==> Http.Respond(Http.Calls(verify, arrivals)[i].op, ms[t].pcs[i].reply).status != 403
  {
    hide Happens, Checked, Init;
    CallsAreChecked(verify, arrivals);
    ExecutionAllows(Http.Calls(verify, arrivals), ms, who, t, i);
  }

  // --- Isolation

  /** Every response to a request of subject a, however the requests interleave, is one it gets in an execution of the same
      requests in which only those of a are ever served. */
  lemma ServedAlone(verify: Http.Verifier, arrivals: seq<Http.Arrival>, ms: seq<Machine>, who: seq<nat>, a: Subject)
    returns (own: seq<Machine>)
    requires Http.FreshArrivals(arrivals) && Execution(Http.Calls(verify, arrivals), ms, who)
    ensures forall t :: 0 <= t < |who| ==> who[t] < |Http.Calls(verify, arrivals)|
    ensures |ms[|who|].pcs| == |Http.Calls(verify, arrivals)|
    ensures var reqs := Http.Calls(verify, arrivals); var moves := MovesOf(reqs, who, a);
      && Execution(reqs, own, moves) && |own[|moves|].pcs| == |reqs|
      && forall i :: 0 <= i < |reqs| ==>
           if reqs[i].sub != a then own[|moves|].pcs[i].Ready?
           else Over(ms[|who|].pcs[i]) ==>
             Over(own[|moves|].pcs[i])
             && Http.Respond(reqs[i].op, own[|moves|].pcs[i].reply) == Http.Respond(reqs[i].op, ms[|who|].pcs[i].reply)
  {
    hide Execution, FreshTrace, MovesOf;
    Http.CallsAreFresh(verify, arrivals);
    own := SameRepliesAlone(Http.Calls(verify, arrivals), ms, who, a);
  }
}
