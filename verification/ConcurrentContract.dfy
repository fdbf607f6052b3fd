/** The REST interface over the Postgres store with requests served concurrently: which status a request may get. */
module ConcurrentContract {
  import opened StoreTypes
  import opened Tables
  import opened RelationalSpec
  import opened Interleaving
  import opened InterleavingSafety
  import opened ConcurrentHistory
  import opened Http
  import opened HttpContract
  import opened PostgresContract
  import opened DriverErrors
  import opened ConcurrentHttp

  /** The call has found what it names and will not look again. */
  predicate Resolved(pc: Pc) {
    pc.ListChecked? || pc.BranchResolved? || pc.BranchInserted? || pc.BranchCopying?
  }

  /** The client stands where one whose target was, or was not, there may stand: a reply has that status, or the connection
      was lost; and only a target that was there is listed or branched from. */
  predicate Stands(pc: Pc, op: Op, found: bool) {
    match pc
    case Finished(r) => r == Failed(Internal) || Respond(op, r).status == StatusOf(op, found)
    case Unheard(r) => Respond(op, r).status == StatusOf(op, found)
    case _ => Resolved(pc) ==> found
  }

  predicate Failing(pc: Pc) {
    pc == Finished(Failed(Internal))
  }

  // --- The first statement

  lemma FirstPcStands(d: Database, e: Call)
    requires Consistent(d) && e.sub != ""
    requires e.op.GetConversation? || e.op.AppendMessage? || e.op.ListMessages? || e.op.BranchFromMessage? || e.op.UpsertFeedback? || e.op.GetFeedback?
    ensures Stands(FirstPc(d, e), e.op, InTables(d, e.sub, e.op)) && !Failing(FirstPc(d, e))
  {
    hide Consistent;
    if e.op.BranchFromMessage? && e.op.messageId in d.messages {
      OwnershipChecksAgree(d, e.sub, e.op.messageId);
    }
  }

  /** The identifiers of an unfinished call are new to the committed tables, and its client is where it may be. */
  lemma NewToTables(reqs: seq<Call>, m: Machine, i: nat, k: nat)
    requires i < |reqs| && Inv(reqs, m) && !Over(m.pcs[i])
    ensures |m.pcs| == |reqs| && Consistent(m.db) && PcOk(reqs[i], m, m.pcs[i])
    ensures reqs[i].mint(k) !in m.db.conversations && reqs[i].mint(k) !in m.db.messages
  {
    hide Consistent, PcOk, BranchesWhole, BranchesGone, OneLock;
    assert reqs[i].mint(k) !in m.owners;
  }

  lemma CreateStands(reqs: seq<Call>, m: Machine, i: nat, m': Machine)
    requires i < |reqs| && Inv(reqs, m) && m.pcs[i].Ready? && reqs[i].op.CreateConversation? && BeginsCreate(m, i, reqs[i], m')
    requires reqs[i].sub != ""
    ensures i < |m'.pcs| && Stands(m'.pcs[i], reqs[i].op, true) && !Failing(m'.pcs[i])
  {
    hide Inv, Consistent, PcOk;
    NewToTables(reqs, m, i, 0);
  }

  lemma BeginStands(reqs: seq<Call>, m: Machine, i: nat, m': Machine)
    requires i < |reqs| && Inv(reqs, m) && i < |m.pcs| && m.pcs[i].Ready? && Begins(reqs, m, i, m') && reqs[i].sub != ""
    ensures i < |m'.pcs| && Stands(m'.pcs[i], reqs[i].op, InTables(m.db, reqs[i].sub, reqs[i].op)) && !Failing(m'.pcs[i])
  {
    hide Inv, Consistent, PcOk, IsListing, NoRowLocked, NoKeyShared, FirstPc, Cascade, BeginsCreate;
    NewToTables(reqs, m, i, 0);
    match reqs[i].op
    case CreateConversation(_) => CreateStands(reqs, m, i, m');
    case ListConversations =>
    case RenameConversation(_, _) =>
    case DeleteConversation(_) =>
    case _ => FirstPcStands(m.db, reqs[i]);
  }

  // --- Later statements

  lemma InsertStands(m: Machine, i: nat, e: Call, m': Machine)
    requires i < |m.pcs| && AppendInserts(m, i, e, m') && e.mint(0) !in m.db.messages
    ensures i < |m'.pcs| && !Failing(m'.pcs[i]) && Stands(m'.pcs[i], e.op, InTables(m.db, e.sub, e.op))
  {
    hide MapPgErr;
    Raises(m.db);
  }

  lemma TouchStands(reqs: seq<Call>, m: Machine, i: nat, m': Machine)
    requires i < |reqs| == |m.pcs| && AppendTouches(reqs, m, i, m')
    ensures i < |m'.pcs| && !Failing(m'.pcs[i]) && Stands(m'.pcs[i], reqs[i].op, InTables(m.db, reqs[i].sub, reqs[i].op))
  {
    hide NoRowLocked, InTables;
  }

  lemma CommitStands(m: Machine, i: nat, e: Call, m': Machine)
    requires i < |m.pcs| && AppendCommits(m, i, e, m') && OwnsRow(m.db, e.sub, e.op.conversationId)
    ensures i < |m'.pcs| && !Failing(m'.pcs[i]) && Stands(m'.pcs[i], e.op, InTables(m.db, e.sub, e.op))
  {
    hide AppendCommit;
  }

  lemma AppendStands(reqs: seq<Call>, m: Machine, i: nat, m': Machine)
    requires i < |reqs| && Inv(reqs, m) && i < |m.pcs| && Continues(reqs, m, i, m')
    requires m.pcs[i].AppendChecked? || m.pcs[i].AppendInserted? || m.pcs[i].AppendTouched?
    ensures i < |m'.pcs| && !Failing(m'.pcs[i]) && Stands(m'.pcs[i], reqs[i].op, InTables(m.db, reqs[i].sub, reqs[i].op))
  {
    hide Inv, Consistent, AppendInserts, AppendTouches, AppendCommits, InTables, Stands, OwnsRow;
    NewToTables(reqs, m, i, 0);
    match m.pcs[i]
    case AppendChecked => InsertStands(m, i, reqs[i], m');
    case AppendInserted => TouchStands(reqs, m, i, m');
    case AppendTouched => CommitStands(m, i, reqs[i], m');
  }

  lemma UpsertStatus(e: Call, found: bool)
    requires e.op.UpsertFeedback? && ValidRating(e.op.rating)
    ensures Respond(e.op, if found then OneFeedback(NewFeedback(e)) else Failed(NotFound)).status == StatusOf(e.op, found)
  {
  }

  lemma UpsertStands(reqs: seq<Call>, m: Machine, i: nat, m': Machine)
    requires i < |reqs| && Inv(reqs, m) && m.pcs[i].UpsertChecked? && Continues(reqs, m, i, m')
    ensures i < |m'.pcs| && !Failing(m'.pcs[i]) && Stands(m'.pcs[i], reqs[i].op, InTables(m.db, reqs[i].sub, reqs[i].op))
  {
    hide Inv, Consistent, Evolves, OnlyAdds, KeepsShared, Respond, MapPgErr;
    Raises(m.db);
    NewToTables(reqs, m, i, 0);
    UpsertStatus(reqs[i], true);
    UpsertStatus(reqs[i], false);
    if UpsertRow(m.db, NewFeedback(reqs[i])).Done? {
      UpsertEvolves(reqs, m, i);
    }
  }

  lemma ListStands(m: Machine, i: nat, e: Call, m': Machine)
    requires i < |m.pcs| && ListReads(m, i, e, m')
    ensures i < |m'.pcs| && !Failing(m'.pcs[i]) && Stands(m'.pcs[i], e.op, true)
  {
    hide IsResult;
  }

  lemma RenameStands(m: Machine, i: nat, e: Call, m': Machine)
    requires i < |m.pcs| && RenameReads(m, i, e, m')
    ensures i < |m'.pcs| && !Failing(m'.pcs[i]) && Stands(m'.pcs[i], e.op, InTables(m.db, e.sub, e.op))
  {
  }

  lemma HeadStands(m: Machine, i: nat, e: Call, m': Machine)
    requires i < |m.pcs| && m.pcs[i].BranchResolved? && BranchInserts(m, i, e, m') && e.mint(0) !in m.db.conversations
    ensures i < |m'.pcs| && !Failing(m'.pcs[i]) && Stands(m'.pcs[i], e.op, true)
  {
    hide MapPgErr, DefaultTitle;
  }

  lemma QueryStands(m: Machine, i: nat, e: Call, m': Machine)
    requires i < |m.pcs| && m.pcs[i].BranchInserted? && BranchReads(m, i, e, m')
    ensures i < |m'.pcs| && !Failing(m'.pcs[i]) && Stands(m'.pcs[i], e.op, true)
  {
    hide IsResult;
  }

  lemma CopyStands(m: Machine, i: nat, e: Call, m': Machine)
    requires i < |m.pcs| && m.pcs[i].BranchCopying? && e.mint(m.pcs[i].done + 1) !in m.db.messages && e.op.BranchFromMessage?
    requires BranchCopies(m, i, e, m') || BranchCommits(m, i, e, m')
    ensures i < |m'.pcs| && !Failing(m'.pcs[i]) && Stands(m'.pcs[i], e.op, true)
  {
    hide BranchCommit, GraftRows, Injective;
  }

  lemma BranchStands(reqs: seq<Call>, m: Machine, i: nat, m': Machine)
    requires i < |reqs| && Inv(reqs, m) && i < |m.pcs| && Continues(reqs, m, i, m')
    requires m.pcs[i].BranchResolved? || m.pcs[i].BranchInserted? || m.pcs[i].BranchCopying?
    ensures i < |m'.pcs| && !Failing(m'.pcs[i]) && Stands(m'.pcs[i], reqs[i].op, true)
  {
    hide Inv, Consistent, BranchInserts, BranchReads, BranchCopies, BranchCommits, Stands;
    NewToTables(reqs, m, i, 0);
    match m.pcs[i]
    case BranchResolved(_, _, _) => HeadStands(m, i, reqs[i], m');
    case BranchInserted(_, _, _) => QueryStands(m, i, reqs[i], m');
    case BranchCopying(_, _, done) =>
      NewToTables(reqs, m, i, done + 1);
      CopyStands(m, i, reqs[i], m');
  }

  /** A call that has resolved its target keeps it; any other later statement looks at the tables of its own moment. */
  lemma ContinueStands(reqs: seq<Call>, m: Machine, i: nat, m': Machine)
    requires i < |reqs| && Inv(reqs, m) && i < |m.pcs| && Continues(reqs, m, i, m')
    ensures i < |m'.pcs| && !Failing(m'.pcs[i])
    ensures Stands(m'.pcs[i], reqs[i].op, Resolved(m.pcs[i]) || InTables(m.db, reqs[i].sub, reqs[i].op))
  {
    hide Inv, Stands, InTables, AppendInserts, AppendTouches, AppendCommits, ListReads, UpsertWrites, RenameReads, BranchInserts, BranchReads, BranchCopies, BranchCommits;
    match m.pcs[i]
    case AppendChecked => AppendStands(reqs, m, i, m');
    case AppendInserted => AppendStands(reqs, m, i, m');
    case AppendTouched => AppendStands(reqs, m, i, m');
    case BranchResolved(_, _, _) => BranchStands(reqs, m, i, m');
    case BranchInserted(_, _, _) => BranchStands(reqs, m, i, m');
    case BranchCopying(_, _, _) => BranchStands(reqs, m, i, m');
    case ListChecked => ListStands(m, i, reqs[i], m');
    case UpsertChecked => UpsertStands(reqs, m, i, m');
    case RenameUpdated => RenameStands(m, i, reqs[i], m');
  }

  // --- Over whole executions

  /** What client i names was there, or not, at its own statement s, and the client stands accordingly. */
  ghost predicate Decided(reqs: seq<Call>, ms: seq<Machine>, who: seq<nat>, t: nat, i: nat, s: nat)
    requires t < |ms| && i < |reqs| && i < |ms[t].pcs|
  {
    s < t && s < |who| && who[s] == i && Stands(ms[t].pcs[i], reqs[i].op, InTables(ms[s].db, reqs[i].sub, reqs[i].op))
  }

  /** Client i lost its connection within the first t steps: before its last statement took effect, or after. */
  ghost predicate LostBy(ms: seq<Machine>, who: seq<nat>, t: nat, i: nat)
    requires t <= |who| < |ms|
  {
    exists s :: 0 <= s < t && who[s] == i && i < |ms[s].pcs| && (Breaks(ms[s], i, ms[s + 1]) || Loses(ms[s], i, ms[s + 1]))
  }

  lemma StepDecides(reqs: seq<Call>, m: Machine, i: nat, m': Machine)
    requires i < |reqs| && Inv(reqs, m) && Step(reqs, m, i, m') && reqs[i].sub != ""
    ensures i < |m.pcs| && i < |m'.pcs| && !Over(m.pcs[i]) && !m'.pcs[i].Unheard? && (Failing(m'.pcs[i]) ==> Breaks(m, i, m'))
    ensures !Failing(m'.pcs[i]) ==> Stands(m'.pcs[i], reqs[i].op, Resolved(m.pcs[i]) || InTables(m.db, reqs[i].sub, reqs[i].op))
  {
    hide Inv, Begins, Continues, InTables, Respond, StatusOf;
    StepShape(reqs, m, i, m');
    if !Breaks(m, i, m') {
      if m.pcs[i].Ready? {
        BeginStands(reqs, m, i, m');
      } else {
        ContinueStands(reqs, m, i, m');
      }
    }
  }

  predicate Lost(pc: Pc) {
    Failing(pc) || pc.Unheard?
  }

  /** Client i, if past its first statement, was decided at statement s, and if lost, lost its connection. */
  ghost predicate Told(reqs: seq<Call>, ms: seq<Machine>, who: seq<nat>, t: nat, i: nat, s: nat)
    requires t <= |who| < |ms| && i < |reqs|
  {
    && i < |ms[t].pcs|
    && (!ms[t].pcs[i].Ready? ==> Decided(reqs, ms, who, t, i, s))
    && (Lost(ms[t].pcs[i]) ==> LostBy(ms, who, t, i))
  }

  /** One step on: a statement of the client decides anew, unless it has resolved its target or ended. */
  lemma ToldOneMore(reqs: seq<Call>, ms: seq<Machine>, who: seq<nat>, t: nat, i: nat, s: nat) returns (s': nat)
    requires t < |who| < |ms| && i < |reqs| && Told(reqs, ms, who, t, i, s) && reqs[i].sub != ""
    requires Inv(reqs, ms[t]) && Happens(reqs, ms[t], who[t], ms[t + 1])
    ensures Told(reqs, ms, who, t + 1, i, s')
  {
    hide Inv, Step, InTables, Respond, StatusOf, Breaks;
    var m, m' := ms[t], ms[t + 1];
    s' := s;
    HappensTo(reqs, m, who[t], m');
    if who[t] == i && Step(reqs, m, i, m') {
      StepDecides(reqs, m, i, m');
      if !Resolved(m.pcs[i]) {
        s' := t;
      }
    }
  }

  /** Every client past its first statement was decided at one of its statements. */
  lemma {:induction false} EveryoneTold(reqs: seq<Call>, ms: seq<Machine>, who: seq<nat>, t: nat, i: nat) returns (s: nat)
    requires FreshTrace(reqs) && Checked(reqs) && Execution(reqs, ms, who) && t <= |who| && i < |reqs|
    ensures Told(reqs, ms, who, t, i, s)
  {
    hide FreshTrace, Inv, Happens, Decided;
    if t == 0 {
      s := 0;
    } else {
      s := EveryoneTold(reqs, ms, who, t - 1, i);
      ExecutionSafe(reqs, ms, who, t - 1);
      s := ToldOneMore(reqs, ms, who, t - 1, i, s);
    }
  }

  // --- Responses

  /** The response of the client's API request once its call has ended; a lost connection is an internal error. */
  predicate Responds(op: Op, pc: Pc, resp: Response) {
    (pc.Finished? && resp == Respond(op, pc.reply)) || (pc.Unheard? && resp == Response(500, None))
  }

  /** However the requests interleave: a request whose client lost its connection is answered 500; any other has the status
      it would have alone on the tables one of its own statements saw. */
  lemma Statuses(verify: Verifier, arrivals: seq<Arrival>, ms: seq<Machine>, who: seq<nat>, t: nat, i: nat, resp: Response)
    returns (s: nat)
    requires FreshArrivals(arrivals) && Execution(Calls(verify, arrivals), ms, who) && t <= |who| && i < |Calls(verify, arrivals)|
    requires i < |ms[t].pcs| && Responds(Calls(verify, arrivals)[i].op, ms[t].pcs[i], resp)
    ensures s < t && who[s] == i
    ensures var e := Calls(verify, arrivals)[i];
      if Lost(ms[t].pcs[i]) then resp == Response(500, None) && LostBy(ms, who, t, i)
      else resp.status == StatusOf(e.op, InTables(ms[s].db, e.sub, e.op))
  {
    hide FreshTrace, FreshArrivals, Execution, Checked, InTables, Dispatch;
    var reqs := Calls(verify, arrivals);
    CallsAreFresh(verify, arrivals);
    ConcurrentHttp.CallsAreChecked(verify, arrivals);
    SizesStay(reqs, ms, who);
    s := EveryoneTold(reqs, ms, who, t, i);
  }

  /** However the requests interleave: 404 only if a statement of the request did not find what it names; 404, or 500 for a
      lost connection, if none found it; a bad rating is 500; and 409 never. */
  lemma NotFoundAndConflict(verify: Verifier, arrivals: seq<Arrival>, ms: seq<Machine>, who: seq<nat>, t: nat, i: nat, resp: Response)
    requires FreshArrivals(arrivals) && Execution(Calls(verify, arrivals), ms, who) && t <= |who| && i < |Calls(verify, arrivals)|
    requires |ms| == |who| + 1 && i < |ms[t].pcs| && Responds(Calls(verify, arrivals)[i].op, ms[t].pcs[i], resp)
    ensures var e := Calls(verify, arrivals)[i];
      && (RatesBadly(e.op) ==> resp.status == 500)
      && (resp.status == 404 ==> exists s :: 0 <= s < t && who[s] == i && !InTables(ms[s].db, e.sub, e.op))
      && ((forall s :: 0 <= s < t && who[s] == i ==> !InTables(ms[s].db, e.sub, e.op)) && !RatesBadly(e.op) ==>
            resp.status == if Lost(ms[t].pcs[i]) then 500 else 404)
      && resp.status in {200, 201, 204, 404, 500}
  {
    hide FreshArrivals, Execution, InTables, Dispatch, Responds, LostBy;
    var s := Statuses(verify, arrivals, ms, who, t, i, resp);
  }

  /** A first statement that does not find what the request names ends the call with 404. */
  lemma MissingAtFirst(reqs: seq<Call>, m: Machine, i: nat, m': Machine)
    requires i < |reqs| && Inv(reqs, m) && i < |m.pcs| && m.pcs[i].Ready? && Begins(reqs, m, i, m') && reqs[i].sub != ""
    requires !InTables(m.db, reqs[i].sub, reqs[i].op) && !RatesBadly(reqs[i].op)
    ensures i < |m'.pcs| && m'.pcs[i] == Finished(Failed(NotFound)) && m'.db == m.db
  {
    hide Inv, Consistent, PcOk, IsListing, NoRowLocked, NoKeyShared, Cascade, BeginsCreate;
    NewToTables(reqs, m, i, 0);
    if reqs[i].op.BranchFromMessage? && reqs[i].op.messageId in m.db.messages {
      OwnershipChecksAgree(m.db, reqs[i].sub, reqs[i].op.messageId);
    }
  }

  /** The response of a readiness probe, whose call lists the conversations of a fixed subject. */
  predicate RespondsToProbe(pc: Pc, resp: Response) {
    (pc.Finished? && resp == RespondProbe(pc.reply)) || (pc.Unheard? && resp == RespondProbe(Failed(Internal)))
  }

  /** A readiness probe is answered 503 if its connection was lost and 200 otherwise, always without a body. */
  lemma ProbeStatus(verify: Verifier, arrivals: seq<Arrival>, ms: seq<Machine>, who: seq<nat>, t: nat, i: nat, resp: Response)
    requires FreshArrivals(arrivals) && Execution(Calls(verify, arrivals), ms, who) && t <= |who| && i < |Calls(verify, arrivals)|
    requires |ms| == |who| + 1 && i < |ms[t].pcs| && RespondsToProbe(ms[t].pcs[i], resp)
    requires Calls(verify, arrivals)[i].op == ListConversations
    ensures resp == Response(if Lost(ms[t].pcs[i]) then 503 else 200, None)
    ensures Lost(ms[t].pcs[i]) ==> LostBy(ms, who, t, i)
  {
    hide FreshTrace, FreshArrivals, Execution, Checked, Dispatch, LostBy;
    var reqs := Calls(verify, arrivals);
    CallsAreFresh(verify, arrivals);
    ConcurrentHttp.CallsAreChecked(verify, arrivals);
    SizesStay(reqs, ms, who);
    var s := EveryoneTold(reqs, ms, who, t, i);
  }
}
