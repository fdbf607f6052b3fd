/** The HTTP layer over the Postgres store: what its requests can store and what they can be answered. */
module HttpOverPostgres {
  import opened StoreTypes
  import opened Tables
  import opened RelationalSpec
  import opened Http

  ghost predicate RolesOk(d: Database) {
    forall x :: x in d.messages ==> ValidRole(d.messages[x].role)
  }

  /** Every call a sequence of requests makes carries a subject, and every append a valid role. */
  lemma {:induction false} CallsAreChecked(verify: Verifier, arrivals: seq<Arrival>, k: nat)
    requires k < |Calls(verify, arrivals)|
    ensures Calls(verify, arrivals)[k].sub != ""
    ensures Calls(verify, arrivals)[k].op.AppendMessage? ==> ValidRole(Calls(verify, arrivals)[k].op.role)
  {
    var n := |arrivals| - 1;
    if k < |Calls(verify, arrivals[..n])| {
      CallsAreChecked(verify, arrivals[..n], k);
    } else {
      InvokesAreVerified(verify, arrivals[n].req);
    }
  }

  // --- Roles

  lemma CopiesKeepRoles(d: Database, d': Database, head: Conversation, ms: seq<Message>, mint: Mint)
    requires RolesOk(d) && CopiesAdded(d, d', head, ms, mint, |ms|)
    requires forall k :: 0 <= k < |ms| ==> ValidRole(ms[k].role)
    ensures RolesOk(d')
  {
    forall x | x in d'.messages && x !in d.messages ensures ValidRole(d'.messages[x].role) {
      var k: nat :| 1 <= k <= |ms| && x == mint(k);
      assert d'.messages[x] == CopyRow(head, ms[k - 1]);
    }
  }

  lemma SelectedRoles(d: Database, c: Id, sub: Subject, until: Option<Time>, ms: seq<Message>)
    requires RolesOk(d) && IsResult(d, c, sub, until, ms)
    ensures forall k :: 0 <= k < |ms| ==> ValidRole(ms[k].role)
  {
    forall k | 0 <= k < |ms| ensures ValidRole(ms[k].role) {
      assert ms[k] in Selected(d, c, sub, until);
    }
  }

  lemma BranchKeepsRoles(d: Database, e: Call, d': Database, r: Reply)
    requires RolesOk(d) && Unused(d, e.mint) && Steps(d, e, d', r) && e.op.BranchFromMessage?
    ensures RolesOk(d')
  {
    hide RolesOk, Steps, CopiesAdded, IsResult, ValidRole, JoinsSource;
    if e.sub != "" && JoinsSource(d, e.sub, e.op.messageId) {
      JoinsMessage(d, e.sub, e.op.messageId);
      var ms := BranchDone(d, e, d', r);
      var row, d1 := d.messages[e.op.messageId], d.(conversations := d.conversations[e.mint(0) := BranchRow(d, e)]);
      SelectedRoles(d, row.conversationId, e.sub, Some(row.createdAt), ms);
      SameRoles(d, d1);
      CopiesKeepRoles(d1, d', BranchRow(d, e), ms, e.mint);
    } else {
      BranchRefused(d, e, d', r);
    }
  }

  lemma JoinsMessage(d: Database, sub: Subject, m: Id)
    requires JoinsSource(d, sub, m)
    ensures m in d.messages
  {
  }

  lemma SameRoles(d: Database, d1: Database)
    requires RolesOk(d) && d1.messages == d.messages
    ensures RolesOk(d1)
  {
  }

  lemma StepKeepsRoles(d: Database, e: Call, d': Database, r: Reply)
    requires RolesOk(d) && Unused(d, e.mint) && Steps(d, e, d', r)
    requires e.op.AppendMessage? ==> ValidRole(e.op.role)
    ensures RolesOk(d')
  {
    hide ValidRole, Steps;
    if e.op.BranchFromMessage? {
      BranchKeepsRoles(d, e, d', r);
    } else {
      StepsTo(d, e, d', r);
      SimpleRoles(d, e);
    }
  }

  lemma SimpleRoles(d: Database, e: Call)
    requires RolesOk(d) && !e.op.BranchFromMessage? && (e.op.AppendMessage? ==> ValidRole(e.op.role))
    ensures RolesOk(TablesAfter(d, e))
  {
    hide ValidRole, MessagesIn;
  }

  /** Every message row ever stored for requests, inserted or copied by a branch, has one of the four roles. */
  lemma {:induction false} StoredRolesAreValid(verify: Verifier, arrivals: seq<Arrival>, ds: seq<Database>, rs: seq<Reply>, n: nat)
    requires FreshArrivals(arrivals) && Runs(Calls(verify, arrivals), ds, rs) && n <= |Calls(verify, arrivals)|
    ensures RolesOk(ds[n])
  {
    hide Steps, FreshArrivals, ValidRole;
    if n > 0 {
      var tr := Calls(verify, arrivals);
      StoredRolesAreValid(verify, arrivals, ds, rs, n - 1);
      CallsAreFresh(verify, arrivals);
      RunsConsistent(tr, ds, rs, n - 1);
      CallsAreChecked(verify, arrivals, n - 1);
      StepKeepsRoles(ds[n - 1], tr[n - 1], ds[n], rs[n - 1]);
    }
  }

  // --- Status 403

  lemma MappedIsNotForbidden(err: DriverError)
    ensures MapPgErr(err) != Forbidden
  {
  }

  /** The store answers Forbidden only to a call without a subject. */
  lemma ForbiddenNeedsNoSubject(d: Database, e: Call, d': Database, r: Reply)
    requires Steps(d, e, d', r) && r == Failed(Forbidden)
    ensures e.sub == ""
  {
    hide MapPgErr;
    forall err ensures MapPgErr(err) != Forbidden {
      MappedIsNotForbidden(err);
    }
  }

  /** No request is answered with status 403, whichever way SQL leaves a result open. */
  lemma NeverForbidden(verify: Verifier, arrivals: seq<Arrival>, ds: seq<Database>, rs: seq<Reply>, k: nat)
    requires Runs(Calls(verify, arrivals), ds, rs) && k < |Calls(verify, arrivals)|
    ensures Respond(Calls(verify, arrivals)[k].op, rs[k]).status != 403
  {
    hide Steps;
    var e := Calls(verify, arrivals)[k];
    CallsAreChecked(verify, arrivals, k);
    assert Steps(ds[k], e, ds[k + 1], rs[k]);
    if rs[k] == Failed(Forbidden) {
      ForbiddenNeedsNoSubject(ds[k], e, ds[k + 1], rs[k]);
    }
  }
}
