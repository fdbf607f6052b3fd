/** The HTTP layer over the store: authentication, the handlers and the mapping of store errors to statuses. */
module Http {
  import opened StoreTypes
  import opened MemorySpec
  import opened MemoryInvariants
  import opened NonInterference

  datatype Verb = GET | HEAD | POST | PATCH | PUT | DELETE | OPTIONS | OtherVerb

  datatype Path =
    | Healthz
    | Readyz
    | ConversationsPath
    | ConversationPath(id: Id)
    | MessagesPath(id: Id)
    | BranchPath(id: Id)
    | FeedbackPath(id: Id)
    | Elsewhere

  /** The fields a handler's JSON body may have; a field the body leaves out is empty. */
  datatype Fields = Fields(title: string, role: string, content: string, rating: string, comment: string)

  /** A request; `decoded` is what the handler's strict decoder makes of the body, None if it refuses it. */
  datatype Request = Request(verb: Verb, path: Path, authorization: string, contentLength: int, decoded: Option<Fields>)

  datatype Response = Response(status: int, body: Option<Reply>)

  /** The verifier: the subject of a token, or an error. */
  type Verifier = string -> Option<Subject>

  const BEARER := "Bearer "
  const PROBE := "readiness-probe"

  /** What the middleware puts into the request context, or the status it answers itself. */
  datatype Admission = Refused(status: int) | Admitted(subject: Option<Subject>)

  function Authenticate(verify: Verifier, req: Request): Admission {
    if req.path == Healthz || req.path == Readyz then Admitted(None)
    else if req.verb == OPTIONS then Admitted(None)
    else if !(BEARER <= req.authorization) then Refused(401)
    else match verify(req.authorization[|BEARER|..])
      case None => Refused(401)
      case Some(sub) => if sub == "" then Refused(401) else Admitted(Some(sub))
  }

  /** What a handler does: answer at once, probe the store, or call it. */
  datatype Action = Answer(status: int) | Probe | Invoke(sub: Subject, op: Op)

  /** The handlers read the subject from the context and do not look at whether there was one. */
  function SubjectFromContext(ctx: Option<Subject>): Subject {
    match ctx
    case None => ""
    case Some(sub) => sub
  }

  /** The pattern table and the ten handlers up to their store call. GET patterns also serve HEAD. */
  function Handle(ctx: Option<Subject>, req: Request): Action {
    var sub := SubjectFromContext(ctx);
    var read := req.verb == GET || req.verb == HEAD;
    match req.path
    case Healthz => if read then Answer(200) else Answer(405)
    case Readyz => if read then Probe else Answer(405)
    case Elsewhere => Answer(404)
    case ConversationsPath =>
      if read then Invoke(sub, ListConversations)
      else if req.verb == POST then
        match req.decoded {
          case None => Answer(400)
          case Some(f) => Invoke(sub, CreateConversation(f.title))
        }
      else Answer(405)
    case ConversationPath(id) =>
      if read then Invoke(sub, GetConversation(id))
      else if req.verb == PATCH then
        match req.decoded {
          case None => Answer(400)
          case Some(f) => Invoke(sub, RenameConversation(id, f.title))
        }
      else if req.verb == DELETE then Invoke(sub, DeleteConversation(id))
      else Answer(405)
    case MessagesPath(id) =>
      if read then Invoke(sub, ListMessages(id))
      else if req.verb == POST then
        match req.decoded {
          case None => Answer(400)
          case Some(f) => if ValidRole(f.role) then Invoke(sub, AppendMessage(id, f.role, f.content)) else Answer(400)
        }
      else Answer(405)
    case BranchPath(id) =>
      if req.verb != POST then Answer(405)
      else if req.contentLength <= 0 then Invoke(sub, BranchFromMessage(id, ""))
      else match req.decoded {
        case None => Answer(400)
        case Some(f) => Invoke(sub, BranchFromMessage(id, f.title))
      }
    case FeedbackPath(id) =>
      if read then Invoke(sub, GetFeedback(id))
      else if req.verb == PUT then
        match req.decoded {
          case None => Answer(400)
          case Some(f) => Invoke(sub, UpsertFeedback(id, f.rating, f.comment))
        }
      else Answer(405)
  }

  function MapError(err: StoreError): int {
    match err
    case NotFound => 404
    case Forbidden => 403
    case Conflict => 409
    case InvalidRating => 500
    case Internal => 500
  }

  function Success(op: Op): int {
    match op
    case CreateConversation(_) => 201
    case AppendMessage(_, _, _) => 201
    case BranchFromMessage(_, _) => 201
    case DeleteConversation(_) => 204
    case _ => 200
  }

  /** The response to a store call. */
  function Respond(op: Op, r: Reply): Response {
    match r
    case Failed(err) => Response(MapError(err), None)
    case Deleted => Response(Success(op), None)
    case _ => Response(Success(op), Some(r))
  }

  function RespondProbe(r: Reply): Response {
    if r.Failed? && r.error != Forbidden then Response(503, None) else Response(200, None)
  }

  /** Middleware, then handler. */
  function Dispatch(verify: Verifier, req: Request): Action {
    match Authenticate(verify, req)
    case Refused(status) => Answer(status)
    case Admitted(ctx) => Handle(ctx, req)
  }

  /** A request with the clock reading and identifiers its store call would draw. */
  datatype Arrival = Arrival(req: Request, now: Time, mint: Mint)

  function CallOf(verify: Verifier, a: Arrival): Option<Call> {
    match Dispatch(verify, a.req)
    case Answer(_) => None
    case Probe => Some(Call(PROBE, ListConversations, a.now, a.mint))
    case Invoke(sub, op) => Some(Call(sub, op, a.now, a.mint))
  }

  /** The responses the server may give in a store state. */
  ghost predicate Serves(s: State, verify: Verifier, a: Arrival, resp: Response) {
    match Dispatch(verify, a.req)
    case Answer(status) => resp == Response(status, None)
    case Probe => exists r :: Allows(s, Call(PROBE, ListConversations, a.now, a.mint), r) && resp == RespondProbe(r)
    case Invoke(sub, op) => exists r :: Allows(s, Call(sub, op, a.now, a.mint), r) && resp == Respond(op, r)
  }

  /** The store after a request. */
  function Moves(s: State, verify: Verifier, a: Arrival): State {
    match CallOf(verify, a)
    case None => s
    case Some(e) => Next(s, e)
  }

  /** The store calls a sequence of requests makes, in order. */
  function Calls(verify: Verifier, arrivals: seq<Arrival>): seq<Call> {
    if arrivals == [] then []
    else
      var rest := Calls(verify, arrivals[..|arrivals| - 1]);
      match CallOf(verify, arrivals[|arrivals| - 1])
      case None => rest
      case Some(e) => rest + [e]
  }

  /** The store after a sequence of requests. */
  function After(verify: Verifier, arrivals: seq<Arrival>): State {
    if arrivals == [] then Empty
    else Moves(After(verify, arrivals[..|arrivals| - 1]), verify, arrivals[|arrivals| - 1])
  }

  /** Requests draw fresh identifiers, as the store calls they make do. */
  ghost predicate FreshArrivals(arrivals: seq<Arrival>) {
    && (forall i :: 0 <= i < |arrivals| ==> Injective(arrivals[i].mint))
    && (forall i, j, k: nat, l: nat :: 0 <= i < j < |arrivals| ==> arrivals[i].mint(k) != arrivals[j].mint(l))
  }

  /** A sequence of requests leaves the store where the calls it makes leave it. */
  lemma {:induction false} AfterIsRun(verify: Verifier, arrivals: seq<Arrival>)
    ensures After(verify, arrivals) == Run(Calls(verify, arrivals))
  {
    if arrivals != [] {
      var n := |arrivals| - 1;
      AfterIsRun(verify, arrivals[..n]);
      var rest := Calls(verify, arrivals[..n]);
      match CallOf(verify, arrivals[n])
      case None =>
      case Some(e) => assert (rest + [e])[..|rest|] == rest;
    }
  }

  /** Every call of an API handler carries the non-empty subject the verifier returned for this request's token. */
  lemma InvokesAreVerified(verify: Verifier, req: Request)
    ensures var act := Dispatch(verify, req);
      act.Invoke? ==> act.sub != "" && exists token :: req.authorization == "Bearer " + token && verify(token) == Some(act.sub)
  {
    if Dispatch(verify, req).Invoke? {
      var token := req.authorization[|BEARER|..];
      assert req.authorization == "Bearer " + token;
    }
  }

  /** Status 403 is never produced. */
  lemma NeverForbidden(s: State, verify: Verifier, a: Arrival, resp: Response)
    requires Serves(s, verify, a, resp)
    ensures resp.status != 403
  {
    InvokesAreVerified(verify, a.req);
  }

  /** The body of a branch request is looked at only when its length is known and positive: an authenticated request is
      answered 400 if and only if it is and the body does not decode; otherwise the store is called, with an empty
      title when the body was not looked at. */
  lemma BranchBodyRefusedIff(s: State, verify: Verifier, a: Arrival, sub: Subject, resp: Response)
    requires a.req.path.BranchPath? && a.req.verb == POST && Authenticate(verify, a.req) == Admitted(Some(sub))
    requires Serves(s, verify, a, resp)
    ensures resp.status == 400 <==> a.req.contentLength > 0 && a.req.decoded.None?
    ensures resp.status != 400 ==>
      var title := if a.req.contentLength > 0 then a.req.decoded.value.title else "";
      Dispatch(verify, a.req) == Invoke(sub, BranchFromMessage(a.req.path.id, title))
  {
    hide IsListing;
  }

  /** So a body of unknown length that does not decode is not refused. */
  lemma UnknownLengthIsNotRefused(s: State, verify: Verifier, a: Arrival, sub: Subject, resp: Response)
    requires a.req.path.BranchPath? && a.req.verb == POST && Authenticate(verify, a.req) == Admitted(Some(sub))
    requires a.req.contentLength == -1 && a.req.decoded == None && Serves(s, verify, a, resp)
    ensures resp.status != 400 && Dispatch(verify, a.req) == Invoke(sub, BranchFromMessage(a.req.path.id, ""))
  {
    hide Serves, Dispatch;
    BranchBodyRefusedIff(s, verify, a, sub, resp);
  }

  // --- Roles

  ghost predicate RolesOk(s: State) {
    forall c, i :: c in s.msgs && 0 <= i < |s.msgs[c]| ==> ValidRole(s.msgs[c][i].role)
  }

  lemma StepRoles(s: State, e: Call)
    requires RolesOk(s) && (e.op.AppendMessage? ==> ValidRole(e.op.role))
    ensures RolesOk(Next(s, e))
  {
    hide ValidRole;
  }

  /** Every message ever stored, appended or copied by a branch, has one of the four roles. */
  lemma {:induction false} StoredRolesAreValid(verify: Verifier, arrivals: seq<Arrival>)
    ensures RolesOk(After(verify, arrivals))
  {
    if arrivals != [] {
      var n := |arrivals| - 1;
      StoredRolesAreValid(verify, arrivals[..n]);
      match CallOf(verify, arrivals[n])
      case None =>
      case Some(e) => StepRoles(After(verify, arrivals[..n]), e);
    }
  }

  // --- End to end

  /** The requests whose store call is made for subject a. */
  function Of(verify: Verifier, arrivals: seq<Arrival>, a: Subject): seq<Arrival> {
    if arrivals == [] then []
    else
      var rest := Of(verify, arrivals[..|arrivals| - 1], a);
      var last := arrivals[|arrivals| - 1];
      match CallOf(verify, last)
      case None => rest
      case Some(e) => if e.sub == a then rest + [last] else rest
  }

  lemma {:induction false} OfIsPurge(verify: Verifier, arrivals: seq<Arrival>, a: Subject)
    ensures Calls(verify, Of(verify, arrivals, a)) == Purge(Calls(verify, arrivals), a)
  {
    if arrivals != [] {
      var n := |arrivals| - 1;
      var rest, last := Of(verify, arrivals[..n], a), arrivals[n];
      OfIsPurge(verify, arrivals[..n], a);
      match CallOf(verify, last)
      case None =>
      case Some(e) =>
        var calls := Calls(verify, arrivals[..n]);
        assert (calls + [e])[..|calls|] == calls;
        if e.sub == a {
          assert (rest + [last])[..|rest|] == rest;
        }
    }
  }

  ghost predicate DrawnBy(arrivals: seq<Arrival>, e: Call) {
    exists i :: 0 <= i < |arrivals| && e.mint == arrivals[i].mint
  }

  /** The calls of fresh arrivals are a fresh trace. */
  lemma {:induction false} CallsAreFresh(verify: Verifier, arrivals: seq<Arrival>)
    requires FreshArrivals(arrivals)
    ensures FreshTrace(Calls(verify, arrivals))
    ensures forall k :: 0 <= k < |Calls(verify, arrivals)| ==> DrawnBy(arrivals, Calls(verify, arrivals)[k])
  {
    if arrivals != [] {
      var n := |arrivals| - 1;
      CallsAreFresh(verify, arrivals[..n]);
      var rest := Calls(verify, arrivals[..n]);
      var all := Calls(verify, arrivals);
      forall k | 0 <= k < |all| ensures DrawnBy(arrivals, all[k]) {
        if k < |rest| {
          assert DrawnBy(arrivals[..n], rest[k]);
          var i :| 0 <= i < n && rest[k].mint == arrivals[..n][i].mint;
          assert all[k].mint == arrivals[i].mint;
        } else {
          assert all[k].mint == arrivals[n].mint;
        }
      }
      LastIsFresh(arrivals, rest, all);
    }
  }

  lemma LastIsFresh(arrivals: seq<Arrival>, rest: seq<Call>, all: seq<Call>)
    requires FreshArrivals(arrivals) && arrivals != [] && FreshTrace(rest)
    requires forall k :: 0 <= k < |rest| ==> DrawnBy(arrivals[..|arrivals| - 1], rest[k])
    requires all == rest || (|all| == |rest| + 1 && all[..|rest|] == rest && all[|rest|].mint == arrivals[|arrivals| - 1].mint)
    ensures FreshTrace(all)
  {
    var n := |arrivals| - 1;
    if all != rest {
      forall i, k: nat, l: nat | 0 <= i < |rest| ensures all[i].mint(k) != all[|rest|].mint(l) {
        assert DrawnBy(arrivals[..n], rest[i]);
        var h :| 0 <= h < n && rest[i].mint == arrivals[..n][h].mint;
        assert arrivals[h].mint(k) != arrivals[n].mint(l);
      }
    }
  }

  /** Non-interference through HTTP: of all the requests served before, only those of the same subject matter to
      a response. */
  lemma ResponsesIgnoreOthers(verify: Verifier, arrivals: seq<Arrival>, a: Arrival, resp: Response)
    requires FreshArrivals(arrivals + [a])
    requires CallOf(verify, a).Some?
    ensures var mine := Of(verify, arrivals, CallOf(verify, a).value.sub);
      Serves(After(verify, arrivals), verify, a, resp) <==> Serves(After(verify, mine), verify, a, resp)
  {
    hide Allows, FreshArrivals, Inv, FreshFor, IndexOk;
    var e := CallOf(verify, a).value;
    SameReplies(verify, arrivals, a);
  }

  lemma SameReplies(verify: Verifier, arrivals: seq<Arrival>, a: Arrival)
    requires FreshArrivals(arrivals + [a]) && CallOf(verify, a).Some?
    ensures var e := CallOf(verify, a).value; var mine := Of(verify, arrivals, e.sub);
      forall r :: Allows(After(verify, arrivals), e, r) <==> Allows(After(verify, mine), e, r)
  {
    hide Allows, FreshTrace, Part, Dispatch, Run, ConvsOk, IndexOk, FeedbackOk;
    var e := CallOf(verify, a).value;
    var mine := Of(verify, arrivals, e.sub);
    ArrivalsPrefix(arrivals, a);
    CallsAreFresh(verify, arrivals);
    AfterIsRun(verify, arrivals);
    AfterIsRun(verify, mine);
    OfIsPurge(verify, arrivals, e.sub);
    RunRestricts(Calls(verify, arrivals), e.sub);
    Reachable(Calls(verify, arrivals));
    forall r ensures Allows(After(verify, arrivals), e, r) <==> Allows(After(verify, mine), e, r) {
      OutputConsistency(After(verify, mine), After(verify, arrivals), e, r);
    }
  }

  lemma ArrivalsPrefix(arrivals: seq<Arrival>, a: Arrival)
    requires FreshArrivals(arrivals + [a])
    ensures FreshArrivals(arrivals)
  {
    var all := arrivals + [a];
    forall i, j, k: nat, l: nat | 0 <= i < j < |arrivals| ensures arrivals[i].mint(k) != arrivals[j].mint(l) {
      assert all[i].mint(k) != all[j].mint(l);
    }
    forall i | 0 <= i < |arrivals| ensures Injective(arrivals[i].mint) {
      assert Injective(all[i].mint);
    }
  }
}
