/** The REST interface over the Postgres store: its responses and statuses, in the same literal terms as over the in-memory
    store. */
module PostgresContract {
  import opened StoreTypes
  import opened MemorySpec
  import MemoryInvariants
  import opened Tables
  import opened RelationalSpec
  import opened Http
  import opened HttpContract

  /** One request served: the tables after it and the response. */
  ghost predicate ServesOn(d: Database, verify: Verifier, a: Arrival, d': Database, resp: Response) {
    match Dispatch(verify, a.req)
    case Answer(status) => d' == d && resp == Response(status, None)
    case Probe => exists r :: Steps(d, Call(PROBE, ListConversations, a.now, a.mint), d', r) && resp == RespondProbe(r)
    case Invoke(sub, op) => exists r :: Steps(d, Call(sub, op, a.now, a.mint), d', r) && resp == Respond(op, r)
  }

  /** The messages are the rows of the conversation, each once, in time order. */
  ghost predicate Transcribes(d: Database, c: Id, ms: seq<Message>) {
    && (forall i :: 0 <= i < |ms| ==>
          var x := ms[i];
          && x.id in d.messages && x.conversationId == c
          && d.messages[x.id] == MessageRow(c, d.messages[x.id].sub, x.role, x.content, x.createdAt))
    && (forall i, j :: 0 <= i < j < |ms| ==> ms[i].id != ms[j].id && ms[i].createdAt <= ms[j].createdAt)
    && (forall m :: m in d.messages && d.messages[m].conversationId == c ==> exists i :: 0 <= i < |ms| && ms[i].id == m)
  }

  /** The tables read as the state of an in-memory store: their rows, with every conversation's messages in some time order. */
  ghost predicate Reading(d: Database, s: State) {
    && s.convs == d.conversations && s.fb == d.feedback && s.msgs.Keys == d.conversations.Keys
    && forall c :: c in s.msgs ==> Transcribes(d, c, s.msgs[c])
  }

  lemma ResultTranscribes(d: Database, c: Id, sub: Subject, ms: seq<Message>)
    requires Consistent(d) && OwnsRow(d, sub, c) && IsResult(d, c, sub, None, ms)
    ensures Transcribes(d, c, ms)
  {
    forall i | 0 <= i < |ms|
      ensures ms[i].id in d.messages && ms[i] == ToMessage(ms[i].id, d.messages[ms[i].id]) && d.messages[ms[i].id].conversationId == c
    {
      assert ms[i] in Selected(d, c, sub, None);
    }
    forall m | m in d.messages && d.messages[m].conversationId == c ensures exists i :: 0 <= i < |ms| && ms[i].id == m {
      assert OwnsRow(d, d.messages[m].sub, c);
      assert ToMessage(m, d.messages[m]) in Selected(d, c, sub, None);
      assert ToMessage(m, d.messages[m]) in ms;
    }
  }

  ghost function SomeTranscript(d: Database, c: Id): (ms: seq<Message>)
    requires Consistent(d) && c in d.conversations
    ensures Transcribes(d, c, ms)
  {
    var sub := d.conversations[c].sub;
    ResultExists(d, c, sub, None);
    var ms :| IsResult(d, c, sub, None, ms);
    ResultTranscribes(d, c, sub, ms);
    ms
  }

  ghost function SomeReading(d: Database): (s: State)
    requires Consistent(d)
    ensures Reading(d, s)
  {
    State(d.conversations, map c | c in d.conversations :: SomeTranscript(d, c), map[], d.feedback)
  }

  lemma ReadingWith(d: Database, s: State, c: Id, ms: seq<Message>)
    requires Reading(d, s) && c in d.conversations && Transcribes(d, c, ms)
    ensures Reading(d, s.(msgs := s.msgs[c := ms]))
  {
  }

  /** A message is the subject's in the tables if and only if it is in every reading of them. */
  lemma MineTooInTables(d: Database, s: State, sub: Subject, m: Id)
    requires Consistent(d) && Reading(d, s)
    ensures MineToo(s, sub, m) <==> m in d.messages && d.messages[m].sub == sub
    ensures MineToo(s, sub, m) ==> Owns(s, sub, d.messages[m].conversationId) && exists i: nat :: Holds(s, d.messages[m].conversationId, i, m)
  {
    if m in d.messages {
      var c := d.messages[m].conversationId;
      assert OwnsRow(d, d.messages[m].sub, c) && Transcribes(d, c, s.msgs[c]);
      var i: nat :| i < |s.msgs[c]| && s.msgs[c][i].id == m;
      assert Holds(s, c, i, m) && Mine(s, d.messages[m].sub, c);
    }
  }

  lemma ListingOfTables(d: Database, s: State, sub: Subject, cs: seq<Conversation>)
    requires Consistent(d) && Reading(d, s) && IsListing(d.conversations, sub, cs)
    ensures Listed(s, sub, cs)
  {
    forall i | 0 <= i < |cs| ensures Mine(s, sub, cs[i].id) && cs[i] == s.convs[cs[i].id] {
      assert cs[i] in Owned(s.convs, sub);
    }
    forall c | Mine(s, sub, c) ensures exists i :: 0 <= i < |cs| && cs[i].id == c {
      assert s.convs[c] in Owned(s.convs, sub);
    }
  }

  // --- Every response is the expected one

  ghost predicate HandlesOn(d: Database, a: Arrival, sub: Subject, d': Database, resp: Response) {
    match Handle(Some(sub), a.req)
    case Answer(status) => d' == d && resp == Response(status, None)
    case Probe => false
    case Invoke(caller, op) => caller == sub && exists r :: Steps(d, Call(sub, op, a.now, a.mint), d', r) && resp == Respond(op, r)
  }

  lemma HandledOn(d: Database, verify: Verifier, a: Arrival, sub: Subject, d': Database, resp: Response)
    requires By(verify, a.req, sub) && ServesOn(d, verify, a, d', resp)
    ensures HandlesOn(d, a, sub, d', resp)
  {
    hide Steps, Respond, Bears, Dispatch;
    ReachesHandler(verify, a.req, sub);
  }

  lemma CreateReply(d: Database, e: Call, d': Database, r: Reply)
    requires Unused(d, e.mint) && e.op.CreateConversation? && e.sub != "" && Steps(d, e, d', r)
    ensures r == OneConversation(Conversation(e.mint(0), e.sub, e.op.title, e.now, e.now))
  {
    hide IsListing, BranchSteps, IsResult, RenameStep, DeleteStep, AppendStep, UpsertStep;
  }

  lemma ListReply(d: Database, e: Call, d': Database, r: Reply)
    requires e.op.ListConversations? && e.sub != "" && Steps(d, e, d', r)
    ensures r.Conversations? && IsListing(d.conversations, e.sub, r.conversations)
  {
    hide IsListing, BranchSteps, IsResult, CreateStep, RenameStep, DeleteStep, AppendStep, UpsertStep;
  }

  lemma ConversationsAnswered(d: Database, a: Arrival, sub: Subject, d': Database, resp: Response, s: State)
    requires Consistent(d) && Unused(d, a.mint) && Reading(d, s) && sub != ""
    requires a.req.path == ConversationsPath && a.req.verb != OPTIONS && HandlesOn(d, a, sub, d', resp)
    ensures Expected(s, a, sub, resp)
  {
    hide Consistent, Reading, Unused, Steps, Listed, IsListing;
    if Reads(a.req.verb) {
      var e := Call(sub, ListConversations, a.now, a.mint);
      var r :| Steps(d, e, d', r) && resp == Respond(e.op, r);
      ListReply(d, e, d', r);
      ListingOfTables(d, s, sub, r.conversations);
    } else if a.req.verb == POST && a.req.decoded.Some? {
      var e := Call(sub, CreateConversation(a.req.decoded.value.title), a.now, a.mint);
      var r :| Steps(d, e, d', r) && resp == Respond(e.op, r);
      CreateReply(d, e, d', r);
    }
  }

  lemma ConversationAnswered(d: Database, a: Arrival, sub: Subject, d': Database, resp: Response, s: State)
    requires Consistent(d) && Reading(d, s)
    requires a.req.path.ConversationPath? && a.req.verb != OPTIONS && HandlesOn(d, a, sub, d', resp)
    ensures Expected(s, a, sub, resp)
  {
    hide Consistent, Transcribes, IsListing, BranchSteps, IsResult, CreateStep, AppendStep, UpsertStep, Cascade;
  }

  lemma MessagesListed(d: Database, a: Arrival, sub: Subject, d': Database, resp: Response, s0: State) returns (s: State)
    requires Consistent(d) && Reading(d, s0)
    requires a.req.path.MessagesPath? && Reads(a.req.verb) && HandlesOn(d, a, sub, d', resp)
    ensures Reading(d, s) && Expected(s, a, sub, resp)
  {
    hide Consistent, Transcribes, IsListing, BranchSteps, IsResult, CreateStep, RenameStep, DeleteStep, AppendStep, UpsertStep;
    var id := a.req.path.id;
    var r :| Steps(d, Call(sub, ListMessages(id), a.now, a.mint), d', r) && resp == Respond(ListMessages(id), r);
    s := s0;
    if OwnsRow(d, sub, id) {
      ResultTranscribes(d, id, sub, r.messages);
      ReadingWith(d, s0, id, r.messages);
      s := s0.(msgs := s0.msgs[id := r.messages]);
    }
  }

  lemma AppendReply(d: Database, e: Call, d': Database, r: Reply)
    requires Unused(d, e.mint) && e.op.AppendMessage? && Steps(d, e, d', r)
    ensures r == if OwnsRow(d, e.sub, e.op.conversationId)
      then OneMessage(Message(e.mint(0), e.op.conversationId, e.op.role, e.op.content, e.now)) else Failed(NotFound)
  {
    hide IsListing, BranchSteps, IsResult, CreateStep, RenameStep, DeleteStep, UpsertStep;
  }

  lemma MessageAnswered(d: Database, a: Arrival, sub: Subject, d': Database, resp: Response, s: State)
    requires Consistent(d) && Unused(d, a.mint) && Reading(d, s)
    requires a.req.path.MessagesPath? && !Reads(a.req.verb) && a.req.verb != OPTIONS && HandlesOn(d, a, sub, d', resp)
    ensures Expected(s, a, sub, resp)
  {
    hide Consistent, Transcribes, Unused, Steps;
    if a.req.verb == POST && a.req.decoded.Some? && RoleNamed(a.req.decoded.value.role) {
      var e := Call(sub, AppendMessage(a.req.path.id, a.req.decoded.value.role, a.req.decoded.value.content), a.now, a.mint);
      var r :| Steps(d, e, d', r) && resp == Respond(e.op, r);
      AppendReply(d, e, d', r);
    }
  }

  lemma MessagesAnswered(d: Database, a: Arrival, sub: Subject, d': Database, resp: Response, s0: State) returns (s: State)
    requires Consistent(d) && Unused(d, a.mint) && Reading(d, s0)
    requires a.req.path.MessagesPath? && a.req.verb != OPTIONS && HandlesOn(d, a, sub, d', resp)
    ensures Reading(d, s) && Expected(s, a, sub, resp)
  {
    hide Consistent, Reading, Unused, HandlesOn, Expected;
    if Reads(a.req.verb) {
      s := MessagesListed(d, a, sub, d', resp, s0);
    } else {
      s := s0;
      MessageAnswered(d, a, sub, d', resp, s);
    }
  }

  lemma BranchReply(d: Database, e: Call, d': Database, r: Reply, s: State)
    requires Consistent(d) && Unused(d, e.mint) && Reading(d, s) && e.sub != "" && e.op.BranchFromMessage? && Steps(d, e, d', r)
    ensures if MineToo(s, e.sub, e.op.messageId)
      then exists c, i: nat ::
        && Mine(s, e.sub, c) && Holds(s, c, i, e.op.messageId)
        && r == OneConversation(Conversation(e.mint(0), e.sub, if e.op.title != "" then e.op.title else s.convs[c].title + " (branch)", e.now, e.now))
      else r == Failed(NotFound)
  {
    hide Steps, Transcribes, Unused, CopyQuery, CopiesAdded, Holds, MineToo;
    var m := e.op.messageId;
    MineTooInTables(d, s, e.sub, m);
    if MineToo(s, e.sub, m) {
      OwnershipChecksAgree(d, e.sub, m);
      var _ := BranchDone(d, e, d', r);
      var c := d.messages[m].conversationId;
      var i: nat :| Holds(s, c, i, m);
      assert Mine(s, e.sub, c) && Holds(s, c, i, m);
    } else {
      BranchRefused(d, e, d', r);
    }
  }

  lemma BranchAnswered(d: Database, a: Arrival, sub: Subject, d': Database, resp: Response, s: State)
    requires Consistent(d) && Unused(d, a.mint) && Reading(d, s) && sub != ""
    requires a.req.path.BranchPath? && a.req.verb != OPTIONS && HandlesOn(d, a, sub, d', resp)
    ensures Expected(s, a, sub, resp)
  {
    hide Consistent, Reading, Steps, Unused, Holds, MineToo;
    if a.req.verb == POST && (a.req.contentLength <= 0 || a.req.decoded.Some?) {
      var e := Call(sub, BranchFromMessage(a.req.path.id, if a.req.contentLength > 0 then a.req.decoded.value.title else ""), a.now, a.mint);
      var r :| Steps(d, e, d', r) && resp == Respond(e.op, r);
      BranchReply(d, e, d', r, s);
    }
  }

  lemma UpsertReply(d: Database, e: Call, d': Database, r: Reply)
    requires e.op.UpsertFeedback? && Steps(d, e, d', r)
    ensures r == if e.op.rating != "good" && e.op.rating != "bad" then Failed(InvalidRating)
      else if OwnsMessage(d, e.sub, e.op.messageId) then OneFeedback(Feedback(e.op.messageId, e.sub, e.op.rating, e.op.comment, e.now))
      else Failed(NotFound)
  {
    hide IsListing, BranchSteps, IsResult, CreateStep, RenameStep, DeleteStep, AppendStep;
  }

  lemma FeedbackRead(d: Database, a: Arrival, sub: Subject, d': Database, resp: Response, s: State)
    requires Reading(d, s) && a.req.path.FeedbackPath? && Reads(a.req.verb) && HandlesOn(d, a, sub, d', resp)
    ensures Expected(s, a, sub, resp)
  {
    hide Transcribes, IsListing, BranchSteps, IsResult, CreateStep, RenameStep, DeleteStep, AppendStep, UpsertStep;
  }

  lemma FeedbackAnswered(d: Database, a: Arrival, sub: Subject, d': Database, resp: Response, s: State)
    requires Consistent(d) && Reading(d, s)
    requires a.req.path.FeedbackPath? && a.req.verb != OPTIONS && HandlesOn(d, a, sub, d', resp)
    ensures Expected(s, a, sub, resp)
  {
    hide Consistent, Reading, MineToo, Steps;
    if Reads(a.req.verb) {
      FeedbackRead(d, a, sub, d', resp, s);
    } else if a.req.verb == PUT && a.req.decoded.Some? {
      var e := Call(sub, UpsertFeedback(a.req.path.id, a.req.decoded.value.rating, a.req.decoded.value.comment), a.now, a.mint);
      var r :| Steps(d, e, d', r) && resp == Respond(e.op, r);
      UpsertReply(d, e, d', r);
      MineTooInTables(d, s, sub, a.req.path.id);
    }
  }

  /** Every response over the tables is the one expected over some reading of them, which differ only in how they order messages
      of equal dates. */
  lemma ServesExpected(d: Database, verify: Verifier, a: Arrival, d': Database, sub: Subject, resp: Response) returns (s: State)
    requires Consistent(d) && Unused(d, a.mint) && By(verify, a.req, sub) && ServesOn(d, verify, a, d', resp)
    ensures Reading(d, s) && Expected(s, a, sub, resp)
  {
    hide Consistent, Unused, Reading, Bears, ServesOn, HandlesOn, Expected;
    HandledOn(d, verify, a, sub, d', resp);
    NotAnonymous(verify, a.req, sub);
    s := SomeReading(d);
    match a.req.path
    case ConversationsPath => ConversationsAnswered(d, a, sub, d', resp, s);
    case ConversationPath(_) => ConversationAnswered(d, a, sub, d', resp, s);
    case MessagesPath(_) => s := MessagesAnswered(d, a, sub, d', resp, s);
    case BranchPath(_) => BranchAnswered(d, a, sub, d', resp, s);
    case FeedbackPath(_) => FeedbackAnswered(d, a, sub, d', resp, s);
    case Elsewhere => ElsewhereAnswered(d, a, sub, d', resp, s);
    case Healthz =>
    case Readyz =>
  }

  lemma ElsewhereAnswered(d: Database, a: Arrival, sub: Subject, d': Database, resp: Response, s: State)
    requires a.req.path == Elsewhere && HandlesOn(d, a, sub, d', resp)
    ensures Expected(s, a, sub, resp)
  {
    hide Steps;
  }

  // --- Statuses

  /** What a request names is there for the subject. */
  predicate InTables(d: Database, sub: Subject, op: Op) {
    match op
    case CreateConversation(_) => true
    case ListConversations => true
    case GetConversation(c) => c in d.conversations && d.conversations[c].sub == sub
    case RenameConversation(c, _) => c in d.conversations && d.conversations[c].sub == sub
    case DeleteConversation(c) => c in d.conversations && d.conversations[c].sub == sub
    case AppendMessage(c, _, _) => c in d.conversations && d.conversations[c].sub == sub
    case ListMessages(c) => c in d.conversations && d.conversations[c].sub == sub
    case BranchFromMessage(m, _) => m in d.messages && d.messages[m].sub == sub
    case UpsertFeedback(m, _, _) => m in d.messages && d.messages[m].sub == sub
    case GetFeedback(m) => FeedbackKey(sub, m) in d.feedback
  }

  lemma FoundInTables(d: Database, s: State, sub: Subject, op: Op)
    requires Consistent(d) && Reading(d, s)
    ensures Found(s, sub, op) <==> InTables(d, sub, op)
  {
    hide Consistent, Transcribes, MineToo;
    if op.BranchFromMessage? || op.UpsertFeedback? {
      MineTooInTables(d, s, sub, op.messageId);
    }
  }

  /** The status of a request of a subject over any consistent tables. */
  lemma Statuses(d: Database, verify: Verifier, a: Arrival, d': Database, sub: Subject, resp: Response)
    requires Consistent(d) && Unused(d, a.mint) && By(verify, a.req, sub) && ServesOn(d, verify, a, d', resp)
    ensures resp.status == match Route(a.req) { case None => StatusUnrouted(a.req) case Some(op) => StatusOf(op, InTables(d, sub, op)) }
  {
    hide Consistent, Unused, Reading, Bears, ServesOn, Expected, Route, Found, InTables;
    var s := ServesExpected(d, verify, a, d', sub, resp);
    ExpectedStatus(s, a, sub, resp);
    if Route(a.req).Some? {
      FoundInTables(d, s, sub, Route(a.req).value);
    }
  }

  // --- Over whole runs

  /** Requests served one after the other: the tables between them and the responses. */
  ghost predicate Served(verify: Verifier, arrivals: seq<Arrival>, ds: seq<Database>, resps: seq<Response>) {
    && |ds| == |arrivals| + 1 && |resps| == |arrivals| && ds[0] == NoRows
    && forall i :: 0 <= i < |arrivals| ==> ServesOn(ds[i], verify, arrivals[i], ds[i + 1], resps[i])
  }

  lemma ServedPrefix(verify: Verifier, arrivals: seq<Arrival>, ds: seq<Database>, resps: seq<Response>, n: nat)
    requires Served(verify, arrivals, ds, resps) && n <= |arrivals|
    ensures Served(verify, arrivals[..n], ds[..n + 1], resps[..n])
  {
    hide ServesOn;
    forall i | 0 <= i < n ensures ServesOn(ds[..n + 1][i], verify, arrivals[..n][i], ds[..n + 1][i + 1], resps[..n][i]) {
      assert ServesOn(ds[i], verify, arrivals[i], ds[i + 1], resps[i]);
    }
  }

  /** The requests' calls make a run of the store to the same tables. */
  lemma {:induction false} ServedIsRun(verify: Verifier, arrivals: seq<Arrival>, ds: seq<Database>, resps: seq<Response>)
    returns (es: seq<Database>, rs: seq<Reply>)
    requires Served(verify, arrivals, ds, resps)
    ensures Runs(Calls(verify, arrivals), es, rs) && es[|es| - 1] == ds[|arrivals|]
  {
    hide Steps, Dispatch, Respond, RespondProbe;
    if arrivals == [] {
      es, rs := [NoRows], [];
    } else {
      var n := |arrivals| - 1;
      ServedPrefix(verify, arrivals, ds, resps, n);
      es, rs := ServedIsRun(verify, arrivals[..n], ds[..n + 1], resps[..n]);
      assert ServesOn(ds[n], verify, arrivals[n], ds[n + 1], resps[n]);
      match CallOf(verify, arrivals[n])
      case None =>
      case Some(e) =>
        var r :| Steps(ds[n], e, ds[n + 1], r);
        RunsSnoc(Calls(verify, arrivals[..n]), es, rs, e, ds[n + 1], r);
        es, rs := es + [ds[n + 1]], rs + [r];
    }
  }

  /** The tables any fresh requests lead to are consistent, and the next request draws identifiers new to them. */
  lemma ServedReaches(verify: Verifier, arrivals: seq<Arrival>, ds: seq<Database>, resps: seq<Response>, a: Arrival)
    requires FreshArrivals(arrivals + [a]) && Served(verify, arrivals, ds, resps)
    ensures Consistent(ds[|arrivals|]) && Unused(ds[|arrivals|], a.mint)
  {
    hide Consistent, ServesOn, Runs;
    var tr := Calls(verify, arrivals);
    ArrivalsPrefix(arrivals, a);
    CallsAreFresh(verify, arrivals);
    var es, rs := ServedIsRun(verify, arrivals, ds, resps);
    RunEnd(tr, es, rs);
    var d := ds[|arrivals|];
    assert (arrivals + [a])[|arrivals|] == a;
    forall k: nat ensures a.mint(k) !in d.conversations && a.mint(k) !in d.messages {
      DrawnBefore(verify, arrivals, a, k);
      NotDrawn(tr, d, a.mint(k));
    }
  }

  lemma RunEnd(tr: seq<Call>, es: seq<Database>, rs: seq<Reply>)
    requires FreshTrace(tr) && Runs(tr, es, rs)
    ensures |es| > 0 && Consistent(es[|es| - 1]) && Drawn(tr, es[|es| - 1])
  {
    hide Steps, FreshTrace, Consistent, Drawn;
    RunsConsistent(tr, es, rs, |tr|);
    assert tr[..|tr|] == tr;
  }

  lemma NotDrawn(tr: seq<Call>, d: Database, x: Id)
    requires Drawn(tr, d) && !MemoryInvariants.MintedIn(tr, x)
    ensures x !in d.conversations && x !in d.messages
  {
  }

  /** Over every run of the server on Postgres: a routed request, but for a bad rating, is answered 404 if and only if what
      it names is not there for its subject; one with a bad rating is answered 500. */
  lemma NotFoundIff(verify: Verifier, arrivals: seq<Arrival>, ds: seq<Database>, resps: seq<Response>, n: nat, sub: Subject)
    requires FreshArrivals(arrivals) && Served(verify, arrivals, ds, resps) && n < |arrivals|
    requires By(verify, arrivals[n].req, sub) && Route(arrivals[n].req).Some?
    ensures var op := Route(arrivals[n].req).value;
      if RatesBadly(op) then resps[n].status == 500 else resps[n].status == 404 <==> !InTables(ds[n], sub, op)
  {
    hide FreshArrivals, Consistent, Unused, ServesOn, Bears, Route, InTables, Served;
    ServedAt(verify, arrivals, ds, resps, n);
    Statuses(ds[n], verify, arrivals[n], ds[n + 1], sub, resps[n]);
  }

  lemma ServedAt(verify: Verifier, arrivals: seq<Arrival>, ds: seq<Database>, resps: seq<Response>, n: nat)
    requires FreshArrivals(arrivals) && Served(verify, arrivals, ds, resps) && n < |arrivals|
    ensures |ds| == |arrivals| + 1 && |resps| == |arrivals|
    ensures Consistent(ds[n]) && Unused(ds[n], arrivals[n].mint) && ServesOn(ds[n], verify, arrivals[n], ds[n + 1], resps[n])
  {
    hide FreshArrivals, Consistent, Unused, ServesOn;
    OneLater(arrivals, n, n);
    ServedPrefix(verify, arrivals, ds, resps, n);
    ServedReaches(verify, arrivals[..n], ds[..n + 1], resps[..n], arrivals[n]);
  }

  /** Over every run of the server on Postgres no request, admitted or not, is answered 409 or 403. */
  lemma NeverConflict(verify: Verifier, arrivals: seq<Arrival>, ds: seq<Database>, resps: seq<Response>, n: nat)
    requires FreshArrivals(arrivals) && Served(verify, arrivals, ds, resps) && n < |arrivals|
    ensures resps[n].status in {200, 201, 204, 400, 401, 404, 405, 500}
  {
    hide FreshArrivals, Consistent, Unused, ServesOn, Bears, Route, InTables, Served;
    ServedAt(verify, arrivals, ds, resps, n);
    if Guarded(arrivals[n].req) && exists sub :: Bears(verify, arrivals[n].req, sub) {
      var sub :| Bears(verify, arrivals[n].req, sub);
      Statuses(ds[n], verify, arrivals[n], ds[n + 1], sub, resps[n]);
    } else {
      NotCalled(ds[n], verify, arrivals[n], ds[n + 1], resps[n]);
    }
  }

  lemma NotCalled(d: Database, verify: Verifier, a: Arrival, d': Database, resp: Response)
    requires !Guarded(a.req) || forall sub :: !Bears(verify, a.req, sub)
    requires ServesOn(d, verify, a, d', resp)
    ensures resp.status in {200, 401, 404, 405} && d' == d
  {
    hide IsListing, BranchSteps, IsResult, Bears;
    if Guarded(a.req) {
      Turned(verify, a.req);
    }
  }
}
