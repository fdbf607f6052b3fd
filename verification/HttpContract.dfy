/** The REST interface as its clients see it: for every request its status, its body and what later requests read,
    in literal terms. */
module HttpContract {
  import opened StoreTypes
  import opened MemorySpec
  import opened MemoryInvariants
  import opened Http

  // --- Admission

  /** The request carries a bearer token the verifier knows as the subject's. */
  ghost predicate Bears(verify: Verifier, req: Request, sub: Subject) {
    sub != "" && exists token :: req.authorization == "Bearer " + token && verify(token) == Some(sub)
  }

  /** Neither a health path nor a preflight. */
  predicate Guarded(req: Request) {
    req.path != Healthz && req.path != Readyz && req.verb != OPTIONS
  }

  lemma TokenAfter(s: string, token: string)
    requires s == "Bearer " + token
    ensures BEARER <= s && s[|BEARER|..] == token
  {
  }

  /** A guarded request that bears a subject's token reaches its handler as that subject. */
  lemma ReachesHandler(verify: Verifier, req: Request, sub: Subject)
    requires Guarded(req) && Bears(verify, req, sub)
    ensures Dispatch(verify, req) == Handle(Some(sub), req)
  {
    var token :| req.authorization == "Bearer " + token && verify(token) == Some(sub);
    TokenAfter(req.authorization, token);
  }

  /** And no other guarded request reaches any: it is answered 401. */
  lemma Turned(verify: Verifier, req: Request)
    requires Guarded(req) && forall sub :: !Bears(verify, req, sub)
    ensures Dispatch(verify, req) == Answer(401)
  {
    if BEARER <= req.authorization {
      var token := req.authorization[|BEARER|..];
      assert req.authorization == "Bearer " + token;
      match verify(token)
      case None =>
      case Some(sub) => assert !Bears(verify, req, sub);
    }
  }

  lemma HandledIsNot401(ctx: Option<Subject>, req: Request)
    ensures Handle(ctx, req) != Answer(401)
  {
  }

  /** Admission: a guarded request is answered 401, the store is not called and stays as it is, if and only if its header is
      not "Bearer " and a token the verifier gives a non-empty subject. */
  lemma RefusedIff(s: State, verify: Verifier, a: Arrival, resp: Response)
    requires Guarded(a.req) && Serves(s, verify, a, resp)
    ensures resp.status == 401 <==> forall sub :: !Bears(verify, a.req, sub)
    ensures resp.status == 401 ==> resp == Response(401, None) && Moves(s, verify, a) == s && Calls(verify, [a]) == []
  {
    hide Dispatch, Handle, IsListing, Bears;
    CallsOfOne(verify, a);
    if sub :| Bears(verify, a.req, sub) {
      ReachesHandler(verify, a.req, sub);
      HandledIsNot401(Some(sub), a.req);
    } else {
      Turned(verify, a.req);
    }
  }

  lemma CallsOfOne(verify: Verifier, a: Arrival)
    ensures Calls(verify, [a]) == match CallOf(verify, a) { case None => [] case Some(e) => [e] }
  {
    assert [a][..0] == [];
    assert Calls(verify, []) == [];
  }

  /** The health paths and preflights need no token; none of them changes the store. */
  lemma Unguarded(s: State, verify: Verifier, a: Arrival, resp: Response)
    requires !Guarded(a.req) && Serves(s, verify, a, resp)
    ensures Moves(s, verify, a) == s
    ensures a.req.path == Healthz && (a.req.verb == GET || a.req.verb == HEAD) ==> resp == Response(200, None) && Calls(verify, [a]) == []
    ensures a.req.path == Readyz && (a.req.verb == GET || a.req.verb == HEAD) ==>
      resp == Response(200, None) && Calls(verify, [a]) == [Call("readiness-probe", ListConversations, a.now, a.mint)]
    ensures (a.req.path == Healthz || a.req.path == Readyz) && a.req.verb != GET && a.req.verb != HEAD ==> resp.status == 405
    ensures a.req.verb == OPTIONS && Guarded(a.req.(verb := GET)) ==> resp.status == (if a.req.path == Elsewhere then 404 else 405)
  {
    hide IsListing;
    CallsOfOne(verify, a);
  }

  // --- Routes

  predicate Reads(verb: Verb) {
    verb == GET || verb == HEAD
  }

  predicate RoleNamed(role: string) {
    role == "user" || role == "assistant" || role == "system" || role == "tool"
  }

  /** The store method a request of a subject calls, if any. */
  function Route(req: Request): Option<Op> {
    match req.path
    case ConversationsPath =>
      if Reads(req.verb) then Some(ListConversations)
      else if req.verb == POST && req.decoded.Some? then Some(CreateConversation(req.decoded.value.title))
      else None
    case ConversationPath(id) =>
      if Reads(req.verb) then Some(GetConversation(id))
      else if req.verb == PATCH && req.decoded.Some? then Some(RenameConversation(id, req.decoded.value.title))
      else if req.verb == DELETE then Some(DeleteConversation(id))
      else None
    case MessagesPath(id) =>
      if Reads(req.verb) then Some(ListMessages(id))
      else if req.verb == POST && req.decoded.Some? && RoleNamed(req.decoded.value.role)
      then Some(AppendMessage(id, req.decoded.value.role, req.decoded.value.content))
      else None
    case BranchPath(id) =>
      if req.verb == POST && req.contentLength <= 0 then Some(BranchFromMessage(id, ""))
      else if req.verb == POST && req.decoded.Some? then Some(BranchFromMessage(id, req.decoded.value.title))
      else None
    case FeedbackPath(id) =>
      if Reads(req.verb) then Some(GetFeedback(id))
      else if req.verb == PUT && req.decoded.Some?
      then Some(UpsertFeedback(id, req.decoded.value.rating, req.decoded.value.comment))
      else None
    case _ => None
  }

  /** A request of a subject makes the one store call of its route, as that subject, or none. */
  lemma RoutesTo(s: State, verify: Verifier, arrivals: seq<Arrival>, a: Arrival, sub: Subject)
    requires Guarded(a.req) && Bears(verify, a.req, sub)
    ensures Calls(verify, arrivals + [a]) ==
      Calls(verify, arrivals) + match Route(a.req) { case None => [] case Some(op) => [Call(sub, op, a.now, a.mint)] }
    ensures Moves(s, verify, a) == match Route(a.req) { case None => s case Some(op) => Next(s, Call(sub, op, a.now, a.mint)) }
  {
    hide Dispatch, Next, Bears;
    ReachesHandler(verify, a.req, sub);
    assert (arrivals + [a])[..|arrivals|] == arrivals;
  }

  // --- Responses

  predicate Mine(s: State, sub: Subject, c: Id) {
    c in s.convs && s.convs[c].sub == sub
  }

  predicate Holds(s: State, c: Id, i: nat, m: Id) {
    c in s.msgs && i < |s.msgs[c]| && s.msgs[c][i].id == m
  }

  /** The message is in a conversation of the subject. */
  ghost predicate MineToo(s: State, sub: Subject, m: Id) {
    exists c, i: nat :: Mine(s, sub, c) && Holds(s, c, i, m)
  }

  lemma MineTooIsVisible(s: State, sub: Subject, m: Id)
    requires Inv(s)
    ensures MineToo(s, sub, m) <==> Visible(s, sub, m)
    ensures Visible(s, sub, m) ==> Branchable(s, sub, m)
  {
    if Visible(s, sub, m) {
      assert Occurs(s.msgs[s.index[m]], m);
      var i :| 0 <= i < |s.msgs[s.index[m]]| && s.msgs[s.index[m]][i].id == m;
      assert Mine(s, sub, s.index[m]) && Holds(s, s.index[m], i, m);
    }
  }

  lemma HeldAt(s: State, c: Id, i: nat, m: Id)
    requires Inv(s) && Holds(s, c, i, m)
    ensures m in s.index && s.index[m] == c && c in s.convs && MessagesOf(s, c) == s.msgs[c] && Position(s.msgs[c], m) == i
  {
  }

  /** All the caller's conversations, each once, the last updated first. */
  ghost predicate Listed(s: State, sub: Subject, cs: seq<Conversation>) {
    && (forall i :: 0 <= i < |cs| ==> Mine(s, sub, cs[i].id) && cs[i] == s.convs[cs[i].id])
    && (forall i, j :: 0 <= i < j < |cs| ==> cs[i].id != cs[j].id && cs[i].updatedAt >= cs[j].updatedAt)
    && (forall c :: Mine(s, sub, c) ==> exists i :: 0 <= i < |cs| && cs[i].id == c)
  }

  lemma ListedIff(s: State, sub: Subject, cs: seq<Conversation>)
    requires Inv(s)
    ensures IsListing(s.convs, sub, cs) <==> Listed(s, sub, cs)
  {
    if IsListing(s.convs, sub, cs) {
      forall i | 0 <= i < |cs| ensures Mine(s, sub, cs[i].id) && cs[i] == s.convs[cs[i].id] {
        assert cs[i] in Owned(s.convs, sub);
      }
      forall c | Mine(s, sub, c) ensures exists i :: 0 <= i < |cs| && cs[i].id == c {
        assert s.convs[c] in Owned(s.convs, sub);
      }
    }
    if Listed(s, sub, cs) {
      forall x | x in Owned(s.convs, sub) ensures x in cs {
        var c :| c in s.convs && s.convs[c].sub == sub && s.convs[c] == x;
        assert Mine(s, sub, c);
        var i :| 0 <= i < |cs| && cs[i].id == c;
        assert cs[i] == x;
      }
      forall i | 0 <= i < |cs| ensures cs[i] in Owned(s.convs, sub) {
      }
    }
  }

  function Ok(r: Reply): Response {
    Response(200, Some(r))
  }

  function Created(r: Reply): Response {
    Response(201, Some(r))
  }

  /** The request is guarded and made in the subject's name. */
  ghost predicate By(verify: Verifier, req: Request, sub: Subject) {
    Guarded(req) && Bears(verify, req, sub)
  }

  /** The response to a request of a subject. */
  ghost predicate Expected(s: State, a: Arrival, sub: Subject, resp: Response) {
    var req, now, id0 := a.req, a.now, a.mint(0);
    match req.path
    case ConversationsPath =>
      if Reads(req.verb) then exists cs :: Listed(s, sub, cs) && resp == Ok(Conversations(cs))
      else if req.verb != POST then resp == Response(405, None)
      else if req.decoded == None then resp == Response(400, None)
      else resp == Created(OneConversation(Conversation(id0, sub, req.decoded.value.title, now, now)))
    case ConversationPath(id) =>
      if !Reads(req.verb) && req.verb != PATCH && req.verb != DELETE then resp == Response(405, None)
      else if req.verb == PATCH && req.decoded == None then resp == Response(400, None)
      else if !Mine(s, sub, id) then resp == Response(404, None)
      else if Reads(req.verb) then resp == Ok(OneConversation(s.convs[id]))
      else if req.verb == PATCH then resp == Ok(OneConversation(s.convs[id].(title := req.decoded.value.title, updatedAt := now)))
      else resp == Response(204, None)
    case MessagesPath(id) =>
      if !Reads(req.verb) && req.verb != POST then resp == Response(405, None)
      else if req.verb == POST && (req.decoded == None || !RoleNamed(req.decoded.value.role)) then resp == Response(400, None)
      else if !Mine(s, sub, id) then resp == Response(404, None)
      else if Reads(req.verb) then resp == Ok(Messages(MessagesOf(s, id)))
      else resp == Created(OneMessage(Message(id0, id, req.decoded.value.role, req.decoded.value.content, now)))
    case BranchPath(m) =>
      if req.verb != POST then resp == Response(405, None)
      else if req.contentLength > 0 && req.decoded == None then resp == Response(400, None)
      else if !MineToo(s, sub, m) then resp == Response(404, None)
      else
        exists c, i: nat ::
          && Mine(s, sub, c) && Holds(s, c, i, m)
          && resp == Created(OneConversation(Conversation(id0, sub, TitleOfBranch(s, req, c), now, now)))
    case FeedbackPath(m) =>
      if !Reads(req.verb) && req.verb != PUT then resp == Response(405, None)
      else if Reads(req.verb) then
        resp == if FeedbackKey(sub, m) in s.fb then Ok(OneFeedback(s.fb[FeedbackKey(sub, m)])) else Response(404, None)
      else if req.decoded == None then resp == Response(400, None)
      else if req.decoded.value.rating != "good" && req.decoded.value.rating != "bad" then resp == Response(500, None)
      else if !MineToo(s, sub, m) then resp == Response(404, None)
      else resp == Ok(OneFeedback(Feedback(m, sub, req.decoded.value.rating, req.decoded.value.comment, now)))
    case _ => resp == Response(404, None)
  }

  /** The title in the body, if the body was looked at and has one; otherwise the source's with a suffix. */
  function TitleOfBranch(s: State, req: Request, c: Id): string
    requires c in s.convs && (req.contentLength > 0 ==> req.decoded.Some?)
  {
    if req.contentLength > 0 && req.decoded.value.title != "" then req.decoded.value.title
    else s.convs[c].title + " (branch)"
  }

  /** What the handlers let the store answer. */
  ghost predicate Handles(s: State, a: Arrival, sub: Subject, resp: Response) {
    match Handle(Some(sub), a.req)
    case Answer(status) => resp == Response(status, None)
    case Probe => false
    case Invoke(caller, op) => caller == sub && exists r :: Allows(s, Call(sub, op, a.now, a.mint), r) && resp == Respond(op, r)
  }

  lemma Handled(s: State, verify: Verifier, a: Arrival, sub: Subject, resp: Response)
    requires By(verify, a.req, sub)
    ensures Serves(s, verify, a, resp) <==> Handles(s, a, sub, resp)
  {
    hide Allows, Respond, Bears, Dispatch;
    ReachesHandler(verify, a.req, sub);
  }

  lemma ListingServed(s: State, e: Call, resp: Response)
    requires Inv(s) && e.sub != "" && e.op == ListConversations
    ensures (exists r :: Allows(s, e, r) && resp == Respond(e.op, r)) <==> exists cs :: Listed(s, e.sub, cs) && resp == Ok(Conversations(cs))
  {
    hide Inv, IsListing, Listed;
    if r :| Allows(s, e, r) && resp == Respond(ListConversations, r) {
      ListedIff(s, e.sub, r.conversations);
      assert Listed(s, e.sub, r.conversations) && resp == Ok(Conversations(r.conversations));
    }
    if cs :| Listed(s, e.sub, cs) && resp == Ok(Conversations(cs)) {
      ListedIff(s, e.sub, cs);
      assert Allows(s, e, Conversations(cs)) && resp == Respond(ListConversations, Conversations(cs));
    }
  }

  /** Every method but the listing has one reply. */
  function TheReply(s: State, e: Call): Reply {
    match e.op
    case ListConversations => Failed(Forbidden)
    case GetConversation(c) => if Owns(s, e.sub, c) then OneConversation(s.convs[c]) else Failed(NotFound)
    case ListMessages(c) => if Owns(s, e.sub, c) then Messages(MessagesOf(s, c)) else Failed(NotFound)
    case GetFeedback(m) => if FeedbackKey(e.sub, m) in s.fb then OneFeedback(s.fb[FeedbackKey(e.sub, m)]) else Failed(NotFound)
    case _ => if Succeeds(s, e) then Granted(s, e) else Failed(Refusal(e))
  }

  lemma OneReply(s: State, e: Call, resp: Response)
    requires e.op != ListConversations
    ensures (exists r :: Allows(s, e, r) && resp == Respond(e.op, r)) <==> resp == Respond(e.op, TheReply(s, e))
  {
    hide Respond, Succeeds;
    assert Allows(s, e, TheReply(s, e));
  }

  lemma ConversationsServed(s: State, a: Arrival, sub: Subject, resp: Response)
    requires Inv(s) && sub != "" && a.req.path == ConversationsPath && a.req.verb != OPTIONS
    ensures Handles(s, a, sub, resp) <==> Expected(s, a, sub, resp)
  {
    hide Inv, Listed, Allows;
    if Reads(a.req.verb) {
      ListingServed(s, Call(sub, ListConversations, a.now, a.mint), resp);
    } else if a.req.verb == POST && a.req.decoded.Some? {
      OneReply(s, Call(sub, CreateConversation(a.req.decoded.value.title), a.now, a.mint), resp);
    }
  }

  lemma ConversationServed(s: State, a: Arrival, sub: Subject, resp: Response)
    requires a.req.path.ConversationPath? && a.req.verb != OPTIONS
    ensures Handles(s, a, sub, resp) <==> Expected(s, a, sub, resp)
  {
    hide Allows;
    var id := a.req.path.id;
    if Reads(a.req.verb) {
      OneReply(s, Call(sub, GetConversation(id), a.now, a.mint), resp);
    } else if a.req.verb == DELETE {
      OneReply(s, Call(sub, DeleteConversation(id), a.now, a.mint), resp);
    } else if a.req.verb == PATCH && a.req.decoded.Some? {
      OneReply(s, Call(sub, RenameConversation(id, a.req.decoded.value.title), a.now, a.mint), resp);
    }
  }

  lemma MessagesServed(s: State, a: Arrival, sub: Subject, resp: Response)
    requires a.req.path.MessagesPath? && a.req.verb != OPTIONS
    ensures Handles(s, a, sub, resp) <==> Expected(s, a, sub, resp)
  {
    hide Allows;
    var id := a.req.path.id;
    if Reads(a.req.verb) {
      OneReply(s, Call(sub, ListMessages(id), a.now, a.mint), resp);
    } else if a.req.verb == POST && a.req.decoded.Some? {
      var f := a.req.decoded.value;
      OneReply(s, Call(sub, AppendMessage(id, f.role, f.content), a.now, a.mint), resp);
    }
  }

  lemma BranchServed(s: State, a: Arrival, sub: Subject, resp: Response)
    requires Inv(s) && sub != "" && a.req.path.BranchPath? && a.req.verb != OPTIONS
    ensures Handles(s, a, sub, resp) <==> Expected(s, a, sub, resp)
  {
    hide Allows, Inv, MineToo, Holds, Position;
    var m := a.req.path.id;
    if a.req.verb == POST && (a.req.contentLength <= 0 || a.req.decoded.Some?) {
      var title := if a.req.contentLength > 0 then a.req.decoded.value.title else "";
      OneReply(s, Call(sub, BranchFromMessage(m, title), a.now, a.mint), resp);
      MineTooIsVisible(s, sub, m);
      forall c, i: nat | Mine(s, sub, c) && Holds(s, c, i, m) ensures m in s.index && s.index[m] == c {
        HeldAt(s, c, i, m);
      }
      if MineToo(s, sub, m) {
        IsHeld(s, sub, m);
      }
    }
  }

  lemma IsHeld(s: State, sub: Subject, m: Id)
    requires MineToo(s, sub, m)
    ensures exists c, i: nat :: Mine(s, sub, c) && Holds(s, c, i, m)
  {
  }

  lemma FeedbackServed(s: State, a: Arrival, sub: Subject, resp: Response)
    requires Inv(s) && a.req.path.FeedbackPath? && a.req.verb != OPTIONS
    ensures Handles(s, a, sub, resp) <==> Expected(s, a, sub, resp)
  {
    hide Allows, Inv, MineToo;
    var m := a.req.path.id;
    if Reads(a.req.verb) {
      OneReply(s, Call(sub, GetFeedback(m), a.now, a.mint), resp);
    } else if a.req.verb == PUT && a.req.decoded.Some? {
      var f := a.req.decoded.value;
      OneReply(s, Call(sub, UpsertFeedback(m, f.rating, f.comment), a.now, a.mint), resp);
      MineTooIsVisible(s, sub, m);
    }
  }

  /** The responses a request of a subject may get are exactly the expected ones. */
  lemma ServesIff(s: State, verify: Verifier, a: Arrival, sub: Subject, resp: Response)
    requires Inv(s) && By(verify, a.req, sub)
    ensures Serves(s, verify, a, resp) <==> Expected(s, a, sub, resp)
  {
    hide Inv, Bears, Serves, Handles, Expected;
    Handled(s, verify, a, sub, resp);
    NotAnonymous(verify, a.req, sub);
    match a.req.path
    case ConversationsPath => ConversationsServed(s, a, sub, resp);
    case ConversationPath(_) => ConversationServed(s, a, sub, resp);
    case MessagesPath(_) => MessagesServed(s, a, sub, resp);
    case BranchPath(_) => BranchServed(s, a, sub, resp);
    case FeedbackPath(_) => FeedbackServed(s, a, sub, resp);
    case Elsewhere => ElsewhereServed(s, a, sub, resp);
    case Healthz =>
    case Readyz =>
  }

  lemma ElsewhereServed(s: State, a: Arrival, sub: Subject, resp: Response)
    requires a.req.path == Elsewhere
    ensures Handles(s, a, sub, resp) <==> Expected(s, a, sub, resp)
  {
  }

  lemma NotAnonymous(verify: Verifier, req: Request, sub: Subject)
    requires Bears(verify, req, sub)
    ensures sub != ""
  {
  }

  // --- Effects

  /** A copy of the first n messages, under new identifiers and one date. */
  ghost predicate CopyOf(copy: seq<Message>, ms: seq<Message>, n: nat, c: Id, a: Arrival) {
    && |copy| == n <= |ms|
    && forall k :: 0 <= k < n ==> copy[k] == Message(a.mint(k + 1), c, ms[k].role, ms[k].content, a.now)
  }

  /** What a branch of message m, the i-th of conversation c, leaves. */
  ghost predicate LeavesBranch(s: State, a: Arrival, sub: Subject, c: Id, i: nat, t: State)
    requires c in s.convs && c in s.msgs && (a.req.contentLength > 0 ==> a.req.decoded.Some?)
  {
    var id0 := a.mint(0);
    && t.convs == s.convs[id0 := Conversation(id0, sub, TitleOfBranch(s, a.req, c), a.now, a.now)]
    && id0 in t.msgs && t.msgs == s.msgs[id0 := t.msgs[id0]] && CopyOf(t.msgs[id0], s.msgs[c], i + 1, id0, a)
    && t.fb == s.fb
  }

  /** The rows a request of a subject leaves. */
  ghost predicate Leaves(s: State, a: Arrival, sub: Subject, t: State) {
    var req, now, id0 := a.req, a.now, a.mint(0);
    if req.path == ConversationsPath && req.verb == POST && req.decoded.Some? then
      && t.convs == s.convs[id0 := Conversation(id0, sub, req.decoded.value.title, now, now)]
      && t.msgs == s.msgs[id0 := []] && t.fb == s.fb
    else if req.path.ConversationPath? && req.verb == PATCH && req.decoded.Some? && Mine(s, sub, req.path.id) then
      && t.convs == s.convs[req.path.id := s.convs[req.path.id].(title := req.decoded.value.title, updatedAt := now)]
      && t.msgs == s.msgs && t.fb == s.fb
    else if req.path.ConversationPath? && req.verb == DELETE && Mine(s, sub, req.path.id) then
      t.convs == s.convs - {req.path.id} && t.msgs == s.msgs - {req.path.id} && t.fb == s.fb
    else if req.path.MessagesPath? && req.verb == POST && req.decoded.Some? && RoleNamed(req.decoded.value.role) && Mine(s, sub, req.path.id) then
      var id, f := req.path.id, req.decoded.value;
      && t.convs == s.convs[id := s.convs[id].(updatedAt := now)]
      && t.msgs == s.msgs[id := MessagesOf(s, id) + [Message(id0, id, f.role, f.content, now)]] && t.fb == s.fb
    else if req.path.BranchPath? && req.verb == POST && (req.contentLength <= 0 || req.decoded.Some?) && MineToo(s, sub, req.path.id) then
      exists c, i: nat :: Mine(s, sub, c) && Holds(s, c, i, req.path.id) && LeavesBranch(s, a, sub, c, i, t)
    else if req.path.FeedbackPath? && req.verb == PUT && req.decoded.Some?
      && (req.decoded.value.rating == "good" || req.decoded.value.rating == "bad") && MineToo(s, sub, req.path.id) then
      var m, f := req.path.id, req.decoded.value;
      && t.convs == s.convs && t.msgs == s.msgs
      && t.fb == s.fb[FeedbackKey(sub, m) := Feedback(m, sub, f.rating, f.comment, now)]
    else t == s
  }

  lemma BranchAt(s: State, e: Call, a: Arrival, c: Id, i: nat)
    requires Inv(s) && e.sub != "" && a.req.path.BranchPath? && a.now == e.now && a.mint == e.mint
    requires a.req.contentLength > 0 ==> a.req.decoded.Some?
    requires e.op == BranchFromMessage(a.req.path.id, if a.req.contentLength > 0 then a.req.decoded.value.title else "")
    requires Mine(s, e.sub, c) && Holds(s, c, i, a.req.path.id)
    ensures LeavesBranch(s, a, e.sub, c, i, Next(s, e))
  {
    hide Inv;
    HeldAt(s, c, i, a.req.path.id);
  }

  lemma BranchLeaves(s: State, e: Call, a: Arrival)
    requires Inv(s) && e.sub != "" && a.req.path.BranchPath? && a.now == e.now && a.mint == e.mint
    requires a.req.contentLength > 0 ==> a.req.decoded.Some?
    requires e.op == BranchFromMessage(a.req.path.id, if a.req.contentLength > 0 then a.req.decoded.value.title else "")
    ensures if MineToo(s, e.sub, a.req.path.id)
      then exists c, i: nat :: Mine(s, e.sub, c) && Holds(s, c, i, a.req.path.id) && LeavesBranch(s, a, e.sub, c, i, Next(s, e))
      else Next(s, e) == s
  {
    hide Inv, LeavesBranch, Holds, Effect, Position;
    var m := a.req.path.id;
    MineTooIsVisible(s, e.sub, m);
    if MineToo(s, e.sub, m) {
      var c, i: nat :| Mine(s, e.sub, c) && Holds(s, c, i, m);
      BranchAt(s, e, a, c, i);
    }
  }

  /** Every request of a subject leaves the rows it should, whatever the route. */
  lemma MovesLeaves(s: State, verify: Verifier, a: Arrival, sub: Subject)
    requires Inv(s) && By(verify, a.req, sub)
    ensures Leaves(s, a, sub, Moves(s, verify, a))
  {
    hide Inv, Bears, Moves, MineToo, LeavesBranch, Holds, Branchable, BranchHead;
    RoutesTo(s, verify, [], a, sub);
    NotAnonymous(verify, a.req, sub);
    match Route(a.req)
    case None =>
    case Some(op) =>
      var e := Call(sub, op, a.now, a.mint);
      match op {
        case BranchFromMessage(_, _) => BranchLeaves(s, e, a);
        case UpsertFeedback(m, _, _) => MineTooIsVisible(s, sub, m);
        case _ =>
      }
  }

  // --- One request and a later one

  lemma MovesKeepInv(s: State, verify: Verifier, a: Arrival)
    requires Inv(s) && FreshFor(s, a.mint)
    ensures Inv(Moves(s, verify, a))
  {
    hide Inv, FreshFor, Next, Dispatch;
    match CallOf(verify, a)
    case None =>
    case Some(e) => NextPreserves(s, e);
  }

  /** What the lemmas of this section ask of a state holds in every state the server reaches. */
  lemma Reached(verify: Verifier, arrivals: seq<Arrival>, a: Arrival)
    requires FreshArrivals(arrivals + [a])
    ensures Inv(After(verify, arrivals)) && FreshFor(After(verify, arrivals), a.mint)
  {
    hide Inv, Next, Dispatch, Run, Known;
    var s, tr := After(verify, arrivals), Calls(verify, arrivals);
    ArrivalsPrefix(arrivals, a);
    AfterIsRun(verify, arrivals);
    CallsAreFresh(verify, arrivals);
    Reachable(tr);
    assert (arrivals + [a])[|arrivals|] == a;
    forall k: nat ensures !Known(s, a.mint(k)) {
      if Known(s, a.mint(k)) {
        DrawnBefore(verify, arrivals, a, k);
      }
    }
  }

  lemma DrawnBefore(verify: Verifier, arrivals: seq<Arrival>, a: Arrival, k: nat)
    requires FreshArrivals(arrivals + [a])
    requires forall i :: 0 <= i < |Calls(verify, arrivals)| ==> DrawnBy(arrivals, Calls(verify, arrivals)[i])
    ensures !MintedIn(Calls(verify, arrivals), a.mint(k))
  {
    hide Dispatch;
    var tr, all := Calls(verify, arrivals), arrivals + [a];
    forall i, l: nat | 0 <= i < |tr| ensures tr[i].mint(l) != a.mint(k) {
      assert DrawnBy(arrivals, tr[i]);
      var h :| 0 <= h < |arrivals| && tr[i].mint == arrivals[h].mint;
      assert all[h].mint(l) != all[|arrivals|].mint(k);
    }
  }

  /** Request b is served after request a, both made in the subject's name. */
  ghost predicate Then(s: State, verify: Verifier, a: Arrival, resp: Response, b: Arrival, later: Response, sub: Subject) {
    && Inv(s) && FreshFor(s, a.mint) && By(verify, a.req, sub) && By(verify, b.req, sub)
    && Serves(s, verify, a, resp) && Serves(Moves(s, verify, a), verify, b, later)
  }

  lemma Pair(s: State, verify: Verifier, a: Arrival, resp: Response, b: Arrival, later: Response, sub: Subject)
    requires Then(s, verify, a, resp, b, later, sub)
    ensures Expected(s, a, sub, resp) && Leaves(s, a, sub, Moves(s, verify, a)) && Expected(Moves(s, verify, a), b, sub, later)
    ensures Inv(s) && sub != ""
  {
    hide Inv, FreshFor, Serves, Expected, Leaves, Moves, Bears;
    MovesKeepInv(s, verify, a);
    ServesIff(s, verify, a, sub, resp);
    MovesLeaves(s, verify, a, sub);
    ServesIff(Moves(s, verify, a), verify, b, sub, later);
    NotAnonymous(verify, a.req, sub);
  }

  /** POST of a conversation answers 201, and GET then answers it. */
  lemma CreateThenGet(s: State, verify: Verifier, a: Arrival, resp: Response, b: Arrival, later: Response, sub: Subject)
    requires Then(s, verify, a, resp, b, later, sub)
    requires a.req.path == ConversationsPath && a.req.verb == POST && a.req.decoded.Some?
    requires b.req.path == ConversationPath(a.mint(0)) && b.req.verb == GET
    ensures var row := Conversation(a.mint(0), sub, a.req.decoded.value.title, a.now, a.now);
      resp == Response(201, Some(OneConversation(row))) && later == Response(200, Some(OneConversation(row)))
  {
    hide Then;
    Pair(s, verify, a, resp, b, later, sub);
  }

  /** PATCH of an owned conversation answers 200 with the new title, and GET then answers the same row. */
  lemma RenameThenGet(s: State, verify: Verifier, a: Arrival, resp: Response, b: Arrival, later: Response, sub: Subject, c: Id)
    requires Then(s, verify, a, resp, b, later, sub) && Mine(s, sub, c)
    requires a.req.path == ConversationPath(c) && a.req.verb == PATCH && a.req.decoded.Some?
    requires b.req.path == ConversationPath(c) && b.req.verb == GET
    ensures later == resp == Response(200, Some(OneConversation(
      Conversation(c, sub, a.req.decoded.value.title, s.convs[c].createdAt, a.now))))
  {
    hide Then;
    Pair(s, verify, a, resp, b, later, sub);
  }

  /** DELETE of an owned conversation answers 204 and removes it: its row and its messages are then 404. */
  lemma DeleteThenGet(s: State, verify: Verifier, a: Arrival, resp: Response, b: Arrival, later: Response, sub: Subject, c: Id)
    requires Then(s, verify, a, resp, b, later, sub) && Mine(s, sub, c)
    requires a.req.path == ConversationPath(c) && a.req.verb == DELETE
    requires (b.req.path == ConversationPath(c) || b.req.path == MessagesPath(c)) && b.req.verb == GET
    ensures resp == Response(204, None) && c !in Moves(s, verify, a).convs && later == Response(404, None)
  {
    hide Then;
    Pair(s, verify, a, resp, b, later, sub);
  }

  /** POST of a message to an owned conversation answers 201, and GET then lists what was there and the message last. */
  lemma AppendThenList(s: State, verify: Verifier, a: Arrival, resp: Response, b: Arrival, later: Response, sub: Subject, c: Id)
    requires Then(s, verify, a, resp, b, later, sub) && Mine(s, sub, c)
    requires a.req.path == MessagesPath(c) && a.req.verb == POST && a.req.decoded.Some?
    requires a.req.decoded.value.role in {"user", "assistant", "system", "tool"}
    requires b.req.path == MessagesPath(c) && b.req.verb == GET
    ensures c in s.msgs
    ensures var said := Message(a.mint(0), c, a.req.decoded.value.role, a.req.decoded.value.content, a.now);
      resp == Response(201, Some(OneMessage(said))) && later == Response(200, Some(Messages(s.msgs[c] + [said])))
  {
    hide Then;
    Pair(s, verify, a, resp, b, later, sub);
  }

  /** PUT of feedback on an own message answers 200, and GET then answers the same rating and comment. */
  lemma RateThenGet(s: State, verify: Verifier, a: Arrival, resp: Response, b: Arrival, later: Response, sub: Subject, m: Id)
    requires Then(s, verify, a, resp, b, later, sub) && MineToo(s, sub, m)
    requires a.req.path == FeedbackPath(m) && a.req.verb == PUT && a.req.decoded.Some?
    requires a.req.decoded.value.rating in {"good", "bad"}
    requires b.req.path == FeedbackPath(m) && b.req.verb == GET
    ensures later == resp == Response(200, Some(OneFeedback(
      Feedback(m, sub, a.req.decoded.value.rating, a.req.decoded.value.comment, a.now))))
  {
    hide Then;
    Pair(s, verify, a, resp, b, later, sub);
  }

  /** POST of a branch of the i-th message of an owned conversation answers 201, and GET of the new conversation's messages
      then lists copies of the first i + 1. */
  lemma BranchThenList(s: State, verify: Verifier, a: Arrival, resp: Response, b: Arrival, later: Response, sub: Subject, c: Id, i: nat)
    requires Then(s, verify, a, resp, b, later, sub)
    requires a.req.path.BranchPath? && Mine(s, sub, c) && Holds(s, c, i, a.req.path.id)
    requires a.req.verb == POST && (a.req.contentLength > 0 ==> a.req.decoded.Some?)
    requires b.req.path == MessagesPath(a.mint(0)) && b.req.verb == GET
    ensures resp == Response(201, Some(OneConversation(Conversation(a.mint(0), sub, TitleOfBranch(s, a.req, c), a.now, a.now))))
    ensures exists copy :: later == Response(200, Some(Messages(copy))) && CopyOf(copy, s.msgs[c], i + 1, a.mint(0), a)
  {
    hide Then, Inv, Holds, CopyOf, TitleOfBranch;
    Pair(s, verify, a, resp, b, later, sub);
    HeldAt(s, c, i, a.req.path.id);
    assert MineToo(s, sub, a.req.path.id);
    forall d, j: nat | Mine(s, sub, d) && Holds(s, d, j, a.req.path.id) ensures d == c && j == i {
      HeldAt(s, d, j, a.req.path.id);
    }
  }

  /** GET of the collection answers 200 with the caller's conversations, the last updated first. */
  lemma Lists(s: State, verify: Verifier, a: Arrival, resp: Response, sub: Subject)
    requires Inv(s) && By(verify, a.req, sub) && a.req.path == ConversationsPath && a.req.verb == GET
    requires Serves(s, verify, a, resp)
    ensures exists cs :: Listed(s, sub, cs) && resp == Response(200, Some(Conversations(cs)))
  {
    hide Inv, Serves, Bears, Listed;
    ServesIff(s, verify, a, sub, resp);
  }

  /** A conversation that is gone after some requests is gone after any more of them. */
  lemma {:induction false} GoneForGood(verify: Verifier, arrivals: seq<Arrival>, i: nat, j: nat, c: Id)
    requires FreshArrivals(arrivals) && i < j <= |arrivals|
    requires c in After(verify, arrivals[..i]).convs && c !in After(verify, arrivals[..i + 1]).convs
    ensures c !in After(verify, arrivals[..j]).convs
  {
    hide Dispatch, FreshArrivals, FreshTrace, Next, Inv, FreshFor, After;
    if j > i + 1 {
      GoneForGood(verify, arrivals, i, j - 1, c);
      AfterOneMore(verify, arrivals, j - 1);
      DrawnFirst(verify, arrivals, i, j - 1, c);
      if c in After(verify, arrivals[..j]).convs {
        NewIsDrawn(After(verify, arrivals[..j - 1]), verify, arrivals[j - 1], c);
      }
    }
  }

  lemma AfterOneMore(verify: Verifier, arrivals: seq<Arrival>, i: nat)
    requires i < |arrivals|
    ensures After(verify, arrivals[..i + 1]) == Moves(After(verify, arrivals[..i]), verify, arrivals[i])
  {
    hide Moves;
    assert arrivals[..i + 1][..i] == arrivals[..i];
  }

  lemma NewIsDrawn(s: State, verify: Verifier, a: Arrival, c: Id)
    requires c !in s.convs && c in Moves(s, verify, a).convs
    ensures c == a.mint(0)
  {
    hide Dispatch, Copies, Filed, Unfiled;
  }

  /** An identifier stored after i requests is not drawn by a later one. */
  lemma DrawnFirst(verify: Verifier, arrivals: seq<Arrival>, i: nat, j: nat, c: Id)
    requires FreshArrivals(arrivals) && i <= j < |arrivals| && c in After(verify, arrivals[..i]).convs
    ensures forall k: nat :: arrivals[j].mint(k) != c
  {
    hide Dispatch, Next, Inv, FreshFor, After, Run;
    var pre := arrivals[..i] + [arrivals[j]];
    assert pre[..i] == arrivals[..i];
    assert FreshArrivals(pre) by {
      OneLater(arrivals, i, j);
    }
    Reached(verify, arrivals[..i], arrivals[j]);
    Unknown(After(verify, arrivals[..i]), arrivals[j].mint, c);
  }

  lemma OneLater(arrivals: seq<Arrival>, i: nat, j: nat)
    requires FreshArrivals(arrivals) && i <= j < |arrivals|
    ensures FreshArrivals(arrivals[..i] + [arrivals[j]])
  {
    var pre := arrivals[..i] + [arrivals[j]];
    forall h, l, k: nat, n: nat | 0 <= h < l < |pre| ensures pre[h].mint(k) != pre[l].mint(n) {
      assert pre[h] == arrivals[h] && pre[l] == arrivals[if l < i then l else j];
    }
  }

  lemma Unknown(s: State, mint: Mint, c: Id)
    requires FreshFor(s, mint) && c in s.convs
    ensures forall k: nat :: mint(k) != c
  {
    assert MemoryInvariants.Known(s, c);
  }

  // --- Statuses

  /** What a request names is there for the subject. */
  ghost predicate Found(s: State, sub: Subject, op: Op) {
    match op
    case CreateConversation(_) => true
    case ListConversations => true
    case GetConversation(c) => Mine(s, sub, c)
    case RenameConversation(c, _) => Mine(s, sub, c)
    case DeleteConversation(c) => Mine(s, sub, c)
    case AppendMessage(c, _, _) => Mine(s, sub, c)
    case ListMessages(c) => Mine(s, sub, c)
    case BranchFromMessage(m, _) => MineToo(s, sub, m)
    case UpsertFeedback(m, _, _) => MineToo(s, sub, m)
    case GetFeedback(m) => FeedbackKey(sub, m) in s.fb
  }

  predicate RatesBadly(op: Op) {
    op.UpsertFeedback? && op.rating != "good" && op.rating != "bad"
  }

  /** The status of a store call by whether what it names is there. */
  function StatusOf(op: Op, found: bool): int {
    if RatesBadly(op) then 500
    else if !found then 404
    else if op.DeleteConversation? then 204
    else if op.CreateConversation? || op.AppendMessage? || op.BranchFromMessage? then 201
    else 200
  }

  /** The status of a guarded request that makes no store call: an unknown path, a verb the path does not have, or a body
      that does not decode or names no role. */
  function StatusUnrouted(req: Request): int {
    match req.path
    case Elsewhere => 404
    case ConversationPath(_) => if req.verb == PATCH then 400 else 405
    case FeedbackPath(_) => if req.verb == PUT then 400 else 405
    case _ => if req.verb == POST then 400 else 405
  }

  /** The status of an expected response. */
  lemma ExpectedStatus(s: State, a: Arrival, sub: Subject, resp: Response)
    requires Guarded(a.req) && Expected(s, a, sub, resp)
    ensures resp.status == match Route(a.req) { case None => StatusUnrouted(a.req) case Some(op) => StatusOf(op, Found(s, sub, op)) }
  {
    hide MineToo, Listed, Holds, TitleOfBranch;
  }

  /** The status of a request of a subject. */
  lemma Statuses(s: State, verify: Verifier, a: Arrival, sub: Subject, resp: Response)
    requires Inv(s) && By(verify, a.req, sub) && Serves(s, verify, a, resp)
    ensures resp.status == match Route(a.req) { case None => StatusUnrouted(a.req) case Some(op) => StatusOf(op, Found(s, sub, op)) }
  {
    hide Inv, Serves, Bears, Expected, Route, Found;
    ServesIff(s, verify, a, sub, resp);
    ExpectedStatus(s, a, sub, resp);
  }

  /** Over every run of the server: a routed request, but for a bad rating, is answered 404 if and only if what it names is
      not there for its subject; one with a bad rating is answered 500. */
  lemma NotFoundIff(verify: Verifier, arrivals: seq<Arrival>, a: Arrival, sub: Subject, resp: Response)
    requires FreshArrivals(arrivals + [a]) && By(verify, a.req, sub) && Route(a.req).Some?
    requires Serves(After(verify, arrivals), verify, a, resp)
    ensures !RatesBadly(Route(a.req).value) ==> (resp.status == 404 <==> !Found(After(verify, arrivals), sub, Route(a.req).value))
    ensures RatesBadly(Route(a.req).value) ==> resp.status == 500
  {
    hide FreshArrivals, Inv, FreshFor, After, Serves, Bears, Route, Found;
    Reached(verify, arrivals, a);
    Statuses(After(verify, arrivals), verify, a, sub, resp);
  }

  /** Over every run of the server no request, admitted or not, is answered 409. */
  lemma NeverConflict(verify: Verifier, arrivals: seq<Arrival>, a: Arrival, resp: Response)
    requires FreshArrivals(arrivals + [a]) && Serves(After(verify, arrivals), verify, a, resp)
    ensures resp.status in {200, 201, 204, 400, 401, 404, 405, 500}
  {
    hide FreshArrivals, Inv, FreshFor, After, Serves, Bears, Route, Found, Dispatch;
    Reached(verify, arrivals, a);
    if !Guarded(a.req) {
      UnguardedStatus(After(verify, arrivals), verify, a, resp);
    } else if sub :| Bears(verify, a.req, sub) {
      Statuses(After(verify, arrivals), verify, a, sub, resp);
    } else {
      RefusedIff(After(verify, arrivals), verify, a, resp);
    }
  }

  lemma UnguardedStatus(s: State, verify: Verifier, a: Arrival, resp: Response)
    requires !Guarded(a.req) && Serves(s, verify, a, resp)
    ensures resp.status in {200, 404, 405}
  {
    hide IsListing;
  }
}
