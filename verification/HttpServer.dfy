/** The server object: the HTTP layer bound to one in-memory store. */
module HttpServer {
  import opened StoreTypes
  import opened MemorySpec
  import opened MemoryInvariants
  import opened InMemory
  import opened Http
  import opened HttpContract

  class Server {
    const store: InMemoryStore
    const verify: Verifier

    constructor (store: InMemoryStore, verify: Verifier)
      ensures this.store == store && this.verify == verify
    {
      this.store, this.verify := store, verify;
    }

    /** One request: admission, handler, store call, response. A request of a subject gets the expected response and leaves the
        rows it should; any other guarded one is answered 401 and leaves everything. */
    method Serve(req: Request, now: Time, mint: Mint) returns (resp: Response)
      requires store.Valid() && FreshFor(store.view, mint)
      modifies store, store.conversations.Values
      ensures store.Valid()
      ensures Serves(old(store.view), verify, Arrival(req, now, mint), resp)
      ensures store.view == Moves(old(store.view), verify, Arrival(req, now, mint))
      ensures forall sub :: By(verify, req, sub) ==>
        && Expected(old(store.view), Arrival(req, now, mint), sub, resp)
        && Leaves(old(store.view), Arrival(req, now, mint), sub, store.view)
      ensures Guarded(req) && (forall sub :: !Bears(verify, req, sub)) ==>
        resp == Response(401, None) && store.view == old(store.view)
    {
      hide Inv, FreshFor, InMemoryStore.Represents, Allows, Next, Expected, Leaves, By, Guarded, Bears;
      ghost var s := store.view;
      var admission := Authenticate(verify, req);
      if admission.Refused? {
        resp := Response(admission.status, None);
      } else {
        match Handle(admission.subject, req) {
          case Answer(status) =>
            resp := Response(status, None);
          case Probe =>
            var r := store.ListConversations(PROBE);
            ReadsChangeNothing(store.view, Call(PROBE, ListConversations, now, mint));
            resp := RespondProbe(r);
          case Invoke(sub, op) =>
            var r := Perform(sub, op, now, mint);
            resp := Respond(op, r);
        }
      }
      ServedAsExpected(s, verify, Arrival(req, now, mint), resp);
    }

    /** The store method behind each handler. */
    method Perform(sub: Subject, op: Op, now: Time, mint: Mint) returns (r: Reply)
      requires store.Valid() && FreshFor(store.view, mint)
      modifies store, store.conversations.Values
      ensures store.Valid()
      ensures Does(old(store.view), Call(sub, op, now, mint), store.view, r)
    {
      hide Inv, FreshFor, InMemoryStore.Represents, Allows, Next;
      ghost var e := Call(sub, op, now, mint);
      match op
      case CreateConversation(title) =>
        var p, error := store.CreateConversation(sub, title, now, mint);
        r := if p == null then Failed(error.value) else OneConversation(p.Value());
      case ListConversations =>
        r := store.ListConversations(sub);
        ReadsChangeNothing(store.view, e);
      case GetConversation(id) =>
        r := store.GetConversation(sub, id);
        ReadsChangeNothing(store.view, e);
      case RenameConversation(id, title) => r := store.RenameConversation(sub, id, title, now, mint);
      case DeleteConversation(id) => r := store.DeleteConversation(sub, id, now, mint);
      case AppendMessage(id, role, content) => r := store.AppendMessage(sub, id, role, content, now, mint);
      case ListMessages(id) =>
        r := store.ListMessages(sub, id);
        ReadsChangeNothing(store.view, e);
      case BranchFromMessage(id, title) => r := store.BranchFromMessage(sub, id, title, now, mint);
      case UpsertFeedback(id, rating, comment) => r := store.UpsertFeedback(sub, id, rating, comment, now, mint);
      case GetFeedback(id) =>
        r := store.GetFeedback(sub, id);
        ReadsChangeNothing(store.view, e);
    }
  }

  lemma ServedAsExpected(s: State, verify: Verifier, a: Arrival, resp: Response)
    requires Inv(s) && Serves(s, verify, a, resp)
    ensures forall sub :: By(verify, a.req, sub) ==> Expected(s, a, sub, resp) && Leaves(s, a, sub, Moves(s, verify, a))
    ensures Guarded(a.req) && (forall sub :: !Bears(verify, a.req, sub)) ==>
      resp == Response(401, None) && Moves(s, verify, a) == s
  {
    hide Inv, Serves, By, Bears, Expected, Leaves, Moves, Guarded;
    forall sub | By(verify, a.req, sub) ensures Expected(s, a, sub, resp) && Leaves(s, a, sub, Moves(s, verify, a)) {
      ServesIff(s, verify, a, sub, resp);
      MovesLeaves(s, verify, a, sub);
    }
    if Guarded(a.req) {
      RefusedIff(s, verify, a, resp);
    }
  }

  lemma ReadsChangeNothing(s: State, e: Call)
    requires !Mutates(e.op)
    ensures Next(s, e) == s
  {
  }
}
