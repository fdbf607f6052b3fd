/** History in the relational store over whole runs, under any clock and any branches: messages are only added, and what
    a conversation says comes from its chain of ancestors, each cut by time, and its own appends. */
module RelationalLineage {
  import opened StoreTypes
  import opened Permutations
  import opened Tables
  import opened RelationalSpec
  import opened Simulation
  import opened Divergence

  /** The messages of a conversation. */
  function RowsIn(d: Database, c: Id): set<Message> {
    set m | m in d.messages && d.messages[m].conversationId == c :: ToMessage(m, d.messages[m])
  }

  predicate AppendsTo(d: Database, e: Call, c: Id) {
    e.op.AppendMessage? && e.op.conversationId == c && OwnsRow(d, e.sub, c)
  }

  predicate BranchesTo(d: Database, e: Call, c: Id) {
    e.op.BranchFromMessage? && e.mint(0) == c && e.sub != "" && JoinsSource(d, e.sub, e.op.messageId)
  }

  /** The call brings the conversation into being. */
  predicate CreatesRow(d: Database, e: Call, c: Id) {
    BranchesTo(d, e, c) || (e.op.CreateConversation? && e.mint(0) == c && e.sub != "")
  }

  // --- One call

  lemma SimpleRows(d: Database, e: Call, c: Id)
    requires Consistent(d) && Unused(d, e.mint) && !e.op.BranchFromMessage?
    requires c in d.conversations && c in TablesAfter(d, e).conversations
    ensures var d' := TablesAfter(d, e);
      && RowsIn(d', c) == RowsIn(d, c) + (if AppendsTo(d, e, c) then {ToMessage(e.mint(0), AppendRow(e))} else {})
      && d'.conversations[c].sub == d.conversations[c].sub && d'.conversations[c].createdAt == d.conversations[c].createdAt
  {
    hide Consistent, AppendStep, DeleteStep;
    if e.op.AppendMessage? {
      AppendRows(d, e, c);
    } else if e.op.DeleteConversation? {
      DeleteRows(d, e, c);
    }
  }

  lemma AppendRows(d: Database, e: Call, c: Id)
    requires Unused(d, e.mint) && e.op.AppendMessage? && c in d.conversations
    ensures var d' := AppendStep(d, e).db;
      && RowsIn(d', c) == RowsIn(d, c) + (if AppendsTo(d, e, c) then {ToMessage(e.mint(0), AppendRow(e))} else {})
      && c in d'.conversations
      && d'.conversations[c].sub == d.conversations[c].sub && d'.conversations[c].createdAt == d.conversations[c].createdAt
  {
    var d' := AppendStep(d, e).db;
    var x := ToMessage(e.mint(0), AppendRow(e));
    forall y | y in RowsIn(d, c) ensures y in RowsIn(d', c) {
      assert d'.messages[y.id] == d.messages[y.id];
    }
    if AppendsTo(d, e, c) {
      assert d'.messages[e.mint(0)] == AppendRow(e);
      assert x in RowsIn(d', c);
    }
  }

  lemma DeleteRows(d: Database, e: Call, c: Id)
    requires e.op.DeleteConversation? && c in d.conversations && c in DeleteStep(d, e).db.conversations
    ensures var d' := DeleteStep(d, e).db; RowsIn(d', c) == RowsIn(d, c) && d'.conversations[c] == d.conversations[c]
  {
    var d' := DeleteStep(d, e).db;
    forall y | y in RowsIn(d, c) ensures y in RowsIn(d', c) {
      assert d'.messages[y.id] == d.messages[y.id];
    }
  }

  /** What one call does to a conversation that outlives it: it adds one message, or nothing. */
  lemma StepRows(d: Database, e: Call, d': Database, r: Reply, c: Id)
    requires Consistent(d) && Unused(d, e.mint) && Steps(d, e, d', r)
    requires c in d.conversations && c in d'.conversations
    ensures RowsIn(d', c) == RowsIn(d, c) + (if AppendsTo(d, e, c) then {ToMessage(e.mint(0), AppendRow(e))} else {})
    ensures d'.conversations[c].sub == d.conversations[c].sub && d'.conversations[c].createdAt == d.conversations[c].createdAt
    ensures !CreatesRow(d, e, c)
  {
    hide Consistent, Steps, TablesAfter, RowsIn, JoinsSource;
    if !e.op.BranchFromMessage? {
      StepsTo(d, e, d', r);
      SimpleRows(d, e, c);
    } else if e.sub != "" && JoinsSource(d, e.sub, e.op.messageId) {
      var ms := BranchDone(d, e, d', r);
      BranchRows(d, d', BranchRow(d, e), ms, e.mint, c);
    } else {
      BranchRefused(d, e, d', r);
    }
  }

  lemma BranchRows(d: Database, d': Database, head: Conversation, ms: seq<Message>, mint: Mint, c: Id)
    requires c in d.conversations && c != head.id && Injective(mint) && (forall k: nat :: mint(k) !in d.messages)
    requires CopiesAdded(d.(conversations := d.conversations[head.id := head]), d', head, ms, mint, |ms|)
    ensures RowsIn(d', c) == RowsIn(d, c) && c in d'.conversations && d'.conversations[c] == d.conversations[c]
  {
    forall y | y in RowsIn(d, c) ensures y in RowsIn(d', c) {
      assert d'.messages[y.id] == d.messages[y.id];
    }
  }

  /** A conversation appears only when a call creates it, under an identifier of the call. */
  lemma StepCreates(d: Database, e: Call, d': Database, r: Reply, c: Id)
    requires Unused(d, e.mint) && Steps(d, e, d', r) && c !in d.conversations && c in d'.conversations
    ensures CreatesRow(d, e, c) && Draws(e, c) && !AppendsTo(d, e, c)
    ensures d'.conversations[c].createdAt == e.now
  {
    hide Steps, Unused, JoinsSource;
    if !e.op.BranchFromMessage? {
      StepsTo(d, e, d', r);
      SimpleCreates(d, e, c);
    } else if e.sub != "" && JoinsSource(d, e.sub, e.op.messageId) {
      var ms := BranchDone(d, e, d', r);
    } else {
      BranchRefused(d, e, d', r);
    }
    assert e.mint(0) == c;
  }

  lemma SimpleCreates(d: Database, e: Call, c: Id)
    requires !e.op.BranchFromMessage? && c !in d.conversations && c in TablesAfter(d, e).conversations
    ensures CreatesRow(d, e, c) && TablesAfter(d, e).conversations[c].createdAt == e.now
  {
  }

  // --- Append-only history

  /** A conversation identifier that was live once is never created again. */
  lemma NoRebirth(tr: seq<Call>, ds: seq<Database>, rs: seq<Reply>, i: nat, j: nat, c: Id)
    requires FreshTrace(tr) && Runs(tr, ds, rs) && i <= j < |tr|
    requires c in ds[i].conversations && c in ds[j + 1].conversations
    ensures c in ds[j].conversations
  {
    hide FreshTrace, Steps, Unused, Consistent, CreatesRow;
    RunsConsistent(tr, ds, rs, i);
    RunsConsistent(tr, ds, rs, j);
    if c !in ds[j].conversations {
      StepCreates(ds[j], tr[j], ds[j + 1], rs[j], c);
      var h :| 0 <= h < i && Draws(tr[..i][h], c);
      DrawnOnce(tr, h, j, c);
    }
  }

  lemma DrawnOnce(tr: seq<Call>, h: nat, j: nat, x: Id)
    requires FreshTrace(tr) && h < j < |tr|
    ensures !(Draws(tr[h], x) && Draws(tr[j], x))
  {
  }

  /** Append-only history: between any two points of a run at which a conversation is live it keeps every message it
      had, identifier, role, content and time, and its owner and creation time. */
  lemma {:induction false} AppendOnly(tr: seq<Call>, ds: seq<Database>, rs: seq<Reply>, i: nat, j: nat, c: Id)
    requires FreshTrace(tr) && Runs(tr, ds, rs) && i <= j <= |tr|
    requires c in ds[i].conversations && c in ds[j].conversations
    ensures RowsIn(ds[i], c) <= RowsIn(ds[j], c)
    ensures ds[j].conversations[c].sub == ds[i].conversations[c].sub
    ensures ds[j].conversations[c].createdAt == ds[i].conversations[c].createdAt
    decreases j
  {
    hide FreshTrace, Steps, Unused, Consistent, RowsIn, CreatesRow, AppendsTo;
    if i < j {
      NoRebirth(tr, ds, rs, i, j - 1, c);
      AppendOnly(tr, ds, rs, i, j - 1, c);
      RunsConsistent(tr, ds, rs, j - 1);
      StepRows(ds[j - 1], tr[j - 1], ds[j], rs[j - 1], c);
    }
  }

  // --- Lineage

  /** The position in the trace of the call that created `c`, or -1; `ds` are the tables along the run. */
  function Birth(tr: seq<Call>, ds: seq<Database>, c: Id): (b: int)
    requires |ds| >= |tr|
    ensures -1 <= b < |tr|
  {
    if tr == [] then -1
    else if CreatesRow(ds[|tr| - 1], tr[|tr| - 1], c) then |tr| - 1
    else Birth(tr[..|tr| - 1], ds, c)
  }

  function AppendStamp(e: Call): Stamp
    requires e.op.AppendMessage?
  {
    Stamp(Turn(e.op.role, e.op.content), e.now)
  }

  /** What was appended to `c` itself, in call order. */
  function OwnStamps(tr: seq<Call>, ds: seq<Database>, c: Id): seq<Stamp>
    requires |ds| >= |tr|
  {
    if tr == [] then []
    else
      var n := |tr| - 1;
      if AppendsTo(ds[n], tr[n], c) then OwnStamps(tr[..n], ds, c) + [AppendStamp(tr[n])] else OwnStamps(tr[..n], ds, c)
  }

  /** Those not later than `t`. */
  function UpTo(xs: seq<Stamp>, t: Time): seq<Stamp> {
    if xs == [] then []
    else if xs[|xs| - 1].createdAt <= t then UpTo(xs[..|xs| - 1], t) + [xs[|xs| - 1]]
    else UpTo(xs[..|xs| - 1], t)
  }

  /** What `c` inherited when it was created: for a branch, all of its source's own history at that moment that is not
      later than the named message, now dated the moment of the branch; for a root, nothing. */
  function Inherited(tr: seq<Call>, ds: seq<Database>, c: Id): seq<Stamp>
    requires |ds| >= |tr|
    decreases |tr|, 0
  {
    var b := Birth(tr, ds, c);
    if b < 0 || !tr[b].op.BranchFromMessage? || tr[b].op.messageId !in ds[b].messages then []
    else
      var row := ds[b].messages[tr[b].op.messageId];
      Map(Restamp(tr[b].now), UpTo(Transcript(tr[..b], ds, row.conversationId), row.createdAt))
  }

  /** The history of `c` read off the trace: turns with their times. */
  function Transcript(tr: seq<Call>, ds: seq<Database>, c: Id): seq<Stamp>
    requires |ds| >= |tr|
    decreases |tr|, 1
  {
    Inherited(tr, ds, c) + OwnStamps(tr, ds, c)
  }

  /** Cutting by time does not depend on the order. */
  lemma {:induction false} UpToCounts(xs: seq<Stamp>, t: Time, x: Stamp)
    ensures multiset(UpTo(xs, t))[x] == if x.createdAt <= t then multiset(xs)[x] else 0
  {
    if xs != [] {
      var n := |xs| - 1;
      UpToCounts(xs[..n], t, x);
      assert xs == xs[..n] + [xs[n]];
    }
  }

  lemma UpToPermutes(xs: seq<Stamp>, ys: seq<Stamp>, t: Time)
    requires multiset(xs) == multiset(ys)
    ensures multiset(UpTo(xs, t)) == multiset(UpTo(ys, t))
  {
    forall x ensures multiset(UpTo(xs, t))[x] == multiset(UpTo(ys, t))[x] {
      UpToCounts(xs, t, x);
      UpToCounts(ys, t, x);
    }
  }

  /** The messages not later than `t`. */
  function Earlier(ms: seq<Message>, t: Time): (es: seq<Message>)
    ensures forall m :: m in es <==> m in ms && m.createdAt <= t
  {
    if ms == [] then []
    else
      var n := |ms| - 1;
      assert ms == ms[..n] + [ms[n]];
      if ms[n].createdAt <= t then Earlier(ms[..n], t) + [ms[n]] else Earlier(ms[..n], t)
  }

  lemma {:induction false} EarlierDistinct(ms: seq<Message>, t: Time)
    requires forall i, j :: 0 <= i < j < |ms| ==> ms[i] != ms[j]
    ensures var es := Earlier(ms, t); forall i, j :: 0 <= i < j < |es| ==> es[i] != es[j]
  {
    if ms != [] {
      var n := |ms| - 1;
      EarlierDistinct(ms[..n], t);
      assert ms[n] !in ms[..n];
      assert ms[n] !in Earlier(ms[..n], t);
    }
  }

  lemma {:induction false} EarlierStamps(ms: seq<Message>, t: Time)
    ensures Stamps(Earlier(ms, t)) == UpTo(Stamps(ms), t)
  {
    if ms != [] {
      var n := |ms| - 1;
      EarlierStamps(ms[..n], t);
      assert Stamps(ms)[..n] == Stamps(ms[..n]);
      assert Stamps([ms[n]]) == [StampOf(ms[n])];
      StampsConcat(Earlier(ms[..n], t), [ms[n]]);
    }
  }

  /** The messages of a conversation, in any order, say what the sequence says. */
  ghost predicate Says(d: Database, c: Id, xs: seq<Stamp>) {
    forall ms :: Enumerates(ms, RowsIn(d, c)) ==> multiset(Stamps(ms)) == multiset(xs)
  }

  lemma SaysOne(d: Database, c: Id, ms: seq<Message>, xs: seq<Stamp>)
    requires Enumerates(ms, RowsIn(d, c)) && multiset(Stamps(ms)) == multiset(xs)
    ensures Says(d, c, xs)
  {
    hide Enumerates, RowsIn, Stamps;
    forall ys | Enumerates(ys, RowsIn(d, c)) ensures multiset(Stamps(ys)) == multiset(xs) {
      EnumerationsAgreeOn(ys, ms, RowsIn(d, c));
      MapPermutes(StampOf, ys, ms);
      StampsAreMaps(ys);
      StampsAreMaps(ms);
    }
  }

  lemma StampsAreMaps(ms: seq<Message>)
    ensures Stamps(ms) == Map(StampOf, ms)
  {
  }

  lemma EnumerationsAgreeOn(xs: seq<Message>, ys: seq<Message>, s: set<Message>)
    requires Enumerates(xs, s) && Enumerates(ys, s)
    ensures multiset(xs) == multiset(ys)
  {
    EnumerationsAgree(xs, ys, s);
  }

  lemma RowsExist(d: Database, c: Id) returns (ms: seq<Message>)
    ensures Enumerates(ms, RowsIn(d, c))
  {
    hide RowsIn;
    var key := (m: Message) => m.createdAt;
    OrderExists(RowsIn(d, c), key);
    ms :| Enumerates(ms, RowsIn(d, c)) && OrderedBy(ms, key);
  }

  /** A conversation that outlives a call says what it said, and what the call appends to it. */
  lemma SaysMore(d: Database, e: Call, d': Database, c: Id, xs: seq<Stamp>)
    requires Says(d, c, xs) && Unused(d, e.mint)
    requires RowsIn(d', c) == RowsIn(d, c) + (if AppendsTo(d, e, c) then {ToMessage(e.mint(0), AppendRow(e))} else {})
    ensures Says(d', c, if AppendsTo(d, e, c) then xs + [AppendStamp(e)] else xs)
  {
    hide Says;
    var ms := RowsExist(d, c);
    SaysSome(d, c, ms, xs);
    if AppendsTo(d, e, c) {
      var x := ToMessage(e.mint(0), AppendRow(e));
      NotYet(d, e, c);
      EnumeratesSnoc(ms, RowsIn(d, c), x);
      StampsConcat(ms, [x]);
      assert Stamps([x]) == [AppendStamp(e)];
      SaysOne(d', c, ms + [x], xs + [AppendStamp(e)]);
    } else {
      SaysOne(d', c, ms, xs);
    }
  }

  lemma SaysSome(d: Database, c: Id, ms: seq<Message>, xs: seq<Stamp>)
    requires Says(d, c, xs) && Enumerates(ms, RowsIn(d, c))
    ensures multiset(Stamps(ms)) == multiset(xs)
  {
  }

  lemma NotYet(d: Database, e: Call, c: Id)
    requires Unused(d, e.mint) && e.op.AppendMessage?
    ensures ToMessage(e.mint(0), AppendRow(e)) !in RowsIn(d, c)
  {
  }

  lemma OwnedRows(d: Database, c: Id)
    requires Consistent(d) && c in d.conversations
    ensures Selected(d, c, d.conversations[c].sub, None) == RowsIn(d, c)
  {
    var sub := d.conversations[c].sub;
    forall x | x in RowsIn(d, c) ensures x in Selected(d, c, sub, None) {
      var m :| m in d.messages && d.messages[m].conversationId == c && ToMessage(m, d.messages[m]) == x;
      assert OwnsRow(d, d.messages[m].sub, c);
    }
  }

  /** What the copy query of a branch returns says what the source says, cut by time. */
  lemma CopySays(d: Database, e: Call, ms: seq<Message>, xs: seq<Stamp>)
    requires Consistent(d) && e.op.BranchFromMessage? && JoinsSource(d, e.sub, e.op.messageId) && CopyQuery(d, e, ms)
    requires Says(d, d.messages[e.op.messageId].conversationId, xs)
    ensures multiset(Stamps(ms)) == multiset(UpTo(xs, d.messages[e.op.messageId].createdAt))
  {
    hide Consistent, Says, Enumerates, RowsIn, Stamps, Selected, OldestFirst;
    var row := d.messages[e.op.messageId];
    var c, t := row.conversationId, row.createdAt;
    var all := RowsExist(d, c);
    SaysSome(d, c, all, xs);
    EarlierEnumerates(d, c, e.sub, t, all);
    EnumerationsAgreeOn(ms, Earlier(all, t), Selected(d, c, e.sub, Some(t)));
    MapPermutes(StampOf, ms, Earlier(all, t));
    StampsAreMaps(ms);
    StampsAreMaps(Earlier(all, t));
    EarlierStamps(all, t);
    UpToPermutes(Stamps(all), xs, t);
  }

  lemma EarlierEnumerates(d: Database, c: Id, sub: Subject, t: Time, all: seq<Message>)
    requires Consistent(d) && OwnsRow(d, sub, c) && Enumerates(all, RowsIn(d, c))
    ensures Enumerates(Earlier(all, t), Selected(d, c, sub, Some(t)))
  {
    hide Consistent, RowsIn;
    OwnedRows(d, c);
    EarlierDistinct(all, t);
    var es := Earlier(all, t);
    forall x ensures x in es <==> x in Selected(d, c, sub, Some(t)) {
      CutOrWhole(d, c, sub, t, x);
    }
  }

  lemma CutOrWhole(d: Database, c: Id, sub: Subject, t: Time, x: Message)
    ensures x in Selected(d, c, sub, Some(t)) <==> x in Selected(d, c, sub, None) && x.createdAt <= t
  {
  }

  /** A new branch says what its copy query returned, at the time of the branch. */
  lemma BranchSays(d: Database, d': Database, head: Conversation, ms: seq<Message>, mint: Mint, xs: seq<Stamp>)
    requires Consistent(d) && head.id !in d.conversations && Injective(mint)
    requires CopiesAdded(d.(conversations := d.conversations[head.id := head]), d', head, ms, mint, |ms|)
    requires multiset(Stamps(ms)) == multiset(xs)
    ensures Says(d', head.id, Map(Restamp(head.createdAt), xs))
  {
    hide Consistent, CopiesAdded, Injective, Says, Enumerates, RowsIn;
    var copies := NewMessages(head, ms, mint);
    NewRows(d, d', head, ms, mint);
    assert Stamps(copies) == Map(Restamp(head.createdAt), Stamps(ms));
    MapPermutes(Restamp(head.createdAt), Stamps(ms), xs);
    SaysOne(d', head.id, copies, Map(Restamp(head.createdAt), xs));
  }

  lemma NewRows(d: Database, d': Database, head: Conversation, ms: seq<Message>, mint: Mint)
    requires Consistent(d) && head.id !in d.conversations && Injective(mint)
    requires CopiesAdded(d.(conversations := d.conversations[head.id := head]), d', head, ms, mint, |ms|)
    ensures Enumerates(NewMessages(head, ms, mint), RowsIn(d', head.id))
  {
    hide Consistent, Injective;
    var copies, d1 := NewMessages(head, ms, mint), d.(conversations := d.conversations[head.id := head]);
    NewAreDistinct(head, ms, mint);
    forall x | x in RowsIn(d', head.id) ensures x in copies {
      NewRowsAreNew(d, d', head, ms, mint, x.id);
      var k: nat :| 1 <= k <= |ms| && x.id == mint(k);
      assert copies[k - 1] == x;
    }
    forall k | 0 <= k < |copies| ensures copies[k] in RowsIn(d', head.id) {
      assert mint(k + 1) in d'.messages;
    }
  }

  lemma CreatedSaysNothing(d: Database, e: Call, c: Id)
    requires Consistent(d) && e.op.CreateConversation? && c !in d.conversations && c in TablesAfter(d, e).conversations
    ensures Says(TablesAfter(d, e), c, [])
  {
    assert RowsIn(TablesAfter(d, e), c) == {} by {
      forall m | m in d.messages ensures d.messages[m].conversationId != c {
        assert OwnsRow(d, d.messages[m].sub, d.messages[m].conversationId);
      }
    }
    SaysOne(TablesAfter(d, e), c, [], []);
  }

  lemma {:induction false} NothingBefore(tr: seq<Call>, ds: seq<Database>, rs: seq<Reply>, n: nat, c: Id)
    requires FreshTrace(tr) && Runs(tr, ds, rs) && n < |tr| && c !in ds[n].conversations && c in ds[n + 1].conversations
    ensures forall i :: 0 <= i <= n ==> c !in ds[i].conversations
  {
    hide FreshTrace, Steps, Consistent, Unused;
    forall i | 0 <= i <= n ensures c !in ds[i].conversations {
      if c in ds[i].conversations {
        NoRebirth(tr, ds, rs, i, n, c);
      }
    }
  }

  lemma {:induction false} NoOwnBefore(tr: seq<Call>, ds: seq<Database>, c: Id)
    requires |ds| >= |tr| && forall i :: 0 <= i < |tr| ==> c !in ds[i].conversations
    ensures OwnStamps(tr, ds, c) == []
  {
    if tr != [] {
      NoOwnBefore(tr[..|tr| - 1], ds, c);
    }
  }

  /** A call that does not create `c` leaves its inheritance as it was. */
  lemma LaterCall(tr: seq<Call>, ds: seq<Database>, c: Id)
    requires tr != [] && |ds| >= |tr| && !CreatesRow(ds[|tr| - 1], tr[|tr| - 1], c)
    ensures Inherited(tr, ds, c) == Inherited(tr[..|tr| - 1], ds, c)
  {
    var n := |tr| - 1;
    var b := Birth(tr, ds, c);
    if b >= 0 {
      assert tr[..n][..b] == tr[..b];
    }
  }

  /** The history of a conversation right after the call that creates it. */
  lemma NewbornTranscript(tr: seq<Call>, ds: seq<Database>, n: nat, c: Id)
    requires n < |tr| && |ds| >= |tr| && CreatesRow(ds[n], tr[n], c) && !AppendsTo(ds[n], tr[n], c)
    requires forall i :: 0 <= i < n ==> c !in ds[i].conversations
    ensures Transcript(tr[..n + 1], ds, c) ==
      if BranchesTo(ds[n], tr[n], c) then
        var row := ds[n].messages[tr[n].op.messageId];
        Map(Restamp(tr[n].now), UpTo(Transcript(tr[..n], ds, row.conversationId), row.createdAt))
      else []
  {
    hide UpTo, Map;
    var pre := tr[..n + 1];
    assert pre[..n] == tr[..n];
    NoOwnBefore(tr[..n], ds, c);
    assert OwnStamps(pre, ds, c) == [] && Birth(pre, ds, c) == n;
  }

  lemma BranchSource(d: Database, e: Call, c: Id)
    requires BranchesTo(d, e, c)
    ensures e.op.BranchFromMessage? && e.sub != "" && JoinsSource(d, e.sub, e.op.messageId) && e.mint(0) == c
  {
  }

  /** What a conversation says right after the call that creates it. */
  lemma NewbornSays(tr: seq<Call>, ds: seq<Database>, rs: seq<Reply>, n: nat, c: Id)
    requires FreshTrace(tr) && Runs(tr, ds, rs) && n < |tr| && c !in ds[n].conversations && c in ds[n + 1].conversations
    requires BranchesTo(ds[n], tr[n], c) ==>
      var src := ds[n].messages[tr[n].op.messageId].conversationId; Says(ds[n], src, Transcript(tr[..n], ds, src))
    ensures Says(ds[n + 1], c, Transcript(tr[..n + 1], ds, c))
  {
    hide FreshTrace, Steps, Consistent, Unused, Says, CopiesAdded, CopyQuery, Transcript, BranchesTo, UpTo, Map;
    var d, e := ds[n], tr[n];
    RunsConsistent(tr, ds, rs, n);
    StepCreates(d, e, ds[n + 1], rs[n], c);
    NothingBefore(tr, ds, rs, n, c);
    NewbornTranscript(tr, ds, n, c);
    if BranchesTo(d, e, c) {
      BranchSource(d, e, c);
      assert e.op.messageId in d.messages;
      NewbornBranchSays(d, e, ds[n + 1], rs[n], Transcript(tr[..n], ds, d.messages[e.op.messageId].conversationId));
    } else {
      StepsTo(d, e, ds[n + 1], rs[n]);
      CreatedSaysNothing(d, e, c);
    }
  }

  lemma NewbornBranchSays(d: Database, e: Call, d': Database, r: Reply, xs: seq<Stamp>)
    requires Consistent(d) && Unused(d, e.mint) && Steps(d, e, d', r)
    requires e.op.BranchFromMessage? && e.sub != "" && JoinsSource(d, e.sub, e.op.messageId)
    requires Says(d, d.messages[e.op.messageId].conversationId, xs)
    ensures Says(d', e.mint(0), Map(Restamp(e.now), UpTo(xs, d.messages[e.op.messageId].createdAt)))
  {
    hide Steps, Consistent, Says, CopiesAdded, CopyQuery, UpTo, Map;
    var ms := BranchDone(d, e, d', r);
    CopySays(d, e, ms, xs);
    UnusedInjects(d, e.mint);
    BranchSays(d, d', BranchRow(d, e), ms, e.mint, UpTo(xs, d.messages[e.op.messageId].createdAt));
  }

  lemma UnusedInjects(d: Database, mint: Mint)
    requires Unused(d, mint)
    ensures Injective(mint)
  {
  }

  /** Lineage: in every run, under any clock and with branches cut anywhere, the messages of every live conversation
      say what the trace says: all of its ancestor's history at the branch point that is not later than the named
      message, taken recursively to a root, at the time of the branch, and its own successful appends, whatever happened to
      the ancestors since. */
  lemma {:induction false} LineageTheorem(tr: seq<Call>, ds: seq<Database>, rs: seq<Reply>, n: nat, c: Id)
    requires FreshTrace(tr) && Runs(tr, ds, rs) && n <= |tr| && c in ds[n].conversations
    ensures Says(ds[n], c, Transcript(tr[..n], ds, c))
    decreases n
  {
    hide FreshTrace, Steps, Consistent, Unused, Says, RowsIn, Transcript;
    if n > 0 {
      RunsConsistent(tr, ds, rs, n - 1);
      if c in ds[n - 1].conversations {
        LineageTheorem(tr, ds, rs, n - 1, c);
        StepRows(ds[n - 1], tr[n - 1], ds[n], rs[n - 1], c);
        SaysMore(ds[n - 1], tr[n - 1], ds[n], c, Transcript(tr[..n - 1], ds, c));
        SurvivorTranscript(tr, ds, n, c);
      } else {
        if BranchesTo(ds[n - 1], tr[n - 1], c) {
          LineageTheorem(tr, ds, rs, n - 1, ds[n - 1].messages[tr[n - 1].op.messageId].conversationId);
        }
        NewbornSays(tr, ds, rs, n - 1, c);
      }
    }
  }

  lemma SurvivorTranscript(tr: seq<Call>, ds: seq<Database>, n: nat, c: Id)
    requires 0 < n <= |tr| && |ds| >= |tr| && !CreatesRow(ds[n - 1], tr[n - 1], c)
    ensures Transcript(tr[..n], ds, c) ==
      if AppendsTo(ds[n - 1], tr[n - 1], c) then Transcript(tr[..n - 1], ds, c) + [AppendStamp(tr[n - 1])]
      else Transcript(tr[..n - 1], ds, c)
  {
    assert tr[..n][..n - 1] == tr[..n - 1];
    LaterCall(tr[..n], ds, c);
  }

  // --- The cut as a prefix

  predicate Timed(xs: seq<Stamp>) {
    forall i, j :: 0 <= i < j < |xs| ==> xs[i].createdAt <= xs[j].createdAt
  }

  lemma {:induction false} UpToAll(xs: seq<Stamp>, t: Time)
    requires forall i :: 0 <= i < |xs| ==> xs[i].createdAt <= t
    ensures UpTo(xs, t) == xs
  {
    if xs != [] {
      UpToAll(xs[..|xs| - 1], t);
    }
  }

  /** How many stamps of a history in time order are not later than the time. */
  function CutLength(xs: seq<Stamp>, t: Time): (n: nat)
    ensures n <= |xs|
  {
    if xs == [] then 0 else if xs[|xs| - 1].createdAt <= t then |xs| else CutLength(xs[..|xs| - 1], t)
  }

  /** On a history in time order the cut is its shortest prefix that has everything up to the time: it is closed under
      equal times. */
  lemma {:induction false} CutIsTieClosedPrefix(xs: seq<Stamp>, t: Time)
    requires Timed(xs)
    ensures UpTo(xs, t) == xs[..CutLength(xs, t)]
    ensures forall i :: 0 <= i < |xs| ==> (i < CutLength(xs, t) <==> xs[i].createdAt <= t)
  {
    if xs != [] {
      var n := |xs| - 1;
      if xs[n].createdAt <= t {
        UpToAll(xs, t);
      } else {
        CutIsTieClosedPrefix(xs[..n], t);
      }
    }
  }

  /** The last time a history can have. */
  ghost predicate Dated(xs: seq<Stamp>, t: Time) {
    forall i :: 0 <= i < |xs| ==> xs[i].createdAt <= t
  }

  /** Under a clock that never runs backwards the history of a live conversation is in time order, so what a branch
      inherits is its tie-closed prefix. */
  lemma {:induction false} TranscriptIsTimed(tr: seq<Call>, ds: seq<Database>, rs: seq<Reply>, n: nat, c: Id)
    requires FreshTrace(tr) && MonotoneClock(tr) && Runs(tr, ds, rs) && n <= |tr| && c in ds[n].conversations
    ensures n > 0 && Timed(Transcript(tr[..n], ds, c)) && Dated(Transcript(tr[..n], ds, c), tr[n - 1].now)
    decreases n
  {
    hide FreshTrace, Steps, Consistent, Unused, Transcript;
    if n > 0 {
      RunsConsistent(tr, ds, rs, n - 1);
      if c in ds[n - 1].conversations {
        TranscriptIsTimed(tr, ds, rs, n - 1, c);
        StepRows(ds[n - 1], tr[n - 1], ds[n], rs[n - 1], c);
        SurvivorTranscript(tr, ds, n, c);
        assert tr[n - 2].now <= tr[n - 1].now;
      } else {
        StepCreates(ds[n - 1], tr[n - 1], ds[n], rs[n - 1], c);
        NewbornIsTimed(tr, ds, rs, n - 1, c);
      }
    }
  }

  lemma NewbornIsTimed(tr: seq<Call>, ds: seq<Database>, rs: seq<Reply>, n: nat, c: Id)
    requires FreshTrace(tr) && Runs(tr, ds, rs) && n < |tr| && c !in ds[n].conversations && c in ds[n + 1].conversations
    requires CreatesRow(ds[n], tr[n], c) && !AppendsTo(ds[n], tr[n], c)
    ensures Timed(Transcript(tr[..n + 1], ds, c)) && Dated(Transcript(tr[..n + 1], ds, c), tr[n].now)
  {
    hide FreshTrace, Steps, CreatesRow, AppendsTo, BranchesTo, Transcript, UpTo;
    NothingBefore(tr, ds, rs, n, c);
    NewbornTranscript(tr, ds, n, c);
  }
}
