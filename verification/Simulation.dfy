/** The two stores agree: every sequential run of the relational store is matched by the in-memory store. */
module Simulation {
  import opened StoreTypes
  import opened Permutations
  import opened MemorySpec
  import opened MemoryInvariants
  import opened History
  import opened Tables
  import opened RelationalSpec
  import opened TimestampCut

  /** What a message says and when, without its identity. */
  datatype Stamp = Stamp(turn: Turn, createdAt: Time)

  function StampOf(m: Message): Stamp {
    Stamp(TurnOf(m), m.createdAt)
  }

  function Stamps(ms: seq<Message>): (xs: seq<Stamp>)
    ensures |xs| == |ms| && forall i :: 0 <= i < |ms| ==> xs[i] == StampOf(ms[i])
  {
    Map(StampOf, ms)
  }

  lemma StampsConcat(a: seq<Message>, b: seq<Message>)
    ensures Stamps(a + b) == Stamps(a) + Stamps(b)
  {
    MapConcat(StampOf, a, b);
  }

  /** The messages as the table stores them, under the same identifiers. */
  function RowsOf(d: Database, ms: seq<Message>): (rs: seq<Message>)
    ensures |rs| == |ms|
    ensures forall i :: 0 <= i < |ms| ==> rs[i] == RowOf(d, ms[i])
  {
    seq(|ms|, i requires 0 <= i < |ms| => RowOf(d, ms[i]))
  }

  function RowOf(d: Database, m: Message): Message {
    if m.id in d.messages then ToMessage(m.id, d.messages[m.id]) else m
  }

  /** The table holds the messages of one conversation: each identifier at its position's time, and the same
      turns at the same times. Which of two messages with one time carries which turn is left open: the copy
      query of a branch may return tied rows in any order. */
  ghost predicate SameMessages(d: Database, c: Id, sub: Subject, ms: seq<Message>) {
    && (forall i :: 0 <= i < |ms| ==>
          && ms[i].id in d.messages
          && Matches(d.messages[ms[i].id], c, sub, None)
          && d.messages[ms[i].id].createdAt == ms[i].createdAt)
    && multiset(Stamps(RowsOf(d, ms))) == multiset(Stamps(ms))
  }

  ghost predicate SameFeedback(s: State, d: Database) {
    && (forall k :: k in d.feedback <==> k in s.fb && k.messageId in s.index)
    && (forall k :: k in d.feedback ==> d.feedback[k] == s.fb[k])
  }

  /** The same conversations, the same messages up to ties, and the same feedback on live messages. */
  ghost predicate Related(s: State, d: Database) {
    && s.convs == d.conversations
    && (forall m :: m in s.index <==> m in d.messages)
    && (forall c :: c in s.convs ==> SameMessages(d, c, s.convs[c].sub, MessagesOf(s, c)))
    && SameFeedback(s, d)
  }

  ghost predicate InOrder(s: State) {
    forall c :: c in s.convs ==> OldestFirst(MessagesOf(s, c))
  }

  /** Whether the branch, if it takes effect, cuts after the last message of its time. */
  ghost predicate CutsCleanly(s: State, e: Call) {
    e.op.BranchFromMessage? && Branchable(s, e.sub, e.op.messageId) ==>
      var ms := MessagesOf(s, s.index[e.op.messageId]);
      CleanCut(ms, Position(ms, e.op.messageId))
  }

  /** A listing that differs from the other only inside blocks of equal times. */
  ghost predicate TieShuffle(ms: seq<Message>, out: seq<Message>) {
    && OldestFirst(out)
    && multiset(Stamps(out)) == multiset(Stamps(ms))
    && multiset(Map(Place, out)) == multiset(Map(Place, ms))
  }

  function Place(m: Message): (Id, Id, Time) {
    (m.id, m.conversationId, m.createdAt)
  }

  /** The relational reply is one the in-memory store may give, up to ties in a message listing; and feedback on a
      message that is gone is missing here, while the in-memory store still returns it. */
  ghost predicate Matching(s: State, e: Call, r: Reply) {
    match e.op
    case ListMessages(c) =>
      if Owns(s, e.sub, c) then r.Messages? && TieShuffle(MessagesOf(s, c), r.messages) else r == Failed(NotFound)
    case GetFeedback(m) =>
      if m in s.index then Allows(s, e, r) else r == Failed(NotFound)
    case _ => Allows(s, e, r)
  }

  // --- One conversation in the table

  lemma SelectedAreRows(s: State, d: Database, c: Id)
    requires ConvsOk(s) && IndexOk(s) && Consistent(d) && Related(s, d) && c in s.convs
    ensures forall x :: x in Selected(d, c, s.convs[c].sub, None) <==> x in RowsOf(d, MessagesOf(s, c))
  {
    var ms, sub := MessagesOf(s, c), s.convs[c].sub;
    assert SameMessages(d, c, sub, ms);
    forall x | x in Selected(d, c, sub, None) ensures x in RowsOf(d, ms) {
      var m :| m in d.messages && Matches(d.messages[m], c, sub, None) && ToMessage(m, d.messages[m]) == x;
      HomeOf(s, d, m);
      assert Occurs(s.msgs[c], m);
      var i :| 0 <= i < |ms| && ms[i].id == m;
      assert RowsOf(d, ms)[i] == x;
    }
    forall x | x in RowsOf(d, ms) ensures x in Selected(d, c, sub, None) {
      var i :| 0 <= i < |ms| && RowsOf(d, ms)[i] == x;
      assert ms[i].id in d.messages;
    }
  }

  /** The table files a message under the conversation the index names. */
  lemma HomeOf(s: State, d: Database, m: Id)
    requires ConvsOk(s) && IndexOk(s) && Related(s, d) && m in s.index
    ensures m in d.messages && d.messages[m].conversationId == s.index[m] && s.index[m] in s.convs
    ensures d.messages[m].sub == s.convs[s.index[m]].sub
  {
    var c := s.index[m];
    assert SameMessages(d, c, s.convs[c].sub, MessagesOf(s, c));
    var i :| 0 <= i < |s.msgs[c]| && s.msgs[c][i].id == m;
  }

  lemma RowsDistinct(d: Database, ms: seq<Message>)
    requires DistinctIds(ms)
    ensures forall i, j :: 0 <= i < j < |ms| ==> RowsOf(d, ms)[i] != RowsOf(d, ms)[j]
  {
    forall i, j | 0 <= i < j < |ms| ensures RowsOf(d, ms)[i] != RowsOf(d, ms)[j] {
      assert RowsOf(d, ms)[i].id == ms[i].id && RowsOf(d, ms)[j].id == ms[j].id;
    }
  }

  /** The listing query returns a permutation of the conversation's rows. */
  lemma ListingPermutesRows(s: State, d: Database, c: Id, out: seq<Message>)
    requires ConvsOk(s) && IndexOk(s) && Consistent(d) && Related(s, d) && c in s.convs
    requires IsResult(d, c, s.convs[c].sub, None, out)
    ensures multiset(out) == multiset(RowsOf(d, MessagesOf(s, c)))
  {
    SelectedAreRows(s, d, c);
    DistinctIn(s, c);
    RowsDistinct(d, MessagesOf(s, c));
    EnumerationsAgree(out, RowsOf(d, MessagesOf(s, c)), Selected(d, c, s.convs[c].sub, None));
  }

  lemma DistinctIn(s: State, c: Id)
    requires ConvsOk(s) && IndexOk(s) && c in s.convs
    ensures DistinctIds(MessagesOf(s, c))
  {
  }

  lemma ListingMatches(s: State, d: Database, c: Id, out: seq<Message>)
    requires ConvsOk(s) && IndexOk(s) && Consistent(d) && Related(s, d) && c in s.convs
    requires IsResult(d, c, s.convs[c].sub, None, out)
    ensures TieShuffle(MessagesOf(s, c), out)
  {
    var ms := MessagesOf(s, c);
    assert SameMessages(d, c, s.convs[c].sub, ms);
    ListingPermutesRows(s, d, c, out);
    MapPermutes(StampOf, out, RowsOf(d, ms));
    MapPermutes(Place, out, RowsOf(d, ms));
    SamePlaces(s, d, c);
  }

  lemma SamePlaces(s: State, d: Database, c: Id)
    requires ConvsOk(s) && IndexOk(s) && Related(s, d) && c in s.convs
    ensures Map(Place, RowsOf(d, MessagesOf(s, c))) == Map(Place, MessagesOf(s, c))
  {
    var ms := MessagesOf(s, c);
    assert SameMessages(d, c, s.convs[c].sub, ms);
  }

  // --- The copy of a branch

  /** Where two permutations split at one time, their parts are permutations too. */
  lemma SplitByTime(a: seq<Stamp>, b: seq<Stamp>, c: seq<Stamp>, e: seq<Stamp>, t: Time)
    requires multiset(a + b) == multiset(c + e)
    requires forall i :: 0 <= i < |a| ==> a[i].createdAt <= t
    requires forall i :: 0 <= i < |c| ==> c[i].createdAt <= t
    requires forall i :: 0 <= i < |b| ==> b[i].createdAt > t
    requires forall i :: 0 <= i < |e| ==> e[i].createdAt > t
    ensures multiset(a) == multiset(c)
  {
    forall x ensures multiset(a)[x] == multiset(c)[x] {
      assert multiset(a + b)[x] == multiset(a)[x] + multiset(b)[x];
      assert multiset(c + e)[x] == multiset(c)[x] + multiset(e)[x];
      if x.createdAt <= t {
        assert x !in b && x !in e;
      } else {
        assert x !in a && x !in c;
      }
    }
  }

  lemma PrefixPermutes(rows: seq<Message>, ms: seq<Message>, n: nat, t: Time)
    requires |rows| == |ms| && n <= |ms| && multiset(Stamps(rows)) == multiset(Stamps(ms))
    requires forall i :: 0 <= i < |ms| ==> rows[i].createdAt == ms[i].createdAt
    requires forall i :: 0 <= i < |ms| ==> (ms[i].createdAt <= t <==> i < n)
    ensures multiset(Stamps(rows[..n])) == multiset(Stamps(ms[..n]))
  {
    var a, b, x, y := rows[..n], rows[n..], ms[..n], ms[n..];
    assert a + b == rows && x + y == ms;
    StampsConcat(a, b);
    StampsConcat(x, y);
    SplitByTime(Stamps(a), Stamps(b), Stamps(x), Stamps(y), t);
  }

  /** The prefix up to a tie-closed position holds the same turns at the same times in both stores. */
  lemma PrefixStamps(d: Database, c: Id, sub: Subject, ms: seq<Message>, p: nat)
    requires SameMessages(d, c, sub, ms) && p < |ms| && OldestFirst(ms)
    ensures var n := TieEnd(ms, p); multiset(Stamps(RowsOf(d, ms[..n]))) == multiset(Stamps(ms[..n]))
  {
    hide OldestFirst;
    var n := TieEnd(ms, p);
    CutIsShortestTieClosedPrefix(ms, p);
    assert RowsOf(d, ms[..n]) == RowsOf(d, ms)[..n];
    PrefixPermutes(RowsOf(d, ms), ms, n, ms[p].createdAt);
  }

  lemma RelatedMessages(s: State, d: Database, c: Id)
    requires Related(s, d) && c in s.convs
    ensures SameMessages(d, c, s.convs[c].sub, MessagesOf(s, c))
  {
  }

  /** The rows up to a time are those of the messages up to it. */
  lemma CutEnumerates(d: Database, c: Id, sub: Subject, ms: seq<Message>, n: nat, t: Time)
    requires SameMessages(d, c, sub, ms) && DistinctIds(ms) && n <= |ms|
    requires forall i :: 0 <= i < |ms| ==> (ms[i].createdAt <= t <==> i < n)
    requires forall x :: x in Selected(d, c, sub, None) <==> x in RowsOf(d, ms)
    ensures Enumerates(RowsOf(d, ms[..n]), Selected(d, c, sub, Some(t)))
  {
    var cut := RowsOf(d, ms[..n]);
    RowsDistinct(d, ms[..n]);
    forall x | x in Selected(d, c, sub, Some(t)) ensures x in cut {
      assert x in Selected(d, c, sub, None);
      var i :| 0 <= i < |ms| && RowsOf(d, ms)[i] == x;
      assert cut[i] == x;
    }
    forall i | 0 <= i < |cut| ensures cut[i] in Selected(d, c, sub, Some(t)) {
      assert ms[i].id in d.messages;
    }
  }

  /** The copy query selects the rows of exactly the tie-closed prefix. */
  lemma CutSelectsPrefix(s: State, d: Database, c: Id, p: nat)
    requires ConvsOk(s) && IndexOk(s) && Consistent(d) && Related(s, d) && c in s.convs
    requires p < |MessagesOf(s, c)| && OldestFirst(MessagesOf(s, c))
    ensures var ms := MessagesOf(s, c);
      Enumerates(RowsOf(d, ms[..TieEnd(ms, p)]), Selected(d, c, s.convs[c].sub, Some(ms[p].createdAt)))
  {
    hide ConvsOk, IndexOk, Consistent, Related, SameMessages, OldestFirst, Enumerates, Selected;
    var ms := MessagesOf(s, c);
    RelatedMessages(s, d, c);
    CutIsShortestTieClosedPrefix(ms, p);
    SelectedAreRows(s, d, c);
    DistinctIn(s, c);
    CutEnumerates(d, c, s.convs[c].sub, ms, TieEnd(ms, p), ms[p].createdAt);
  }

  /** What the relational branch copies: as many rows as the tie-closed prefix has messages, saying the same turns. */
  lemma CopyIsTieClosedPrefix(s: State, d: Database, c: Id, p: nat, copied: seq<Message>)
    requires ConvsOk(s) && IndexOk(s) && Consistent(d) && Related(s, d) && c in s.convs
    requires p < |MessagesOf(s, c)| && OldestFirst(MessagesOf(s, c))
    requires IsResult(d, c, s.convs[c].sub, Some(MessagesOf(s, c)[p].createdAt), copied)
    ensures |copied| == TieEnd(MessagesOf(s, c), p)
    ensures multiset(Stamps(copied)) == multiset(Stamps(MessagesOf(s, c)[..TieEnd(MessagesOf(s, c), p)]))
  {
    var ms := MessagesOf(s, c);
    var cut := RowsOf(d, ms[..TieEnd(ms, p)]);
    CutSelectsPrefix(s, d, c, p);
    EnumerationsAgree(copied, cut, Selected(d, c, s.convs[c].sub, Some(ms[p].createdAt)));
    MapPermutes(StampOf, copied, cut);
    RelatedMessages(s, d, c);
    PrefixStamps(d, c, s.convs[c].sub, ms, p);
  }

  /** The resolved source is the same row in both stores. */
  lemma SourceAgrees(s: State, d: Database, sub: Subject, m: Id)
    requires ConvsOk(s) && IndexOk(s) && Consistent(d) && Related(s, d)
    ensures OwnsMessage(d, sub, m) <==> Visible(s, sub, m)
    ensures JoinsSource(d, sub, m) <==> Branchable(s, sub, m)
    ensures Visible(s, sub, m) ==>
      var ms := MessagesOf(s, s.index[m]); var p := Position(ms, m);
      && p >= 0
      && d.messages[m].conversationId == s.index[m]
      && d.messages[m].createdAt == ms[p].createdAt
  {
    if m in s.index {
      HomeOf(s, d, m);
      var c := s.index[m];
      assert Occurs(s.msgs[c], m);
      assert SameMessages(d, c, s.convs[c].sub, MessagesOf(s, c));
    }
  }

  function Restamp(now: Time): Stamp -> Stamp {
    (x: Stamp) => Stamp(x.turn, now)
  }

  /** Equal turns under one shared time are equal stamps. */
  lemma RestampPermutes(xs: seq<Message>, ys: seq<Message>, now: Time)
    requires multiset(Stamps(xs)) == multiset(Stamps(ys))
    ensures multiset(Map(Restamp(now), Stamps(xs))) == multiset(Map(Restamp(now), Stamps(ys)))
  {
    MapPermutes(Restamp(now), Stamps(xs), Stamps(ys));
  }

  /** The new conversation of a branch in both stores. */
  lemma BranchMessages(d2: Database, head: Conversation, pre: seq<Message>, copied: seq<Message>, d1: Database, e: Call)
    requires CopiesAdded(d1, d2, head, copied, e.mint, |copied|)
    requires |copied| == |pre| && multiset(Stamps(copied)) == multiset(Stamps(pre)) && head.createdAt == e.now
    ensures SameMessages(d2, head.id, head.sub, Copies(pre, head.id, e.now, e.mint))
  {
    var ms := Copies(pre, head.id, e.now, e.mint);
    forall i | 0 <= i < |ms| ensures ms[i].id in d2.messages && d2.messages[ms[i].id] == CopyRow(head, copied[i]) {
      assert ms[i].id == e.mint(i + 1);
    }
    assert Stamps(ms) == Map(Restamp(e.now), Stamps(pre));
    assert Stamps(RowsOf(d2, ms)) == Map(Restamp(e.now), Stamps(copied));
    RestampPermutes(copied, pre, e.now);
  }

  // --- One call

  lemma DeleteKeepsIds(s: State, d: Database, c: Id, m: Id)
    requires ConvsOk(s) && IndexOk(s) && Related(s, d) && c in s.convs
    ensures m in AfterDelete(s, c).index <==> m in Cascade(d, c).messages
    ensures m in d.messages ==> (m in MessagesIn(d, c) <==> s.index[m] == c)
  {
    if m in s.index {
      HomeOf(s, d, m);
      InSlice(s, c, m);
    }
  }

  lemma DeleteKeepsMessages(s: State, d: Database, c: Id, x: Id)
    requires ConvsOk(s) && Related(s, d) && x in s.convs && x != c
    ensures SameMessages(Cascade(d, c), x, s.convs[x].sub, MessagesOf(s, x))
  {
    assert SameMessages(d, x, s.convs[x].sub, MessagesOf(s, x));
    assert RowsOf(Cascade(d, c), MessagesOf(s, x)) == RowsOf(d, MessagesOf(s, x));
  }

  lemma DeleteSimulates(s: State, d: Database, c: Id)
    requires ConvsOk(s) && IndexOk(s) && Related(s, d) && c in s.convs
    ensures Related(AfterDelete(s, c), Cascade(d, c))
  {
    var t, d' := AfterDelete(s, c), Cascade(d, c);
    forall m ensures m in t.index <==> m in d'.messages {
      DeleteKeepsIds(s, d, c, m);
    }
    forall x | x in t.convs ensures SameMessages(d', x, t.convs[x].sub, MessagesOf(t, x)) {
      DeleteKeepsMessages(s, d, c, x);
    }
    forall k ensures k in d'.feedback <==> k in t.fb && k.messageId in t.index {
      DeleteKeepsIds(s, d, c, k.messageId);
    }
  }

  lemma InSlice(s: State, c: Id, m: Id)
    requires ConvsOk(s) && IndexOk(s) && c in s.convs && m in s.index
    ensures s.index[m] == c <==> m in IdsOf(MessagesOf(s, c))
  {
    assert Occurs(s.msgs[s.index[m]], m);
  }

  /** Adding rows leaves the messages of the other conversations as they were. */
  lemma OthersUnchanged(d: Database, d': Database, c: Id, sub: Subject, ms: seq<Message>)
    requires SameMessages(d, c, sub, ms)
    requires forall m :: m in d.messages ==> m in d'.messages && d'.messages[m] == d.messages[m]
    ensures SameMessages(d', c, sub, ms)
  {
    assert RowsOf(d', ms) == RowsOf(d, ms);
  }

  lemma AppendSame(d: Database, c: Id, sub: Subject, ms: seq<Message>, m: Message)
    requires SameMessages(d, c, sub, ms)
    requires m.id in d.messages && d.messages[m.id] == MessageRow(c, sub, m.role, m.content, m.createdAt)
    requires m.conversationId == c
    ensures SameMessages(d, c, sub, ms + [m])
  {
    assert RowsOf(d, ms + [m]) == RowsOf(d, ms) + [m];
    StampsConcat(RowsOf(d, ms), [m]);
    StampsConcat(ms, [m]);
  }

  lemma AppendSimulates(s: State, d: Database, m: Message, d': Database)
    requires ConvsOk(s) && Related(s, d) && m.conversationId in s.convs && m.id !in s.index
    requires forall k :: k in s.fb ==> k.messageId != m.id
    requires var c := m.conversationId;
      && d'.conversations == d.conversations[c := d.conversations[c].(updatedAt := m.createdAt)]
      && d'.messages == d.messages[m.id := MessageRow(c, s.convs[c].sub, m.role, m.content, m.createdAt)]
      && d'.feedback == d.feedback
    ensures Related(AfterAppend(s, m), d')
  {
    var c := m.conversationId;
    var t := AfterAppend(s, m);
    forall x | x in t.convs ensures SameMessages(d', x, t.convs[x].sub, MessagesOf(t, x)) {
      OthersUnchanged(d, d', x, s.convs[x].sub, MessagesOf(s, x));
      SameConvs(s, c);
      if x == c {
        AppendSame(d', c, s.convs[c].sub, MessagesOf(s, c), m);
      }
    }
  }

  lemma SameConvs(s: State, c: Id)
    requires ConvsOk(s)
    ensures c in s.convs <==> c in s.msgs
  {
  }

  lemma BranchHeads(s: State, d: Database, e: Call)
    requires ConvsOk(s) && IndexOk(s) && Consistent(d) && Related(s, d)
    requires e.op.BranchFromMessage? && Visible(s, e.sub, e.op.messageId) && JoinsSource(d, e.sub, e.op.messageId)
    ensures BranchRow(d, e) == BranchHead(s, e)
  {
    SourceAgrees(s, d, e.sub, e.op.messageId);
  }

  /** A clean cut copies the turns of the in-memory prefix. */
  lemma CleanCopy(s: State, d: Database, e: Call, copied: seq<Message>)
    requires ConvsOk(s) && IndexOk(s) && InOrder(s) && Consistent(d) && Related(s, d)
    requires e.op.BranchFromMessage? && Branchable(s, e.sub, e.op.messageId) && CutsCleanly(s, e)
    requires JoinsSource(d, e.sub, e.op.messageId) && CopyQuery(d, e, copied)
    ensures |copied| == |Prefix(s, e.op.messageId)|
    ensures multiset(Stamps(copied)) == multiset(Stamps(Prefix(s, e.op.messageId)))
  {
    hide ConvsOk, IndexOk, Consistent, Related, IsResult, Stamps, OldestFirst;
    SourceAgrees(s, d, e.sub, e.op.messageId);
    var c := s.index[e.op.messageId];
    var ms := MessagesOf(s, c);
    var p := Position(ms, e.op.messageId);
    CopyIsTieClosedPrefix(s, d, c, p, copied);
    CutIsPositionalIffClean(ms, p);
  }

  lemma BranchSimulates(s: State, d: Database, e: Call, copied: seq<Message>, d': Database)
    requires Inv(s) && InOrder(s) && Consistent(d) && Related(s, d) && FreshFor(s, e.mint)
    requires e.op.BranchFromMessage? && Succeeds(s, e) && CutsCleanly(s, e)
    requires JoinsSource(d, e.sub, e.op.messageId) && CopyQuery(d, e, copied)
    requires var head := BranchRow(d, e);
      CopiesAdded(d.(conversations := d.conversations[head.id := head]), d', head, copied, e.mint, |copied|)
    ensures Related(Next(s, e), d')
  {
    hide ConvsOk, IndexOk, FeedbackOk, FreshFor, InOrder, Consistent, Related, CopyQuery, CopiesAdded, SameMessages, Stamps, CutsCleanly;
    BranchHeads(s, d, e);
    CleanCopy(s, d, e, copied);
    var head, pre := BranchHead(s, e), Prefix(s, e.op.messageId);
    var d1 := d.(conversations := d.conversations[head.id := head]);
    BranchMessages(d', head, pre, copied, d1, e);
    BranchRelates(s, d, head, Copies(pre, head.id, e.now, e.mint), d', e.mint, copied);
  }

  lemma BranchIds(s: State, d: Database, head: Conversation, copies: seq<Message>, d': Database, mint: Mint, copied: seq<Message>, m: Id)
    requires m in s.index <==> m in d.messages
    requires |copies| == |copied| && forall i :: 0 <= i < |copies| ==> copies[i].id == mint(i + 1)
    requires CopiesAdded(d.(conversations := d.conversations[head.id := head]), d', head, copied, mint, |copied|)
    ensures m in AfterBranch(s, head, copies).index <==> m in d'.messages
  {
    if m in IdsOf(copies) {
      var i :| 0 <= i < |copies| && copies[i].id == m;
      assert m == mint(i + 1);
    }
    forall k: nat | 1 <= k <= |copied| ensures mint(k) in IdsOf(copies) {
      assert copies[k - 1].id == mint(k);
    }
  }

  lemma NewHead(s: State, mint: Mint)
    requires FreshFor(s, mint)
    ensures mint(0) !in s.convs
  {
    assert !Known(s, mint(0));
  }

  lemma BranchRelates(s: State, d: Database, head: Conversation, copies: seq<Message>, d': Database, mint: Mint, copied: seq<Message>)
    requires Related(s, d) && FreshFor(s, mint) && head.id == mint(0)
    requires |copies| == |copied| && forall i :: 0 <= i < |copies| ==> copies[i].id == mint(i + 1)
    requires CopiesAdded(d.(conversations := d.conversations[head.id := head]), d', head, copied, mint, |copied|)
    requires SameMessages(d', head.id, head.sub, copies)
    ensures Related(AfterBranch(s, head, copies), d')
  {
    var t := AfterBranch(s, head, copies);
    NewHead(s, mint);
    forall x | x in t.convs ensures SameMessages(d', x, t.convs[x].sub, MessagesOf(t, x)) {
      if x != head.id {
        OthersUnchanged(d, d', x, s.convs[x].sub, MessagesOf(s, x));
      }
    }
    forall m ensures m in t.index <==> m in d'.messages {
      BranchIds(s, d, head, copies, d', mint, copied, m);
    }
    BranchFeedback(s, d, head, copies, d', mint);
  }

  lemma BranchFeedback(s: State, d: Database, head: Conversation, copies: seq<Message>, d': Database, mint: Mint)
    requires SameFeedback(s, d) && FreshFor(s, mint) && d'.feedback == d.feedback
    requires forall i :: 0 <= i < |copies| ==> copies[i].id == mint(i + 1)
    ensures SameFeedback(AfterBranch(s, head, copies), d')
  {
    forall k | k in s.fb ensures k.messageId !in IdsOf(copies) {
      assert Known(s, k.messageId);
    }
  }

  lemma ListingRead(d: Database, e: Call, d': Database, r: Reply)
    requires Steps(d, e, d', r) && e.op.ListMessages?
    ensures d' == d
    ensures if OwnsRow(d, e.sub, e.op.conversationId)
            then r.Messages? && IsResult(d, e.op.conversationId, e.sub, None, r.messages) else r == Failed(NotFound)
  {
    hide IsResult, IsListing, BranchSteps, CreateStep, RenameStep, DeleteStep, AppendStep, UpsertStep;
  }

  lemma ReadSimulates(s: State, d: Database, e: Call, d': Database, r: Reply)
    requires ConvsOk(s) && IndexOk(s) && Consistent(d) && Related(s, d) && Steps(d, e, d', r) && !Mutates(e.op)
    ensures d' == d && Next(s, e) == s && Matching(s, e, r)
  {
    hide IndexOk, Consistent, SameMessages, TieShuffle, IsListing, IsResult, BranchSteps, CreateStep, RenameStep, DeleteStep, AppendStep, UpsertStep;
    if e.op.ListMessages? {
      ListingRead(d, e, d', r);
      if Owns(s, e.sub, e.op.conversationId) {
        ListingMatches(s, d, e.op.conversationId, r.messages);
      }
    }
  }

  /** The relational step and the in-memory step, related again. */
  lemma StepSimulates(s: State, d: Database, e: Call, d': Database, r: Reply)
    requires Inv(s) && InOrder(s) && FreshFor(s, e.mint) && CutsCleanly(s, e)
    requires Consistent(d) && Unused(d, e.mint) && Related(s, d) && Steps(d, e, d', r)
    ensures Related(Next(s, e), d') && Matching(s, e, r)
  {
    hide ConvsOk, IndexOk, FeedbackOk, InOrder, FreshFor, CutsCleanly, Consistent, Unused, Related, Steps, Matching, Next;
    match e.op
    case CreateConversation(_) => CreateStepSimulates(s, d, e, d', r);
    case RenameConversation(_, _) => RenameStepSimulates(s, d, e, d', r);
    case DeleteConversation(_) => DeleteStepSimulates(s, d, e, d', r);
    case AppendMessage(_, _, _) => AppendStepSimulates(s, d, e, d', r);
    case BranchFromMessage(_, _) => BranchStepSimulates(s, d, e, d', r);
    case UpsertFeedback(_, _, _) => UpsertStepSimulates(s, d, e, d', r);
    case _ => ReadSimulates(s, d, e, d', r);
  }

  /** Changing conversation rows, or adding one without messages, keeps the stores related. */
  lemma RowsSimulate(s: State, d: Database, t: State, d': Database)
    requires Related(s, d) && t.convs == d'.conversations
    requires t.index == s.index && t.fb == s.fb && d'.messages == d.messages && d'.feedback == d.feedback
    requires forall c :: c in t.convs ==>
      if c in s.convs then t.convs[c].sub == s.convs[c].sub && MessagesOf(t, c) == MessagesOf(s, c)
      else MessagesOf(t, c) == []
    ensures Related(t, d')
  {
    forall c | c in t.convs ensures SameMessages(d', c, t.convs[c].sub, MessagesOf(t, c)) {
      if c in s.convs {
        OthersUnchanged(d, d', c, s.convs[c].sub, MessagesOf(s, c));
      }
    }
  }

  lemma CreateStepSimulates(s: State, d: Database, e: Call, d': Database, r: Reply)
    requires ConvsOk(s) && e.op.CreateConversation? && Unused(d, e.mint) && Related(s, d) && Steps(d, e, d', r)
    ensures Related(Next(s, e), d') && Matching(s, e, r)
  {
    hide SameFeedback, SameMessages;
    if Succeeds(s, e) {
      RowsSimulate(s, d, Next(s, e), d');
    }
  }

  lemma RenameStepSimulates(s: State, d: Database, e: Call, d': Database, r: Reply)
    requires ConvsOk(s) && e.op.RenameConversation? && Related(s, d) && Steps(d, e, d', r)
    ensures Related(Next(s, e), d') && Matching(s, e, r)
  {
    hide SameFeedback, SameMessages;
    if Succeeds(s, e) {
      RowsSimulate(s, d, Next(s, e), d');
    }
  }

  lemma DeleteStepSimulates(s: State, d: Database, e: Call, d': Database, r: Reply)
    requires ConvsOk(s) && IndexOk(s) && e.op.DeleteConversation? && Related(s, d) && Steps(d, e, d', r)
    ensures Related(Next(s, e), d') && Matching(s, e, r)
  {
    if Succeeds(s, e) {
      DeleteSimulates(s, d, e.op.id);
    }
  }

  lemma NewMessage(s: State, mint: Mint)
    requires FreshFor(s, mint)
    ensures mint(0) !in s.index && forall k :: k in s.fb ==> k.messageId != mint(0)
  {
    assert !Known(s, mint(0));
  }

  lemma AppendStepSimulates(s: State, d: Database, e: Call, d': Database, r: Reply)
    requires ConvsOk(s) && FreshFor(s, e.mint) && e.op.AppendMessage? && Related(s, d) && Steps(d, e, d', r)
    ensures Related(Next(s, e), d') && Matching(s, e, r)
  {
    NewMessage(s, e.mint);
    if Succeeds(s, e) {
      AppendSimulates(s, d, AppendedMessage(e), d');
    }
  }

  lemma FeedbackSimulates(s: State, d: Database, f: Feedback)
    requires Related(s, d) && f.messageId in s.index
    ensures var k := FeedbackKey(f.sub, f.messageId);
      Related(s.(fb := s.fb[k := f]), d.(feedback := d.feedback[k := f]))
  {
    hide SameMessages;
    var k := FeedbackKey(f.sub, f.messageId);
    var t, d' := s.(fb := s.fb[k := f]), d.(feedback := d.feedback[k := f]);
    forall c | c in t.convs ensures SameMessages(d', c, t.convs[c].sub, MessagesOf(t, c)) {
      OthersUnchanged(d, d', c, s.convs[c].sub, MessagesOf(s, c));
    }
  }

  lemma UpsertStepSimulates(s: State, d: Database, e: Call, d': Database, r: Reply)
    requires ConvsOk(s) && IndexOk(s) && Consistent(d) && e.op.UpsertFeedback? && Related(s, d) && Steps(d, e, d', r)
    ensures Related(Next(s, e), d') && Matching(s, e, r)
  {
    hide ConvsOk, IndexOk, Consistent, Related, IsResult, IsListing, BranchSteps, CreateStep, RenameStep, DeleteStep, AppendStep;
    SourceAgrees(s, d, e.sub, e.op.messageId);
    if Succeeds(s, e) {
      FeedbackSimulates(s, d, NewFeedback(e));
    }
  }

  /** What a branch that takes effect copies, as the in-memory slice counts it. */
  lemma CopySize(s: State, d: Database, e: Call, copied: seq<Message>)
    requires ConvsOk(s) && IndexOk(s) && InOrder(s) && Consistent(d) && Related(s, d)
    requires e.op.BranchFromMessage? && Branchable(s, e.sub, e.op.messageId)
    requires JoinsSource(d, e.sub, e.op.messageId) && CopyQuery(d, e, copied)
    ensures var ms := MessagesOf(s, s.index[e.op.messageId]); var p := Position(ms, e.op.messageId);
      0 <= p && OldestFirst(ms) && |copied| == TieEnd(ms, p)
  {
    hide IndexOk, Consistent, Related, IsResult, Stamps, OldestFirst;
    SourceAgrees(s, d, e.sub, e.op.messageId);
    var c := s.index[e.op.messageId];
    CopyIsTieClosedPrefix(s, d, c, Position(MessagesOf(s, c), e.op.messageId), copied);
  }

  lemma BranchMatches(s: State, d: Database, e: Call, d': Database, r: Reply)
    requires ConvsOk(s) && IndexOk(s) && e.op.BranchFromMessage? && Consistent(d) && Related(s, d) && Unused(d, e.mint)
    requires Steps(d, e, d', r)
    ensures Matching(s, e, r)
    ensures Succeeds(s, e) <==> e.sub != "" && JoinsSource(d, e.sub, e.op.messageId)
    ensures !Succeeds(s, e) ==> d' == d
  {
    hide ConvsOk, IndexOk, Consistent, Related, Steps, JoinsSource, CopyQuery, CopiesAdded, Branchable;
    SourceAgrees(s, d, e.sub, e.op.messageId);
    if e.sub != "" && JoinsSource(d, e.sub, e.op.messageId) {
      var copied := BranchDone(d, e, d', r);
      CanBranch(s, e.sub, e.op.messageId);
      BranchHeads(s, d, e);
    } else {
      BranchRefused(d, e, d', r);
    }
  }

  lemma CanBranch(s: State, sub: Subject, m: Id)
    requires Branchable(s, sub, m)
    ensures Visible(s, sub, m)
  {
  }

  lemma BranchStepSimulates(s: State, d: Database, e: Call, d': Database, r: Reply)
    requires Inv(s) && InOrder(s) && FreshFor(s, e.mint) && CutsCleanly(s, e)
    requires Consistent(d) && Unused(d, e.mint) && e.op.BranchFromMessage? && Related(s, d) && Steps(d, e, d', r)
    ensures Related(Next(s, e), d') && Matching(s, e, r)
  {
    hide ConvsOk, IndexOk, FeedbackOk, InOrder, FreshFor, CutsCleanly, Consistent, Related, Steps, CopyQuery, CopiesAdded, Matching, JoinsSource, Succeeds, Effect;
    BranchMatches(s, d, e, d', r);
    if Succeeds(s, e) {
      var copied := BranchDone(d, e, d', r);
      BranchSimulates(s, d, e, copied, d');
    }
  }
}
