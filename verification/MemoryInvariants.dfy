/** What every run of the in-memory store keeps. */
module MemoryInvariants {
  import opened StoreTypes
  import opened MemorySpec

  ghost predicate Occurs(ms: seq<Message>, m: Id) {
    exists i :: 0 <= i < |ms| && ms[i].id == m
  }

  ghost predicate DistinctIds(ms: seq<Message>) {
    forall i, j :: 0 <= i < j < |ms| ==> ms[i].id != ms[j].id
  }

  ghost predicate ConvsOk(s: State) {
    && s.msgs.Keys == s.convs.Keys
    && (forall c :: c in s.convs ==> s.convs[c].id == c && s.convs[c].sub != "")
  }

  /** Every stored message is indexed to its conversation, and every index entry names a stored message. */
  ghost predicate IndexOk(s: State) {
    && (forall c, i :: c in s.msgs && 0 <= i < |s.msgs[c]| ==>
          && s.msgs[c][i].id in s.index
          && s.index[s.msgs[c][i].id] == c
          && s.msgs[c][i].conversationId == c)
    && (forall c :: c in s.msgs ==> DistinctIds(s.msgs[c]))
    && (forall m :: m in s.index ==> s.index[m] in s.msgs && Occurs(s.msgs[s.index[m]], m))
  }

  /** Feedback belongs to its key, and a message has feedback from at most one subject: its owner. */
  ghost predicate FeedbackOk(s: State) {
    && (forall k :: k in s.fb ==> s.fb[k].sub == k.sub && s.fb[k].messageId == k.messageId)
    && (forall k :: k in s.fb && k.messageId in s.index ==> Owns(s, k.sub, s.index[k.messageId]))
    && (forall k, l :: k in s.fb && l in s.fb && k.messageId == l.messageId ==> k == l)
  }

  ghost predicate Inv(s: State) {
    ConvsOk(s) && IndexOk(s) && FeedbackOk(s)
  }

  ghost predicate Known(s: State, x: Id) {
    x in s.convs || x in s.index || exists k :: k in s.fb && k.messageId == x
  }

  /** The identifiers a call may draw are new to the state. */
  ghost predicate FreshFor(s: State, mint: Mint) {
    Injective(mint) && forall k: nat :: !Known(s, mint(k))
  }

  lemma CreatePreserves(s: State, e: Call)
    requires Inv(s) && FreshFor(s, e.mint) && e.op.CreateConversation?
    ensures Inv(Next(s, e))
  {
    assert !Known(s, e.mint(0));
  }

  lemma RenamePreserves(s: State, e: Call)
    requires Inv(s) && e.op.RenameConversation?
    ensures Inv(Next(s, e))
  {
  }

  lemma DeletePreserves(s: State, e: Call)
    requires Inv(s) && e.op.DeleteConversation?
    ensures Inv(Next(s, e))
  {
    if Succeeds(s, e) {
      var c := e.op.id;
      var t := Next(s, e);
      forall m | m in t.index ensures t.index[m] in t.msgs && Occurs(t.msgs[t.index[m]], m) {
        assert s.index[m] != c by {
          if s.index[m] == c {
            assert false;
          }
        }
        assert Occurs(s.msgs[s.index[m]], m);
      }
    }
  }

  lemma AppendKeepsIndex(s: State, m: Message)
    requires ConvsOk(s) && IndexOk(s) && m.conversationId in s.convs && m.id !in s.index
    ensures IndexOk(AfterAppend(s, m))
  {
    var c := m.conversationId;
    var t := AfterAppend(s, m);
    var ms := s.msgs[c];
    assert t.msgs[c] == ms + [m];
    assert t.msgs[c][|ms|] == m;
    forall x | x in t.index ensures t.index[x] in t.msgs && Occurs(t.msgs[t.index[x]], x) {
      if x != m.id {
        var i :| 0 <= i < |s.msgs[s.index[x]]| && s.msgs[s.index[x]][i].id == x;
        assert t.msgs[t.index[x]][i].id == x;
      }
    }
    assert DistinctIds(ms);
  }

  lemma AppendPreserves(s: State, e: Call)
    requires Inv(s) && FreshFor(s, e.mint) && e.op.AppendMessage?
    ensures Inv(Next(s, e))
  {
    if Succeeds(s, e) {
      var m := AppendedMessage(e);
      assert !Known(s, m.id);
      AppendKeepsIndex(s, m);
      assert FeedbackOk(Next(s, e)) by {
        var t := Next(s, e);
        forall k | k in t.fb && k.messageId in t.index ensures Owns(t, k.sub, t.index[k.messageId]) {
          assert k.messageId != m.id;
          assert Owns(s, k.sub, s.index[k.messageId]);
        }
      }
    }
  }

  lemma BranchKeepsIndex(s: State, head: Conversation, copies: seq<Message>)
    requires ConvsOk(s) && IndexOk(s) && head.id !in s.convs && DistinctIds(copies)
    requires forall i :: 0 <= i < |copies| ==> copies[i].id !in s.index && copies[i].conversationId == head.id
    ensures IndexOk(AfterBranch(s, head, copies))
  {
    var t := AfterBranch(s, head, copies);
    forall i | 0 <= i < |copies| ensures copies[i].id in t.index && t.index[copies[i].id] == head.id {
      assert copies[i].id in IdsOf(copies);
    }
    forall c, i | c in t.msgs && 0 <= i < |t.msgs[c]|
      ensures t.msgs[c][i].id in t.index && t.index[t.msgs[c][i].id] == c && t.msgs[c][i].conversationId == c
    {
      if c != head.id {
        assert s.msgs[c][i].id in s.index;
      }
    }
    forall x | x in t.index ensures t.index[x] in t.msgs && Occurs(t.msgs[t.index[x]], x) {
      if x !in IdsOf(copies) {
        assert Occurs(s.msgs[s.index[x]], x);
      }
    }
  }

  lemma BranchPreserves(s: State, e: Call)
    requires Inv(s) && FreshFor(s, e.mint) && e.op.BranchFromMessage?
    ensures Inv(Next(s, e))
  {
    if Succeeds(s, e) {
      var head := BranchHead(s, e);
      var copies := Copies(Prefix(s, e.op.messageId), e.mint(0), e.now, e.mint);
      assert !Known(s, head.id);
      forall i | 0 <= i < |copies| ensures !Known(s, copies[i].id) {
      }
      BranchKeepsIndex(s, head, copies);
      assert FeedbackOk(Next(s, e)) by {
        var t := Next(s, e);
        forall k | k in t.fb && k.messageId in t.index ensures Owns(t, k.sub, t.index[k.messageId]) {
          assert Known(s, k.messageId);
          assert Owns(s, k.sub, s.index[k.messageId]);
        }
      }
    }
  }

  lemma UpsertPreserves(s: State, e: Call)
    requires Inv(s) && e.op.UpsertFeedback?
    ensures Inv(Next(s, e))
  {
  }

  lemma NextPreserves(s: State, e: Call)
    requires Inv(s) && FreshFor(s, e.mint)
    ensures Inv(Next(s, e))
  {
    match e.op
    case CreateConversation(_) => CreatePreserves(s, e);
    case RenameConversation(_, _) => RenamePreserves(s, e);
    case DeleteConversation(_) => DeletePreserves(s, e);
    case AppendMessage(_, _, _) => AppendPreserves(s, e);
    case BranchFromMessage(_, _) => BranchPreserves(s, e);
    case UpsertFeedback(_, _, _) => UpsertPreserves(s, e);
    case _ =>
  }

  ghost predicate MintedIn(tr: seq<Call>, x: Id) {
    exists i, k: nat :: 0 <= i < |tr| && tr[i].mint(k) == x
  }

  lemma NextKnows(s: State, e: Call, x: Id)
    requires Inv(s) && Known(Next(s, e), x)
    ensures Known(s, x) || exists k: nat :: e.mint(k) == x
  {
    if Succeeds(s, e) && !Known(s, x) {
      match e.op
      case BranchFromMessage(m, _) =>
        if x in Next(s, e).index {
          var copies := Copies(Prefix(s, m), e.mint(0), e.now, e.mint);
          var i :| 0 <= i < |copies| && copies[i].id == x;
          assert e.mint(i + 1) == x;
        } else {
          assert e.mint(0) == x;
        }
      case CreateConversation(_) => assert e.mint(0) == x;
      case AppendMessage(_, _, _) => assert e.mint(0) == x;
      case UpsertFeedback(m, _, _) =>
        assert Known(s, m);
      case _ =>
    }
  }

  /** Every reachable state satisfies the invariant and knows only identifiers drawn earlier in the run. */
  lemma {:induction false} Reachable(tr: seq<Call>)
    requires FreshTrace(tr)
    ensures Inv(Run(tr))
    ensures forall x :: Known(Run(tr), x) ==> MintedIn(tr, x)
  {
    if tr != [] {
      var n := |tr| - 1;
      var pre, e := tr[..n], tr[n];
      FreshPrefix(tr, n);
      Reachable(pre);
      FreshNext(tr, n);
      NextPreserves(Run(pre), e);
      forall x | Known(Run(tr), x) ensures MintedIn(tr, x) {
        NextKnows(Run(pre), e, x);
        if Known(Run(pre), x) {
          var i, k: nat :| 0 <= i < |pre| && pre[i].mint(k) == x;
          assert tr[i].mint(k) == x;
        } else {
          var k: nat :| e.mint(k) == x;
          assert tr[n].mint(k) == x;
        }
      }
    }
  }

  lemma FreshNext(tr: seq<Call>, i: nat)
    requires FreshTrace(tr) && i < |tr|
    requires forall x :: Known(Run(tr[..i]), x) ==> MintedIn(tr[..i], x)
    ensures FreshFor(Run(tr[..i]), tr[i].mint)
  {
    forall k: nat ensures !Known(Run(tr[..i]), tr[i].mint(k)) {
    }
  }

  /** At every point of a run the state is well formed and the next call draws identifiers new to it. */
  lemma At(tr: seq<Call>, i: nat)
    requires FreshTrace(tr) && i < |tr|
    ensures Inv(Run(tr[..i])) && FreshFor(Run(tr[..i]), tr[i].mint)
    ensures Run(tr[..i + 1]) == Next(Run(tr[..i]), tr[i])
  {
    FreshPrefix(tr, i);
    Reachable(tr[..i]);
    FreshNext(tr, i);
    RunStep(tr, i);
  }

  ghost predicate OccursOnce(ms: seq<Message>, m: Id) {
    exists i :: 0 <= i < |ms| && ms[i].id == m && forall j :: 0 <= j < |ms| && j != i ==> ms[j].id != m
  }

  /** In every reachable state the index is an exact inverse: it sends m to c just when c is live,
      holds m at exactly one position, and no other conversation holds m. */
  lemma IndexIsExactInverse(tr: seq<Call>, m: Id, c: Id)
    requires FreshTrace(tr)
    ensures var s := Run(tr);
      (m in s.index && s.index[m] == c) <==>
      (c in s.convs && OccursOnce(MessagesOf(s, c), m)
       && forall d :: d in s.convs && d != c ==> !Occurs(MessagesOf(s, d), m))
  {
    Reachable(tr);
    var s := Run(tr);
    if m in s.index && s.index[m] == c {
      var i :| 0 <= i < |s.msgs[c]| && s.msgs[c][i].id == m;
      assert DistinctIds(s.msgs[c]);
    }
  }

  /** The defensive exits of BranchFromMessage and UpsertFeedback, an index entry without its conversation
      or without its message, are never taken. */
  lemma FallbackExitsAreDead(tr: seq<Call>, m: Id)
    requires FreshTrace(tr)
    ensures var s := Run(tr);
      m in s.index ==> s.index[m] in s.convs && Position(MessagesOf(s, s.index[m]), m) >= 0
  {
    Reachable(tr);
  }
}
