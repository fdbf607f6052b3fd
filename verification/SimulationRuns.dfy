/** The agreement of the two stores over whole runs, and exactly when a branch breaks it. */
module SimulationRuns {
  import opened StoreTypes
  import opened Permutations
  import opened MemorySpec
  import opened MemoryInvariants
  import opened History
  import opened Lineage
  import opened Tables
  import opened RelationalSpec
  import opened TimestampCut
  import opened Simulation

  lemma RunInOrder(tr: seq<Call>)
    requires FreshTrace(tr) && MonotoneClock(tr)
    ensures InOrder(Run(tr))
  {
    forall c | c in Run(tr).convs ensures OldestFirst(MessagesOf(Run(tr), c)) {
      TimeCoherence(tr, c);
    }
  }

  /** Simulation: along every sequential relational run under a clock that never runs backwards, with branches
      that cut after the last message of their time, the tables stay related to the in-memory state of the same
      calls, and every reply matches. */
  lemma {:induction false} RunSimulates(tr: seq<Call>, ds: seq<Database>, rs: seq<Reply>, i: nat)
    requires FreshTrace(tr) && MonotoneClock(tr) && Runs(tr, ds, rs) && i <= |tr|
    requires forall k :: 0 <= k < |tr| ==> CutsCleanly(Run(tr[..k]), tr[k])
    ensures Related(Run(tr[..i]), ds[i])
    ensures i < |tr| ==> Matching(Run(tr[..i]), tr[i], rs[i])
  {
    hide FreshTrace, Steps, CutsCleanly, Related, Matching, Next, Inv, Consistent, InOrder, FreshFor, Unused;
    if i == 0 {
      EmptyRelated();
    } else {
      RunSimulates(tr, ds, rs, i - 1);
      StepAt(tr, ds, rs, i - 1);
    }
    if i < |tr| {
      StepAt(tr, ds, rs, i);
    }
  }

  lemma EmptyRelated()
    ensures Related(Empty, NoRows)
  {
  }

  lemma PrefixMonotone(tr: seq<Call>, i: nat)
    requires MonotoneClock(tr) && i <= |tr|
    ensures MonotoneClock(tr[..i])
  {
  }

  lemma StepAt(tr: seq<Call>, ds: seq<Database>, rs: seq<Reply>, i: nat)
    requires FreshTrace(tr) && MonotoneClock(tr) && Runs(tr, ds, rs) && i < |tr|
    requires CutsCleanly(Run(tr[..i]), tr[i]) && Related(Run(tr[..i]), ds[i])
    ensures Related(Run(tr[..i + 1]), ds[i + 1]) && Matching(Run(tr[..i]), tr[i], rs[i])
  {
    hide FreshTrace, MonotoneClock, Steps, CutsCleanly, Related, Matching, Run, Next, Inv, Consistent, InOrder, FreshFor, Unused;
    At(tr, i);
    RunsConsistent(tr, ds, rs, i);
    FreshPrefix(tr, i);
    PrefixMonotone(tr, i);
    RunInOrder(tr[..i]);
    StepSimulates(Run(tr[..i]), ds[i], tr[i], ds[i + 1], rs[i]);
  }

  /** The copy of an uncleanly cut branch has one row too many for the in-memory index. */
  lemma DirtyCutDiverges(s: State, d: Database, e: Call, d': Database, r: Reply)
    requires Inv(s) && InOrder(s) && FreshFor(s, e.mint) && Succeeds(s, e) && e.op.BranchFromMessage?
    requires Consistent(d) && Unused(d, e.mint) && Related(s, d) && Steps(d, e, d', r)
    requires !CutsCleanly(s, e)
    ensures !Related(Next(s, e), d')
  {
    hide ConvsOk, IndexOk, FeedbackOk, Consistent, Related, Steps, FreshFor, CopyQuery, CopiesAdded, OldestFirst, JoinsSource;
    BranchMatches(s, d, e, d', r);
    var copied := BranchDone(d, e, d', r);
    CopySize(s, d, e, copied);
    var ms := MessagesOf(s, s.index[e.op.messageId]);
    var p := Position(ms, e.op.messageId);
    CutIsPositionalIffClean(ms, p);
    LastCopy(d', e, copied, d.(conversations := d.conversations[e.mint(0) := BranchRow(d, e)]), BranchRow(d, e), p + 2);
    NotCopied(s, e, p);
    if Related(Next(s, e), d') {
      RelatedIds(Next(s, e), d', e.mint(p + 2));
    }
  }

  lemma LastCopy(d': Database, e: Call, copied: seq<Message>, d: Database, head: Conversation, k: nat)
    requires CopiesAdded(d, d', head, copied, e.mint, |copied|) && 1 <= k <= |copied|
    ensures e.mint(k) in d'.messages
  {
  }

  lemma RelatedIds(s: State, d: Database, m: Id)
    requires Related(s, d)
    ensures m in s.index <==> m in d.messages
  {
  }

  lemma NotCopied(s: State, e: Call, p: nat)
    requires FreshFor(s, e.mint) && Succeeds(s, e) && e.op.BranchFromMessage?
    requires p + 1 == |Prefix(s, e.op.messageId)|
    ensures e.mint(p + 2) !in Next(s, e).index
  {
    assert !Known(s, e.mint(p + 2));
  }

  /** A branch that takes effect keeps the stores related if and only if the message after the cut is strictly
      later: on a tie the relational branch copies the whole block and the in-memory branch stops inside it. */
  lemma BranchAgreesIffClean(s: State, d: Database, e: Call, d': Database, r: Reply)
    requires Inv(s) && InOrder(s) && FreshFor(s, e.mint) && Succeeds(s, e) && e.op.BranchFromMessage?
    requires Consistent(d) && Unused(d, e.mint) && Related(s, d) && Steps(d, e, d', r)
    ensures Related(Next(s, e), d') <==> CutsCleanly(s, e)
  {
    hide Inv, InOrder, FreshFor, Succeeds, Consistent, Unused, Related, Steps, Next, CutsCleanly, Matching;
    if CutsCleanly(s, e) {
      StepSimulates(s, d, e, d', r);
    } else {
      DirtyCutDiverges(s, d, e, d', r);
    }
  }

  /** A branch that cuts uncleanly takes effect, and the run is no longer related. */
  lemma DirtyStepDiverges(tr: seq<Call>, ds: seq<Database>, rs: seq<Reply>, k: nat)
    requires FreshTrace(tr) && MonotoneClock(tr) && Runs(tr, ds, rs) && k < |tr|
    requires Related(Run(tr[..k]), ds[k]) && !CutsCleanly(Run(tr[..k]), tr[k])
    ensures !Related(Run(tr[..k + 1]), ds[k + 1])
  {
    hide FreshTrace, MonotoneClock, Steps, Related, Run, Next, Consistent, InOrder, FreshFor, Unused, IndexOk, FeedbackOk, CleanCut;
    At(tr, k);
    RunsConsistent(tr, ds, rs, k);
    FreshPrefix(tr, k);
    PrefixMonotone(tr, k);
    RunInOrder(tr[..k]);
    DirtyCutDiverges(Run(tr[..k]), ds[k], tr[k], ds[k + 1], rs[k]);
  }

  /** The two stores stay related along a whole run under a clock that never runs backwards if and only if every
      branch in it that takes effect cuts after the last message of its time. */
  lemma RunAgreesIffClean(tr: seq<Call>, ds: seq<Database>, rs: seq<Reply>)
    requires FreshTrace(tr) && MonotoneClock(tr) && Runs(tr, ds, rs)
    ensures (forall i :: 0 <= i <= |tr| ==> Related(Run(tr[..i]), ds[i])) <==>
            (forall k :: 0 <= k < |tr| ==> CutsCleanly(Run(tr[..k]), tr[k]))
  {
    hide FreshTrace, MonotoneClock, Steps, Related, Run, CutsCleanly;
    if forall k :: 0 <= k < |tr| ==> CutsCleanly(Run(tr[..k]), tr[k]) {
      forall i | 0 <= i <= |tr| ensures Related(Run(tr[..i]), ds[i]) {
        RunSimulates(tr, ds, rs, i);
      }
    } else {
      var k :| 0 <= k < |tr| && !CutsCleanly(Run(tr[..k]), tr[k]);
      if forall i :: 0 <= i <= |tr| ==> Related(Run(tr[..i]), ds[i]) {
        DirtyStepDiverges(tr, ds, rs, k);
        assert false;
      }
    }
  }

  /** Under a strict clock a branch cuts cleanly unless it names an inherited message other than the last one
      inherited; in particular every branch of a conversation that was not itself a branch cuts cleanly. */
  lemma StrictClockCuts(tr: seq<Call>, sub: Subject, m: Id)
    requires FreshTrace(tr) && StrictClock(tr) && Branchable(Run(tr), sub, m)
    ensures var c := Run(tr).index[m]; var ms := MessagesOf(Run(tr), c); var p := Position(ms, m);
      CleanCut(ms, p) <==> |Inherited(tr, c)| <= p + 1
  {
    StrictDates(tr, Run(tr).index[m]);
  }

  ghost predicate StrictlyLater(ms: seq<Message>) {
    forall i, j :: 0 <= i < j < |ms| ==> ms[i].createdAt < ms[j].createdAt
  }

  lemma SameElement(ms: seq<Message>, out: seq<Message>, i: nat)
    requires TieShuffle(ms, out) && StrictlyLater(ms) && i < |out|
    ensures out[i] in ms
  {
    assert Stamps(out)[i] in multiset(Stamps(out));
    assert Map(Place, out)[i] in multiset(Map(Place, out));
    var j :| 0 <= j < |ms| && Stamps(ms)[j] == Stamps(out)[i];
    var k :| 0 <= k < |ms| && Map(Place, ms)[k] == Map(Place, out)[i];
    assert j == k;
  }

  lemma SameTime(ms: seq<Message>, out: seq<Message>, j: nat)
    requires TieShuffle(ms, out) && j < |ms|
    ensures exists i :: 0 <= i < |out| && out[i].createdAt == ms[j].createdAt
  {
    assert Stamps(ms)[j] in multiset(Stamps(ms));
    var i :| 0 <= i < |out| && Stamps(out)[i] == Stamps(ms)[j];
  }

  lemma ShuffleLength(ms: seq<Message>, out: seq<Message>)
    requires TieShuffle(ms, out)
    ensures |out| == |ms|
  {
    assert |multiset(Stamps(out))| == |out| && |multiset(Stamps(ms))| == |ms|;
  }

  /** Where no two messages share a time, both stores list exactly the same sequence. */
  lemma {:induction false} NoTiesNoShuffle(ms: seq<Message>, out: seq<Message>)
    requires TieShuffle(ms, out) && StrictlyLater(ms)
    ensures out == ms
  {
    ShuffleLength(ms, out);
    if ms != [] {
      var n := |ms| - 1;
      SameTime(ms, out, n);
      SameElement(ms, out, n);
      assert out[n] == ms[n];
      ShorterShuffle(ms, out);
      NoTiesNoShuffle(ms[..n], out[..n]);
      assert ms == ms[..n] + [ms[n]] && out == out[..n] + [out[n]];
    }
  }

  lemma CancelLast<T>(a: seq<T>, b: seq<T>, x: T)
    requires multiset(a + [x]) == multiset(b + [x])
    ensures multiset(a) == multiset(b)
  {
    assert multiset(a) == multiset(a + [x]) - multiset{x};
    assert multiset(b) == multiset(b + [x]) - multiset{x};
  }

  lemma ShorterShuffle(ms: seq<Message>, out: seq<Message>)
    requires TieShuffle(ms, out) && |ms| == |out| > 0 && ms[|ms| - 1] == out[|ms| - 1]
    ensures TieShuffle(ms[..|ms| - 1], out[..|ms| - 1])
  {
    hide Stamps, Map;
    var n := |ms| - 1;
    var a, b, x := ms[..n], out[..n], ms[n];
    assert ms == a + [x] && out == b + [x];
    StampsConcat(a, [x]);
    StampsConcat(b, [x]);
    MapConcat(Place, a, [x]);
    MapConcat(Place, b, [x]);
    assert Stamps([x]) == [StampOf(x)] && Map(Place, [x]) == [Place(x)];
    CancelLast(Stamps(a), Stamps(b), StampOf(x));
    CancelLast(Map(Place, a), Map(Place, b), Place(x));
  }

  /** Create a conversation, append twice, branch at the second message, then branch the branch at its first. */
  function BranchOfBranch(sub: Subject, mints: seq<Mint>): seq<Call>
    requires |mints| == 5
  {
    [Call(sub, CreateConversation("c"), 1, mints[0]),
     Call(sub, AppendMessage(mints[0](0), "user", "q"), 2, mints[1]),
     Call(sub, AppendMessage(mints[0](0), "assistant", "a"), 3, mints[2]),
     Call(sub, BranchFromMessage(mints[2](0), ""), 4, mints[3]),
     Call(sub, BranchFromMessage(mints[3](1), ""), 5, mints[4])]
  }

  lemma TwoAppends(sub: Subject, mints: seq<Mint>)
    requires |mints| == 5 && sub != "" && FreshTrace(BranchOfBranch(sub, mints))
    ensures var tr := BranchOfBranch(sub, mints); var s := Run(tr[..3]);
      var c, x, y := mints[0](0), mints[1](0), mints[2](0);
      && x != y && Owns(s, sub, c) && s.index == map[x := c, y := c]
      && s.msgs == map[c := [Message(x, c, "user", "q", 2), Message(y, c, "assistant", "a", 3)]]
  {
    hide FreshTrace;
    var tr := BranchOfBranch(sub, mints);
    var c, x, y := mints[0](0), mints[1](0), mints[2](0);
    MintsDiffer(tr, 1, 2, 0);
    RunStep(tr, 0);
    RunStep(tr, 1);
    RunStep(tr, 2);
    assert tr[..0] == [];
    assert Run(tr[..1]) == AfterCreate(Empty, Conversation(c, sub, "c", 1, 1));
    var q, a := Message(x, c, "user", "q", 2), Message(y, c, "assistant", "a", 3);
    assert Run(tr[..2]) == AfterAppend(Run(tr[..1]), q);
    assert MessagesOf(Run(tr[..1]), c) + [q] == [q];
    assert Run(tr[..2]).msgs == map[c := [q]] && Run(tr[..2]).index == map[x := c];
    assert Run(tr[..3]) == AfterAppend(Run(tr[..2]), a);
    assert [q] + [a] == [q, a];
  }

  lemma MintsDiffer(tr: seq<Call>, i: nat, j: nat, k: nat)
    requires FreshTrace(tr) && i < j < |tr|
    ensures tr[i].mint(k) != tr[j].mint(k) && tr[j].mint(k) != tr[j].mint(k + 1)
  {
  }

  lemma TwoCopies(s: State, head: Conversation, copies: seq<Message>)
    requires |copies| == 2
    ensures var t := AfterBranch(s, head, copies);
      && copies[0].id in t.index && t.index[copies[0].id] == head.id
      && t.msgs[head.id] == copies && t.convs[head.id] == head
  {
    assert copies[0].id in IdsOf(copies);
  }

  lemma TheBranch(sub: Subject, mints: seq<Mint>)
    requires |mints| == 5 && sub != "" && FreshTrace(BranchOfBranch(sub, mints))
    ensures var s := Run(BranchOfBranch(sub, mints)[..4]); var b, first := mints[3](0), mints[3](1);
      && Owns(s, sub, b) && first in s.index && s.index[first] == b
      && b in s.msgs && |s.msgs[b]| == 2 && s.msgs[b][0].id == first
      && s.msgs[b][0].createdAt == s.msgs[b][1].createdAt
  {
    hide FreshTrace, Run;
    var tr := BranchOfBranch(sub, mints);
    var c, x, y := mints[0](0), mints[1](0), mints[2](0);
    var pre := [Message(x, c, "user", "q", 2), Message(y, c, "assistant", "a", 3)];
    TwoAppends(sub, mints);
    RunStep(tr, 3);
    var s3 := Run(tr[..3]);
    assert Position(pre, y) == 1 && pre[..2] == pre;
    assert Succeeds(s3, tr[3]) && Prefix(s3, y) == pre;
    TwoCopies(s3, BranchHead(s3, tr[3]), Copies(pre, mints[3](0), 4, mints[3]));
  }

  /** The strict clock alone does not make the stores agree: the last call of this run succeeds and cuts inside
      a block of equal times. */
  lemma BranchOfBranchCutsDirty(sub: Subject, mints: seq<Mint>)
    requires |mints| == 5 && sub != "" && FreshTrace(BranchOfBranch(sub, mints))
    ensures var tr := BranchOfBranch(sub, mints);
      StrictClock(tr) && Succeeds(Run(tr[..4]), tr[4]) && !CutsCleanly(Run(tr[..4]), tr[4])
  {
    hide Run, FreshTrace;
    TheBranch(sub, mints);
  }

  /** So in no relational run of these five calls do the two stores agree to the end. */
  lemma BranchOfBranchDiverges(sub: Subject, mints: seq<Mint>, ds: seq<Database>, rs: seq<Reply>)
    requires |mints| == 5 && sub != "" && FreshTrace(BranchOfBranch(sub, mints))
    requires Runs(BranchOfBranch(sub, mints), ds, rs)
    ensures exists i :: 0 <= i <= 5 && !Related(Run(BranchOfBranch(sub, mints)[..i]), ds[i])
  {
    hide FreshTrace, Steps, Related, Run, CutsCleanly, Succeeds;
    BranchOfBranchCutsDirty(sub, mints);
    RunAgreesIffClean(BranchOfBranch(sub, mints), ds, rs);
  }
}
