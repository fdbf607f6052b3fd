/** What a whole execution of concurrent calls of the Postgres store amounts to. */
module ConcurrentHistory {
  import opened StoreTypes
  import opened Tables
  import opened RelationalSpec
  import opened Interleaving
  import opened InterleavingSafety
  import opened Linearization
  import opened Explanations

  /** An execution in the order of its marked steps: which call each of them is of, the committed tables before the
      first and after each of them, what each call answered at it, and which of the tables were current at each
      call's first statement. The last two fields have for every client so far which tables were current at its
      first statement, but for a rename that has updated its row those the update left, and how many there were at
      its last one. */
  datatype History = History(
    order: seq<nat>,
    ds: seq<Database>,
    answers: seq<Option<Reply>>,
    starts: seq<nat>,
    since: seq<nat>,
    until: seq<nat>)

  function Grown(h: History, m: Machine, i: nat, m': Machine): History
    requires |h.ds| > 0 && i < |m.pcs| && i < |m'.pcs| && i < |h.since| == |h.until|
  {
    var begins, ds := m.pcs[i].Ready?, Extended(h.ds, m, i, m');
    var since := if begins then h.since[i := |ds| - 1] else h.since;
    var until := if Over(m.pcs[i]) then h.until else h.until[i := |ds|];
    if Marks(m, i, m') then
      History(h.order + [i], ds, h.answers + [AnswerOf(m'.pcs[i])], h.starts + [if begins then |h.ds| - 1 else h.since[i]], since, until)
    else
      History(h.order, ds, h.answers, h.starts, since, until)
  }

  function Start(n: nat): History {
    History([], [NoRows], [], [], seq(n, _ => 0), seq(n, _ => 1))
  }

  ghost function HistoryOf(reqs: seq<Call>, ms: seq<Machine>, who: seq<nat>): (h: History)
    requires |ms| == |who| + 1
    requires forall t :: 0 <= t < |ms| ==> |ms[t].pcs| == |reqs|
    requires forall t :: 0 <= t < |who| ==> who[t] < |reqs|
    ensures |h.ds| > 0 && |h.since| == |h.until| == |reqs|
  {
    if who == [] then Start(|reqs|)
    else
      var n := |who| - 1;
      Grown(HistoryOf(reqs, ms[..n + 1], who[..n]), ms[n], who[n], ms[n + 1])
  }

  /** Each call in the order is explained by the tables committed before it. */
  ghost predicate Explained(reqs: seq<Call>, h: History) {
    && |h.ds| == |h.order| + 1 && |h.answers| == |h.starts| == |h.order|
    && h.ds[0] == NoRows
    && forall k :: 0 <= k < |h.order| ==>
         h.order[k] < |reqs| && h.starts[k] <= k
         && Explains(h.ds[..k + 1], h.starts[k], reqs[h.order[k]], h.ds[k + 1], h.answers[k])
  }

  ghost predicate AllPast(reqs: seq<Call>, h: History, m: Machine) {
    && |m.pcs| == |h.since| == |h.until| == |reqs|
    && forall i :: 0 <= i < |reqs| ==>
         h.since[i] < h.until[i] <= |h.ds| && Past(h.ds, h.since[i], h.until[i], reqs[i], m.pcs[i])
  }

  /** The history ends at the machine's tables, explains its calls, and accounts for what each client has read. */
  ghost predicate Tells(reqs: seq<Call>, h: History, m: Machine) {
    Explained(reqs, h) && AllPast(reqs, h, m) && Lasting(h.ds, m)
  }

  // --- One more event

  lemma InitTells(reqs: seq<Call>, m: Machine)
    requires Init(reqs, m)
    ensures Tells(reqs, Start(|reqs|), m)
  {
    assert Known(NoRows, m);
  }

  lemma StepPast(reqs: seq<Call>, h: History, m: Machine, i: nat, m': Machine)
    requires Inv(reqs, m) && Step(reqs, m, i, m') && AllPast(reqs, h, m) && |h.ds| > 0 && h.ds[|h.ds| - 1] == m.db
    ensures |m'.pcs| == |m.pcs| && AllPast(reqs, Grown(h, m, i, m'), m')
  {
    hide Inv, Begins, Continues, Past, Marks, AnswerOf;
    StepShape(reqs, m, i, m');
    var h' := Grown(h, m, i, m');
    forall j | 0 <= j < |reqs|
      ensures h'.since[j] < h'.until[j] <= |h'.ds| && Past(h'.ds, h'.since[j], h'.until[j], reqs[j], m'.pcs[j])
    {
      assert Past(h.ds, h.since[j], h.until[j], reqs[j], m.pcs[j]);
      if j == i {
        PastSteps(reqs, m, i, m', h.ds, h.since[i], h.until[i]);
      } else {
        PastGrows(h.ds, h.since[j], h.until[j], m'.db, reqs[j], m'.pcs[j]);
      }
    }
  }

  lemma ExplainOneMore(reqs: seq<Call>, h: History, m: Machine, i: nat, m': Machine)
    requires Explained(reqs, h) && i < |reqs| == |h.since| == |h.until| == |m.pcs| == |m'.pcs| && Marks(m, i, m')
    requires var start := if m.pcs[i].Ready? then |h.ds| - 1 else h.since[i];
      start < |h.ds| && Explains(h.ds, start, reqs[i], m'.db, AnswerOf(m'.pcs[i]))
    ensures Explained(reqs, Grown(h, m, i, m'))
  {
    hide Explains, Marks;
    var h' := Grown(h, m, i, m');
    forall k | 0 <= k < |h'.order|
      ensures h'.order[k] < |reqs| && h'.starts[k] <= k
      ensures Explains(h'.ds[..k + 1], h'.starts[k], reqs[h'.order[k]], h'.ds[k + 1], h'.answers[k])
    {
      if k < |h.order| {
        assert h'.ds[..k + 1] == h.ds[..k + 1];
        assert Explains(h.ds[..k + 1], h.starts[k], reqs[h.order[k]], h.ds[k + 1], h.answers[k]);
      } else {
        assert h'.ds[..k + 1] == h.ds;
      }
    }
  }

  lemma ReadyOwesNothing(ds: seq<Database>, e: Call)
    requires |ds| > 0
    ensures Past(ds, |ds| - 1, |ds|, e, Ready)
  {
  }

  lemma LastTable(ds: seq<Database>, m: Machine)
    requires Lasting(ds, m)
    ensures |ds| > 0 && ds[|ds| - 1] == m.db
  {
  }

  lemma HappensTo(reqs: seq<Call>, m: Machine, i: nat, m': Machine)
    requires Happens(reqs, m, i, m')
    ensures i < |reqs| == |m.pcs| == |m'.pcs|
    ensures m'.pcs == m.pcs[i := m'.pcs[i]] && !m'.pcs[i].Ready?
  {
    hide Begins, Continues;
    if Step(reqs, m, i, m') {
      StepShape(reqs, m, i, m');
    }
  }

  lemma MarkExplained(reqs: seq<Call>, h: History, m: Machine, i: nat, m': Machine)
    requires Inv(reqs, m) && Step(reqs, m, i, m') && Tells(reqs, h, m) && Marks(m, i, m') && |m'.pcs| == |m.pcs|
    ensures Explained(reqs, Grown(h, m, i, m'))
  {
    hide Inv, Step, Past, Marks, Explains, Explained, Lasting, Grown;
    LastTable(h.ds, m);
    StepTo(reqs, m, i, m');
    assert Past(h.ds, h.since[i], h.until[i], reqs[i], m.pcs[i]);
    if m.pcs[i].Ready? {
      ReadyOwesNothing(h.ds, reqs[i]);
      MarkExplains(reqs, m, i, m', h.ds, |h.ds| - 1, |h.ds|);
    } else {
      MarkExplains(reqs, m, i, m', h.ds, h.since[i], h.until[i]);
    }
    ExplainOneMore(reqs, h, m, i, m');
  }

  lemma StepTo(reqs: seq<Call>, m: Machine, i: nat, m': Machine)
    requires Step(reqs, m, i, m')
    ensures i < |reqs| == |m.pcs| && !Over(m.pcs[i])
  {
  }

  lemma StepTells(reqs: seq<Call>, h: History, m: Machine, i: nat, m': Machine)
    requires FreshTrace(reqs) && Inv(reqs, m) && Inv(reqs, m') && Step(reqs, m, i, m') && Tells(reqs, h, m)
    ensures |m'.pcs| == |m.pcs| && Tells(reqs, Grown(h, m, i, m'), m')
  {
    hide FreshTrace, Inv, Step, Marks, Explained, Lasting, AllPast, AnswerOf;
    LastTable(h.ds, m);
    AllPastSizes(reqs, h, m);
    StepTo(reqs, m, i, m');
    StepPast(reqs, h, m, i, m');
    LastingSteps(reqs, m, i, m', h.ds);
    if Marks(m, i, m') {
      MarkExplained(reqs, h, m, i, m');
    } else {
      StepUnmarked(reqs, m, i, m');
      SameExplained(reqs, h, Grown(h, m, i, m'));
    }
  }

  lemma AllPastSizes(reqs: seq<Call>, h: History, m: Machine)
    requires AllPast(reqs, h, m)
    ensures |m.pcs| == |h.since| == |h.until| == |reqs|
  {
  }

  lemma SameExplained(reqs: seq<Call>, h: History, h': History)
    requires Explained(reqs, h) && h' == h.(since := h'.since, until := h'.until)
    ensures Explained(reqs, h')
  {
    hide Explains;
    forall k | 0 <= k < |h.order|
      ensures h'.order[k] < |reqs| && h'.starts[k] <= k
      ensures Explains(h'.ds[..k + 1], h'.starts[k], reqs[h'.order[k]], h'.ds[k + 1], h'.answers[k])
    {
      assert Explains(h.ds[..k + 1], h.starts[k], reqs[h.order[k]], h.ds[k + 1], h.answers[k]);
    }
  }

  lemma LossTells(reqs: seq<Call>, h: History, m: Machine, i: nat, m': Machine)
    requires |reqs| == |m.pcs| && Loses(m, i, m') && Tells(reqs, h, m)
    ensures |m'.pcs| == |m.pcs| && Tells(reqs, Grown(h, m, i, m'), m')
  {
    hide Explains, Kept, Consistent, GetStep;
    var h' := Grown(h, m, i, m');
    assert h' == h;
  }

  /** Every event, the loss of a reply included, extends the history. */
  lemma HappeningTells(reqs: seq<Call>, h: History, m: Machine, i: nat, m': Machine)
    requires FreshTrace(reqs) && Inv(reqs, m) && Inv(reqs, m') && Happens(reqs, m, i, m') && Tells(reqs, h, m)
    ensures i < |reqs| == |m'.pcs| && Tells(reqs, Grown(h, m, i, m'), m')
  {
    hide FreshTrace, Inv, Step, Tells, Loses;
    HappensTo(reqs, m, i, m');
    if Step(reqs, m, i, m') {
      StepTells(reqs, h, m, i, m');
    } else {
      LossTells(reqs, h, m, i, m');
    }
  }

  // --- Whole executions

  lemma ExecutionPrefix(reqs: seq<Call>, ms: seq<Machine>, who: seq<nat>, n: nat)
    requires Execution(reqs, ms, who) && n <= |who|
    ensures Execution(reqs, ms[..n + 1], who[..n])
  {
    hide Happens, Init;
    forall t | 0 <= t < n ensures Happens(reqs, ms[..n + 1][t], who[..n][t], ms[..n + 1][t + 1]) {
      assert Happens(reqs, ms[t], who[t], ms[t + 1]);
    }
  }

  lemma ExtendExecution(reqs: seq<Call>, ms: seq<Machine>, who: seq<nat>, i: nat, m: Machine)
    requires Execution(reqs, ms, who) && Happens(reqs, ms[|who|], i, m)
    ensures Execution(reqs, ms + [m], who + [i])
  {
    hide Happens;
    forall t | 0 <= t < |who| + 1 ensures Happens(reqs, (ms + [m])[t], (who + [i])[t], (ms + [m])[t + 1]) {
      if t < |who| {
        assert Happens(reqs, ms[t], who[t], ms[t + 1]);
      }
    }
  }

  lemma SizesStay(reqs: seq<Call>, ms: seq<Machine>, who: seq<nat>)
    requires Execution(reqs, ms, who)
    ensures |ms| == |who| + 1
    ensures forall t :: 0 <= t < |ms| ==> |ms[t].pcs| == |reqs|
    ensures forall t :: 0 <= t < |who| ==> who[t] < |reqs|
  {
    hide Happens;
    forall t | 0 <= t < |who| ensures who[t] < |reqs| {
      HappensTo(reqs, ms[t], who[t], ms[t + 1]);
    }
    forall t | 0 <= t < |ms| ensures |ms[t].pcs| == |reqs| {
      if t > 0 {
        HappensTo(reqs, ms[t - 1], who[t - 1], ms[t]);
      }
    }
  }

  /** Every execution of any calls, however interleaved, is told by its history: in the order of their marked steps
      the calls lead from the empty tables to the final ones, each by its sequential effect or one of the three
      exceptions, within its own lifetime. */
  lemma {:induction false} EveryExecutionExplained(reqs: seq<Call>, ms: seq<Machine>, who: seq<nat>)
    requires FreshTrace(reqs) && Execution(reqs, ms, who)
    ensures forall t :: 0 <= t < |ms| ==> |ms[t].pcs| == |reqs|
    ensures forall t :: 0 <= t < |who| ==> who[t] < |reqs|
    ensures Tells(reqs, HistoryOf(reqs, ms, who), ms[|who|])
    decreases |who|
  {
    hide Happens, Inv, FreshTrace, Init, Tells, Grown;
    SizesStay(reqs, ms, who);
    if who == [] {
      InitTells(reqs, ms[0]);
    } else {
      var n := |who| - 1;
      ExecutionPrefix(reqs, ms, who, n);
      EveryExecutionExplained(reqs, ms[..n + 1], who[..n]);
      ExecutionSafe(reqs, ms, who, n);
      ExecutionSafe(reqs, ms, who, n + 1);
      assert Happens(reqs, ms[n], who[n], ms[n + 1]) && ms[..n + 1][n] == ms[n];
      HappeningTells(reqs, HistoryOf(reqs, ms[..n + 1], who[..n]), ms[n], who[n], ms[n + 1]);
    }
  }

  /** A client that has not moved is at its first statement, and no other is. */
  lemma {:induction false} ReadyIffUnmoved(reqs: seq<Call>, ms: seq<Machine>, who: seq<nat>, i: nat)
    requires Execution(reqs, ms, who) && i < |reqs|
    ensures i < |ms[|who|].pcs| && (ms[|who|].pcs[i].Ready? <==> i !in who)
    decreases |who|
  {
    hide Happens;
    if who != [] {
      var n := |who| - 1;
      ExecutionPrefix(reqs, ms, who, n);
      ReadyIffUnmoved(reqs, ms[..n + 1], who[..n], i);
      HappensTo(reqs, ms[n], who[n], ms[n + 1]);
      assert ms[..n + 1][n] == ms[n] && who == who[..n] + [who[n]];
    }
  }

  lemma TellsLast(reqs: seq<Call>, h: History, m: Machine)
    requires Tells(reqs, h, m)
    ensures |h.ds| > 0 && h.ds[|h.ds| - 1] == m.db
  {
  }

  lemma LastGrown(reqs: seq<Call>, ms: seq<Machine>, who: seq<nat>)
    requires |ms| == |who| + 1 > 1
    requires forall t :: 0 <= t < |ms| ==> |ms[t].pcs| == |reqs|
    requires forall t :: 0 <= t < |who| ==> who[t] < |reqs|
    ensures var n := |who| - 1;
      HistoryOf(reqs, ms, who) == Grown(HistoryOf(reqs, ms[..n + 1], who[..n]), ms[n], who[n], ms[n + 1])
  {
  }

  /** A client's first step sets what `since` has of it and every step what `until` has, and nothing else does. */
  lemma SinceGrown(h: History, m: Machine, i: nat, m': Machine, j: nat)
    requires |h.ds| > 0 && i < |m.pcs| == |m'.pcs| == |h.since| == |h.until| && j < |h.since|
    ensures var h' := Grown(h, m, i, m');
      && h.ds <= h'.ds && |h'.since| == |h'.until| == |h.since|
      && h'.until[j] == (if j == i && !Over(m.pcs[i]) then |h'.ds| else h.until[j])
      && h'.since[j] == if j == i && m.pcs[i].Ready? then |h'.ds| - 1 else h.since[j]
  {
  }

  /** The history of an execution and of all but its last move. */
  lemma LastMove(reqs: seq<Call>, ms: seq<Machine>, who: seq<nat>, j: nat)
    requires FreshTrace(reqs) && Execution(reqs, ms, who) && who != [] && j < |reqs|
    ensures forall u :: 0 <= u < |ms| ==> |ms[u].pcs| == |reqs|
    ensures forall u :: 0 <= u < |who| ==> who[u] < |reqs|
    ensures var n := |who| - 1; var h, h' := HistoryOf(reqs, ms[..n + 1], who[..n]), HistoryOf(reqs, ms, who);
      && Execution(reqs, ms[..n + 1], who[..n])
      && h.ds <= h'.ds
      && h'.since[j] == (if j == who[n] && ms[n].pcs[j].Ready? then |h'.ds| - 1 else h.since[j])
      && h'.until[j] == (if j == who[n] && !Over(ms[n].pcs[j]) then |h'.ds| else h.until[j])
  {
    hide Execution, FreshTrace, Grown, HistoryOf, Over;
    SizesStay(reqs, ms, who);
    var n := |who| - 1;
    ExecutionPrefix(reqs, ms, who, n);
    LastGrown(reqs, ms, who);
    SinceGrown(HistoryOf(reqs, ms[..n + 1], who[..n]), ms[n], who[n], ms[n + 1], j);
  }

  lemma LastTables(reqs: seq<Call>, ms: seq<Machine>, who: seq<nat>)
    requires FreshTrace(reqs) && Execution(reqs, ms, who)
    ensures |ms| == |who| + 1
    ensures forall u :: 0 <= u < |ms| ==> |ms[u].pcs| == |reqs|
    ensures forall u :: 0 <= u < |who| ==> who[u] < |reqs|
    ensures var h := HistoryOf(reqs, ms, who); h.ds[|h.ds| - 1] == ms[|who|].db
  {
    hide Execution, FreshTrace, Tells, HistoryOf;
    SizesStay(reqs, ms, who);
    EveryExecutionExplained(reqs, ms, who);
    TellsLast(reqs, HistoryOf(reqs, ms, who), ms[|who|]);
  }

  /** What `since` records: the committed tables right after a client's first step, which are those it read
      or, for a rename, those its update left. */
  lemma {:induction false} SinceIsFirstStep(reqs: seq<Call>, ms: seq<Machine>, who: seq<nat>, t: nat)
    requires FreshTrace(reqs) && Execution(reqs, ms, who) && t < |who| && who[t] !in who[..t]
    ensures forall u :: 0 <= u < |ms| ==> |ms[u].pcs| == |reqs|
    ensures forall u :: 0 <= u < |who| ==> who[u] < |reqs|
    ensures var h := HistoryOf(reqs, ms, who); var since := h.since[who[t]];
      && since + 1 == |HistoryOf(reqs, ms[..t + 2], who[..t + 1]).ds|
      && since < |h.ds| && h.ds[since] == ms[t + 1].db
    decreases |who|
  {
    hide Happens, FreshTrace, Init, HistoryOf;
    SizesStay(reqs, ms, who);
    var n, i := |who| - 1, who[t];
    LastMove(reqs, ms, who, i);
    LastTables(reqs, ms, who);
    ReadyIffUnmoved(reqs, ms[..n + 1], who[..n], i);
    assert ms[..n + 1][n] == ms[n];
    if t == n {
      assert ms[..t + 2] == ms && who[..t + 1] == who;
    } else {
      SinceIsFirstStep(reqs, ms[..n + 1], who[..n], t);
      assert who[..n][t] == i && i in who[..n];
      assert ms[..n + 1][..t + 2] == ms[..t + 2] && who[..n][..t + 1] == who[..t + 1];
    }
  }

  /** What `until` records: how many tables there were right after the client's last step, the loss of its reply
      apart. */
  lemma {:induction false} UntilIsLastStep(reqs: seq<Call>, ms: seq<Machine>, who: seq<nat>, t: nat)
    requires FreshTrace(reqs) && Execution(reqs, ms, who) && t < |who|
    requires who[t] < |ms[t].pcs| && !Over(ms[t].pcs[who[t]])
    requires forall u :: t < u < |who| && who[u] == who[t] ==> who[u] < |ms[u].pcs| && Over(ms[u].pcs[who[u]])
    ensures forall u :: 0 <= u < |ms| ==> |ms[u].pcs| == |reqs|
    ensures forall u :: 0 <= u < |who| ==> who[u] < |reqs|
    ensures var h := HistoryOf(reqs, ms, who); var until := h.until[who[t]];
      && until == |HistoryOf(reqs, ms[..t + 2], who[..t + 1]).ds|
      && 0 < until <= |h.ds| && h.ds[until - 1] == ms[t + 1].db
    decreases |who|
  {
    hide Happens, FreshTrace, Init, HistoryOf;
    SizesStay(reqs, ms, who);
    var n, i := |who| - 1, who[t];
    LastMove(reqs, ms, who, i);
    LastTables(reqs, ms, who);
    assert ms[..n + 1][n] == ms[n];
    if t == n {
      assert ms[..t + 2] == ms && who[..t + 1] == who;
    } else {
      UntilIsLastStep(reqs, ms[..n + 1], who[..n], t);
      assert ms[..n + 1][..t + 2] == ms[..t + 2] && who[..n][..t + 1] == who[..t + 1];
    }
  }

  // --- The clients' own replies

  /** Every answer recorded is the reply its client holds, whether or not it has arrived. */
  ghost predicate Held(h: History, m: Machine) {
    && |h.answers| == |h.order|
    && forall k :: 0 <= k < |h.order| && h.answers[k].Some? ==>
         h.order[k] < |m.pcs| && Over(m.pcs[h.order[k]]) && m.pcs[h.order[k]].reply == h.answers[k].value
  }

  /** A call that is over stays over, with its reply. */
  lemma OverForGood(reqs: seq<Call>, m: Machine, i: nat, m': Machine, j: nat)
    requires Happens(reqs, m, i, m') && j < |m.pcs| == |m'.pcs| && m'.pcs == m.pcs[i := m'.pcs[i]] && Over(m.pcs[j])
    ensures Over(m'.pcs[j]) && m'.pcs[j].reply == m.pcs[j].reply
  {
    hide Begins, Continues;
  }

  lemma HappeningHolds(reqs: seq<Call>, h: History, m: Machine, i: nat, m': Machine)
    requires Happens(reqs, m, i, m') && |h.ds| > 0 && |h.since| == |h.until| == |reqs| && Held(h, m)
    ensures i < |m.pcs| == |m'.pcs| == |reqs| && Held(Grown(h, m, i, m'), m')
  {
    hide Happens, Marks, Extended;
    HappensTo(reqs, m, i, m');
    var h' := Grown(h, m, i, m');
    forall k | 0 <= k < |h'.order| && h'.answers[k].Some?
      ensures h'.order[k] < |m'.pcs| && Over(m'.pcs[h'.order[k]]) && m'.pcs[h'.order[k]].reply == h'.answers[k].value
    {
      if k < |h.order| {
        OverForGood(reqs, m, i, m', h.order[k]);
      }
    }
  }

  /** The answers of the history are the replies the clients hold at the end. */
  lemma {:induction false} AnswersAreReplies(reqs: seq<Call>, ms: seq<Machine>, who: seq<nat>)
    requires Execution(reqs, ms, who)
    ensures forall t :: 0 <= t < |ms| ==> |ms[t].pcs| == |reqs|
    ensures forall t :: 0 <= t < |who| ==> who[t] < |reqs|
    ensures Held(HistoryOf(reqs, ms, who), ms[|who|])
    decreases |who|
  {
    hide Happens, Init, Held, Grown, HistoryOf;
    SizesStay(reqs, ms, who);
    if who == [] {
      NothingHeld(reqs, ms);
    } else {
      var n := |who| - 1;
      ExecutionPrefix(reqs, ms, who, n);
      AnswersAreReplies(reqs, ms[..n + 1], who[..n]);
      assert Happens(reqs, ms[n], who[n], ms[n + 1]) && ms[..n + 1][n] == ms[n];
      LastGrown(reqs, ms, who);
      HappeningHolds(reqs, HistoryOf(reqs, ms[..n + 1], who[..n]), ms[n], who[n], ms[n + 1]);
    }
  }

  lemma NothingHeld(reqs: seq<Call>, ms: seq<Machine>)
    requires |ms| == 1 && |ms[0].pcs| == |reqs|
    ensures Held(HistoryOf(reqs, ms, []), ms[0])
  {
  }

  // --- Calls with one linearization point

  ghost function CallsOf(reqs: seq<Call>, order: seq<nat>): (cs: seq<Call>)
    requires forall k :: 0 <= k < |order| ==> order[k] < |reqs|
    ensures |cs| == |order| && forall k :: 0 <= k < |order| ==> cs[k] == reqs[order[k]]
  {
    seq(|order|, k requires 0 <= k < |order| => reqs[order[k]])
  }

  /** The replies the clients hold, in the order; of a client that has none, a lost connection. */
  function RepliesOf(m: Machine, order: seq<nat>): (rs: seq<Reply>)
    requires forall k :: 0 <= k < |order| ==> order[k] < |m.pcs|
    ensures |rs| == |order|
    ensures forall k :: 0 <= k < |rs| && Over(m.pcs[order[k]]) ==> rs[k] == m.pcs[order[k]].reply
  {
    seq(|order|, k requires 0 <= k < |order| => if Over(m.pcs[order[k]]) then m.pcs[order[k]].reply else Failed(Internal))
  }

  lemma AtomicIsSequential(ds: seq<Database>, since: nat, e: Call, d: Database, answer: Option<Reply>)
    requires since < |ds| && Atomic(e.op) && Explains(ds, since, e, d, answer)
    ensures answer.Some? && Steps(ds[|ds| - 1], e, d, answer.value)
  {
    hide Steps;
  }

  lemma AtomicRuns(reqs: seq<Call>, h: History, m: Machine)
    requires Explained(reqs, h) && Held(h, m) && |m.pcs| == |reqs| && forall i :: 0 <= i < |reqs| ==> Atomic(reqs[i].op)
    ensures Runs(CallsOf(reqs, h.order), h.ds, RepliesOf(m, h.order))
  {
    hide Steps, Explains, Atomic;
    forall k | 0 <= k < |h.order| ensures Steps(h.ds[k], reqs[h.order[k]], h.ds[k + 1], RepliesOf(m, h.order)[k]) {
      AtomicIsSequential(h.ds[..k + 1], h.starts[k], reqs[h.order[k]], h.ds[k + 1], h.answers[k]);
    }
  }

  lemma TellsOrder(reqs: seq<Call>, h: History, m: Machine)
    requires Tells(reqs, h, m)
    ensures Explained(reqs, h) && forall k :: 0 <= k < |h.order| ==> h.order[k] < |reqs|
  {
  }

  /** Linearizability: an execution of calls with one linearization point is a sequential run of the calls that took
      effect, in the order of their last statements, with the replies the clients hold and the same final tables. */
  lemma Linearizable(reqs: seq<Call>, ms: seq<Machine>, who: seq<nat>)
    requires FreshTrace(reqs) && Execution(reqs, ms, who)
    requires forall i :: 0 <= i < |reqs| ==> Atomic(reqs[i].op)
    ensures forall t :: 0 <= t < |ms| ==> |ms[t].pcs| == |reqs|
    ensures forall t :: 0 <= t < |who| ==> who[t] < |reqs|
    ensures var h := HistoryOf(reqs, ms, who);
      && (forall k :: 0 <= k < |h.order| ==> h.order[k] < |reqs|)
      && Runs(CallsOf(reqs, h.order), h.ds, RepliesOf(ms[|who|], h.order))
      && h.ds[|h.ds| - 1] == ms[|who|].db
  {
    hide Happens, Init, FreshTrace, Tells, Explained, Runs, Atomic, HistoryOf;
    EveryExecutionExplained(reqs, ms, who);
    AnswersAreReplies(reqs, ms, who);
    var h := HistoryOf(reqs, ms, who);
    TellsLast(reqs, h, ms[|who|]);
    TellsOrder(reqs, h, ms[|who|]);
    AtomicRuns(reqs, h, ms[|who|]);
  }

  // --- Which calls are in the order

  /** A rename whose connection is lost between its update and its read. */
  predicate LostRename(e: Call, pc: Pc) {
    e.op.RenameConversation? && pc == Finished(Failed(Internal))
  }

  lemma StaysMarked(reqs: seq<Call>, m: Machine, i: nat, m': Machine)
    requires Inv(reqs, m) && Step(reqs, m, i, m') && i < |m'.pcs|
    ensures m.pcs[i].RenameUpdated? ==> Marked(m'.pcs[i]) || LostRename(reqs[i], m'.pcs[i])
    ensures Marked(m.pcs[i]) ==> m.pcs[i].RenameUpdated?
    ensures !LostRename(reqs[i], m.pcs[i])
  {
    hide Inv, Begins, Continues, RenameStep;
    PcFits(reqs, m, i);
    if m.pcs[i].RenameUpdated? && !Breaks(m, i, m') {
      RenameUpdates(reqs, m, i, m');
    }
  }

  lemma MarkedForGood(reqs: seq<Call>, m: Machine, i: nat, m': Machine)
    requires Inv(reqs, m) && Happens(reqs, m, i, m') && i < |m'.pcs|
    ensures Marked(m.pcs[i]) ==> Marked(m'.pcs[i]) || LostRename(reqs[i], m'.pcs[i])
    ensures !LostRename(reqs[i], m.pcs[i])
  {
    hide Step, Inv;
    if Step(reqs, m, i, m') {
      StaysMarked(reqs, m, i, m');
    }
  }

  /** The order names exactly the calls that updated a title or were answered, each once. */
  lemma {:induction false} OrderIsWhoEnded(reqs: seq<Call>, ms: seq<Machine>, who: seq<nat>)
    requires FreshTrace(reqs) && Execution(reqs, ms, who)
    ensures forall t :: 0 <= t < |ms| ==> |ms[t].pcs| == |reqs|
    ensures forall t :: 0 <= t < |who| ==> who[t] < |reqs|
    ensures var order := HistoryOf(reqs, ms, who).order;
      && (forall a, b :: 0 <= a < b < |order| ==> order[a] != order[b])
      && (forall i: nat :: i < |reqs| && Marked(ms[|who|].pcs[i]) ==> i in order)
      && (forall i: nat :: i in order ==> i < |reqs| && (Marked(ms[|who|].pcs[i]) || LostRename(reqs[i], ms[|who|].pcs[i])))
    decreases |who|
  {
    hide Happens, Inv, FreshTrace, Marked, LostRename, Extended, AnswerOf;
    SizesStay(reqs, ms, who);
    if who == [] {
      NothingMarked(reqs, ms[0]);
    } else {
      var n := |who| - 1;
      var m, i, m' := ms[n], who[n], ms[n + 1];
      ExecutionPrefix(reqs, ms, who, n);
      OrderIsWhoEnded(reqs, ms[..n + 1], who[..n]);
      ExecutionSafe(reqs, ms, who, n);
      HappensTo(reqs, m, i, m');
      MarkedForGood(reqs, m, i, m');
      var rest, order := HistoryOf(reqs, ms[..n + 1], who[..n]).order, HistoryOf(reqs, ms, who).order;
      assert ms[..n + 1][n] == m;
      assert order == if Marks(m, i, m') then rest + [i] else rest;
      forall j: nat | j < |reqs| && Marked(m'.pcs[j]) ensures j in order {
        assert j in rest || (j == i && Marks(m, i, m'));
      }
    }
  }

  lemma NothingMarked(reqs: seq<Call>, m: Machine)
    requires Init(reqs, m)
    ensures |m.pcs| == |reqs| && forall i :: 0 <= i < |reqs| ==> !Marked(m.pcs[i])
  {
  }

  // --- Real time

  /** The order at any moment is how the order at the end begins. */
  lemma {:induction false} OrderGrows(reqs: seq<Call>, ms: seq<Machine>, who: seq<nat>, t: nat)
    requires Execution(reqs, ms, who) && t <= |who|
    ensures forall u :: 0 <= u < |ms| ==> |ms[u].pcs| == |reqs|
    ensures forall u :: 0 <= u < |who| ==> who[u] < |reqs|
    ensures HistoryOf(reqs, ms[..t + 1], who[..t]).order <= HistoryOf(reqs, ms, who).order
    decreases |who|
  {
    hide Happens, Init, HistoryOf, Extended, Marks, AnswerOf;
    SizesStay(reqs, ms, who);
    if t == |who| {
      assert ms[..t + 1] == ms && who[..t] == who;
    } else {
      var n := |who| - 1;
      ExecutionPrefix(reqs, ms, who, n);
      OrderGrows(reqs, ms[..n + 1], who[..n], t);
      assert ms[..n + 1][..t + 1] == ms[..t + 1] && who[..n][..t] == who[..t];
      LastGrown(reqs, ms, who);
    }
  }

  /** The order respects real time: a call that had taken effect before another made its first statement comes first. */
  lemma OrderIsRealTime(reqs: seq<Call>, ms: seq<Machine>, who: seq<nat>, t: nat, a: nat, b: nat)
    requires FreshTrace(reqs) && Execution(reqs, ms, who) && t <= |who|
    requires forall u :: 0 <= u < |ms| ==> |ms[u].pcs| == |reqs|
    requires forall u :: 0 <= u < |who| ==> who[u] < |reqs|
    requires var order := HistoryOf(reqs, ms, who).order;
      && a < |order| && b < |order| && order[a] < |reqs| && order[b] < |reqs|
      && Marked(ms[t].pcs[order[a]]) && ms[t].pcs[order[b]].Ready?
    ensures a < b
  {
    hide Happens, Init, HistoryOf, FreshTrace;
    ExecutionPrefix(reqs, ms, who, t);
    OrderIsWhoEnded(reqs, ms, who);
    OrderIsWhoEnded(reqs, ms[..t + 1], who[..t]);
    OrderGrows(reqs, ms, who, t);
    assert ms[..t + 1][t] == ms[t];
    var order, early := HistoryOf(reqs, ms, who).order, HistoryOf(reqs, ms[..t + 1], who[..t]).order;
    assert order[a] in early && order[b] !in early;
    var k :| 0 <= k < |early| && early[k] == order[a];
    assert order[k] == early[k];
    assert early == order[..|early|];
  }
}
