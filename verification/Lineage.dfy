/** Where the text of a conversation comes from: its chain of ancestors and its own appends. */
module Lineage {
  import opened StoreTypes
  import opened MemorySpec
  import opened MemoryInvariants
  import opened History

  /** The position in the trace of the call that created `c`, or -1. */
  function Birth(tr: seq<Call>, c: Id): (b: int)
    ensures -1 <= b < |tr|
  {
    if tr == [] then -1
    else if Creates(Run(tr[..|tr| - 1]), tr[|tr| - 1], c) then |tr| - 1
    else Birth(tr[..|tr| - 1], c)
  }

  /** The turns appended to `c` itself, in call order. */
  function OwnAppends(tr: seq<Call>, c: Id): seq<Turn> {
    if tr == [] then []
    else
      var pre, e := tr[..|tr| - 1], tr[|tr| - 1];
      if AppendsTo(Run(pre), e, c) then OwnAppends(pre, c) + [Turn(e.op.role, e.op.content)]
      else OwnAppends(pre, c)
  }

  function UpTo<T>(s: seq<T>, n: int): seq<T> {
    if n < 0 then [] else if n < |s| then s[..n] else s
  }

  /** What `c` inherited when it was created: for a branch, its source's own history at that moment,
      cut after the named message; for a root, nothing. Nothing that happens later enters. */
  function Inherited(tr: seq<Call>, c: Id): seq<Turn>
    decreases |tr|, 0
  {
    var b := Birth(tr, c);
    if b < 0 || !tr[b].op.BranchFromMessage? then []
    else
      var s, m := Run(tr[..b]), tr[b].op.messageId;
      if m !in s.index then []
      else UpTo(Transcript(tr[..b], s.index[m]), Position(MessagesOf(s, s.index[m]), m) + 1)
  }

  /** The history of `c` read off the trace. */
  function Transcript(tr: seq<Call>, c: Id): seq<Turn>
    decreases |tr|, 1
  {
    Inherited(tr, c) + OwnAppends(tr, c)
  }

  lemma {:induction false} NoAppendsBeforeBirth(tr: seq<Call>, c: Id)
    requires FreshTrace(tr) && !MintedIn(tr, c)
    ensures OwnAppends(tr, c) == []
  {
    if tr != [] {
      var n := |tr| - 1;
      FreshPrefix(tr, n);
      Reachable(tr[..n]);
      assert !MintedIn(tr[..n], c);
      NoAppendsBeforeBirth(tr[..n], c);
      assert !Known(Run(tr[..n]), c);
    }
  }

  lemma NewbornIsUnminted(tr: seq<Call>, n: nat, c: Id)
    requires FreshTrace(tr) && n < |tr| && tr[n].mint(0) == c
    ensures !MintedIn(tr[..n], c)
  {
  }

  lemma TurnsOfPrefix(ms: seq<Message>, k: nat)
    requires k <= |ms|
    ensures Turns(ms[..k]) == Turns(ms)[..k]
  {
  }

  /** Lineage: after any run, the turns of every live conversation are the turns its ancestor had at the
      branch point, taken recursively to a root, followed by its own successful appends in order,
      whatever happened to the ancestors since, their deletion included. */
  lemma {:induction false} LineageTheorem(tr: seq<Call>, c: Id)
    requires FreshTrace(tr) && c in Run(tr).convs
    ensures Turns(MessagesOf(Run(tr), c)) == Transcript(tr, c)
    decreases |tr|
  {
    hide Next, Inv, FreshFor, FreshTrace, MintedIn;
    if tr != [] {
      var n := |tr| - 1;
      var pre, e := tr[..n], tr[n];
      FreshPrefix(tr, n);
      At(tr, n);
      assert tr[..n + 1] == tr;
      if c in Run(pre).convs {
        LineageTheorem(pre, c);
        StepShape(Run(pre), e, c);
        LaterBirth(tr, c);
      } else {
        BirthShape(Run(pre), e, c);
        NewbornIsUnminted(tr, n, c);
        NoAppendsBeforeBirth(pre, c);
        if e.op.BranchFromMessage? {
          var s, m := Run(pre), e.op.messageId;
          LineageTheorem(pre, s.index[m]);
          TurnsOfPrefix(MessagesOf(s, s.index[m]), Position(MessagesOf(s, s.index[m]), m) + 1);
        }
      }
    }
  }

  /** A call that does not create `c` leaves its inheritance as it was. */
  lemma LaterBirth(tr: seq<Call>, c: Id)
    requires tr != [] && !Creates(Run(tr[..|tr| - 1]), tr[|tr| - 1], c)
    ensures Inherited(tr, c) == Inherited(tr[..|tr| - 1], c)
  {
    var n := |tr| - 1;
    var b := Birth(tr, c);
    if b >= 0 {
      assert tr[..n][..b] == tr[..b];
    }
  }

  /** The dates in a conversation under a strict clock: the inherited messages all carry the creation time,
      and the appended ones follow strictly later, strictly increasing. */
  ghost predicate TwoPhase(c: Conversation, ms: seq<Message>, inherited: nat) {
    && inherited <= |ms|
    && (forall i :: 0 <= i < inherited ==> ms[i].createdAt == c.createdAt)
    && (forall i :: inherited <= i < |ms| ==> c.createdAt < ms[i].createdAt)
    && (forall i, j :: inherited <= i < j < |ms| ==> ms[i].createdAt < ms[j].createdAt)
  }

  /** The dates of a live conversation after a strictly clocked run. */
  ghost predicate Dated(tr: seq<Call>, c: Id)
    requires tr != [] && c in Run(tr).convs
  {
    var conv, ms, last := Run(tr).convs[c], MessagesOf(Run(tr), c), tr[|tr| - 1].now;
    && TwoPhase(conv, ms, |Inherited(tr, c)|)
    && conv.createdAt <= last
    && forall i :: 0 <= i < |ms| ==> ms[i].createdAt <= last
  }

  lemma DatedSurvivor(tr: seq<Call>, c: Id)
    requires FreshTrace(tr) && StrictClock(tr) && |tr| > 1
    requires c in Run(tr).convs && c in Run(tr[..|tr| - 1]).convs && Dated(tr[..|tr| - 1], c)
    ensures Dated(tr, c)
  {
    hide Next, Inv, FreshFor, FreshTrace, MintedIn, Succeeds, Run, Inherited;
    var n := |tr| - 1;
    At(tr, n);
    assert tr[..n + 1] == tr;
    StepShape(Run(tr[..n]), tr[n], c);
    LaterBirth(tr, c);
    assert tr[..n][n - 1].now < tr[n].now;
  }

  lemma DatedNewborn(tr: seq<Call>, c: Id)
    requires FreshTrace(tr) && tr != [] && c in Run(tr).convs && c !in Run(tr[..|tr| - 1]).convs
    ensures Dated(tr, c)
  {
    hide Next, Inv, FreshFor, FreshTrace, MintedIn, Succeeds, Run, Inherited;
    var n := |tr| - 1;
    At(tr, n);
    assert tr[..n + 1] == tr;
    BirthShape(Run(tr[..n]), tr[n], c);
    NewbornIsUnminted(tr, n, c);
    FreshPrefix(tr, n);
    NoAppendsBeforeBirth(tr[..n], c);
    LineageTheorem(tr, c);
  }

  /** Under a strict clock every live conversation is dated in two phases at every point of the run. */
  lemma {:induction false} StrictDates(tr: seq<Call>, c: Id)
    requires FreshTrace(tr) && StrictClock(tr) && c in Run(tr).convs
    ensures tr != [] && Dated(tr, c)
  {
    if c in Run(tr[..|tr| - 1]).convs {
      FreshPrefix(tr, |tr| - 1);
      StrictDates(tr[..|tr| - 1], c);
      DatedSurvivor(tr, c);
    } else {
      DatedNewborn(tr, c);
    }
  }
}
