/** How a conversation may change along a run of the in-memory store. */
module History {
  import opened StoreTypes
  import opened MemorySpec
  import opened MemoryInvariants

  /** The call brings conversation `c` into being. */
  predicate Creates(s: State, e: Call, c: Id) {
    Succeeds(s, e) && (e.op.CreateConversation? || e.op.BranchFromMessage?) && e.mint(0) == c
  }

  predicate AppendsTo(s: State, e: Call, c: Id) {
    Succeeds(s, e) && e.op.AppendMessage? && e.op.conversationId == c
  }

  /** What one call can do to a conversation that outlives it. */
  lemma StepShape(s: State, e: Call, c: Id)
    requires Inv(s) && FreshFor(s, e.mint) && c in s.convs && c in Next(s, e).convs
    ensures !Creates(s, e, c)
    ensures MessagesOf(Next(s, e), c) ==
      if AppendsTo(s, e, c) then MessagesOf(s, c) + [AppendedMessage(e)] else MessagesOf(s, c)
    ensures Next(s, e).convs[c].sub == s.convs[c].sub && Next(s, e).convs[c].createdAt == s.convs[c].createdAt
    ensures Next(s, e).convs[c].updatedAt == e.now
            || (Next(s, e).convs[c].updatedAt == s.convs[c].updatedAt && !AppendsTo(s, e, c))
  {
    assert !Known(s, e.mint(0));
  }

  /** What a conversation looks like right after the call that created it. */
  lemma BirthShape(s: State, e: Call, c: Id)
    requires Inv(s) && c !in s.convs && c in Next(s, e).convs
    ensures Creates(s, e, c) && !AppendsTo(s, e, c)
    ensures Next(s, e).convs[c].createdAt == Next(s, e).convs[c].updatedAt == e.now
    ensures forall i :: 0 <= i < |MessagesOf(Next(s, e), c)| ==> MessagesOf(Next(s, e), c)[i].createdAt == e.now
    ensures Turns(MessagesOf(Next(s, e), c)) == if e.op.BranchFromMessage? then Turns(Prefix(s, e.op.messageId)) else []
  {
  }

  /** Messages are only ever added at the end; owner and birth time are fixed. */
  ghost predicate Grows(s: State, t: State, c: Id)
    requires c in s.convs && c in t.convs
  {
    && MessagesOf(s, c) <= MessagesOf(t, c)
    && s.convs[c].sub == t.convs[c].sub
    && s.convs[c].createdAt == t.convs[c].createdAt
  }

  lemma LiveWasMinted(tr: seq<Call>, c: Id)
    requires FreshTrace(tr) && c in Run(tr).convs
    ensures MintedIn(tr, c)
  {
    Reachable(tr);
    assert Known(Run(tr), c);
  }

  /** A conversation identifier that was live once is never created again. */
  lemma NoRebirth(tr: seq<Call>, i: nat, j: nat, c: Id)
    requires FreshTrace(tr) && i <= j < |tr|
    requires c in Run(tr[..i]).convs && c in Run(tr[..j + 1]).convs
    ensures c in Run(tr[..j]).convs
  {
    hide Run, Next, Inv, FreshFor, Known, Succeeds;
    At(tr, j);
    FreshPrefix(tr, i);
    LiveWasMinted(tr[..i], c);
    var h, k: nat :| 0 <= h < i && tr[..i][h].mint(k) == c;
    assert tr[h].mint(k) == c != tr[j].mint(0);
    if c !in Run(tr[..j]).convs {
      BirthShape(Run(tr[..j]), tr[j], c);
    }
  }

  /** Append-only history: if a conversation is live at two points of a run, its earlier message sequence,
      identifiers, roles, contents and times included, is a prefix of the later one. */
  lemma {:induction false} AppendOnly(tr: seq<Call>, i: nat, j: nat, c: Id)
    requires FreshTrace(tr) && i <= j <= |tr|
    requires c in Run(tr[..i]).convs && c in Run(tr[..j]).convs
    ensures Grows(Run(tr[..i]), Run(tr[..j]), c)
    decreases j
  {
    hide Run, Next, Inv, FreshFor, FreshTrace, Succeeds;
    if i < j {
      NoRebirth(tr, i, j - 1, c);
      AppendOnly(tr, i, j - 1, c);
      At(tr, j - 1);
      StepShape(Run(tr[..j - 1]), tr[j - 1], c);
    }
  }

  /** Every message is dated between its conversation's creation and last update, in order, and not after `now`. */
  ghost predicate Coherent(c: Conversation, ms: seq<Message>, now: Time) {
    && c.createdAt <= c.updatedAt <= now
    && OldestFirst(ms)
    && (forall i :: 0 <= i < |ms| ==> c.createdAt <= ms[i].createdAt <= c.updatedAt)
  }

  /** Under a clock that never runs backwards, every live conversation is coherent at every point of the run. */
  lemma {:induction false} TimeCoherence(tr: seq<Call>, c: Id)
    requires FreshTrace(tr) && MonotoneClock(tr) && c in Run(tr).convs
    ensures tr != [] && Coherent(Run(tr).convs[c], MessagesOf(Run(tr), c), tr[|tr| - 1].now)
  {
    hide Next, Inv, FreshFor, FreshTrace, Succeeds;
    if tr != [] {
      var n := |tr| - 1;
      At(tr, n);
      assert tr[..n + 1] == tr;
      if c in Run(tr[..n]).convs {
        FreshPrefix(tr, n);
        TimeCoherence(tr[..n], c);
        StepShape(Run(tr[..n]), tr[n], c);
      } else {
        BirthShape(Run(tr[..n]), tr[n], c);
      }
    }
  }

  /** The update time of a conversation never decreases along a run. */
  lemma {:induction false} UpdateTimeMonotone(tr: seq<Call>, i: nat, j: nat, c: Id)
    requires FreshTrace(tr) && MonotoneClock(tr) && i <= j <= |tr|
    requires c in Run(tr[..i]).convs && c in Run(tr[..j]).convs
    ensures Run(tr[..i]).convs[c].updatedAt <= Run(tr[..j]).convs[c].updatedAt
    decreases j
  {
    hide Run, Next, Inv, FreshFor, FreshTrace, Succeeds, OldestFirst;
    if i < j {
      NoRebirth(tr, i, j - 1, c);
      UpdateTimeMonotone(tr, i, j - 1, c);
      At(tr, j - 1);
      FreshPrefix(tr, j - 1);
      TimeCoherence(tr[..j - 1], c);
      StepShape(Run(tr[..j - 1]), tr[j - 1], c);
    }
  }
}
