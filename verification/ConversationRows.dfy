/** The row of a conversation, read off the trace. */
module ConversationRows {
  import opened StoreTypes
  import opened MemorySpec
  import opened MemoryInvariants
  import opened History
  import opened Lineage
  import opened Recency

  predicate Renames(s: State, e: Call, c: Id) {
    Succeeds(s, e) && e.op.RenameConversation? && e.op.id == c
  }

  /** The title last given to `c`: by its last rename, or else by the call that created it, where a branch without
      a title takes its source's at that moment, which was given in turn. */
  function TitleGiven(tr: seq<Call>, c: Id): string {
    if tr == [] then ""
    else
      var pre, e := tr[..|tr| - 1], tr[|tr| - 1];
      if Renames(Run(pre), e, c) then e.op.title
      else if Creates(Run(pre), e, c) then
        match e.op {
          case CreateConversation(title) => title
          case BranchFromMessage(m, title) => DefaultTitle(title, TitleGiven(pre, Run(pre).index[m]))
        }
      else TitleGiven(pre, c)
  }

  /** What one call does to the row of a conversation that outlives it. */
  lemma RowStep(s: State, e: Call, c: Id)
    requires Inv(s) && FreshFor(s, e.mint) && c in s.convs && c in Next(s, e).convs
    ensures var was, row := s.convs[c], Next(s, e).convs[c];
      row.title == if Renames(s, e, c) then e.op.title else was.title
  {
    assert !Known(s, e.mint(0));
  }

  /** The row of a conversation right after the call that created it. */
  lemma CreatedRow(s: State, e: Call, c: Id)
    requires Inv(s) && c !in s.convs && c in Next(s, e).convs
    ensures Creates(s, e, c) && !Renames(s, e, c)
    ensures Next(s, e).convs[c].sub == e.sub
    ensures e.op.BranchFromMessage? ==> e.op.messageId in s.index && s.index[e.op.messageId] in s.convs
    ensures Next(s, e).convs[c].title == match e.op {
        case CreateConversation(title) => title
        case BranchFromMessage(m, title) => DefaultTitle(title, s.convs[s.index[m]].title)
        case _ => "" }
  {
  }

  lemma {:induction false} TitleIsLastGiven(tr: seq<Call>, c: Id)
    requires FreshTrace(tr) && c in Run(tr).convs
    ensures Run(tr).convs[c].title == TitleGiven(tr, c)
    decreases |tr|
  {
    hide Next, Inv, FreshFor, FreshTrace, Succeeds;
    if tr != [] {
      var n := |tr| - 1;
      var pre, e := tr[..n], tr[n];
      FreshPrefix(tr, n);
      At(tr, n);
      assert tr[..n + 1] == tr;
      if c in Run(pre).convs {
        TitleIsLastGiven(pre, c);
        RowStep(Run(pre), e, c);
        StepShape(Run(pre), e, c);
      } else {
        CreatedRow(Run(pre), e, c);
        if e.op.BranchFromMessage? {
          TitleIsLastGiven(pre, Run(pre).index[e.op.messageId]);
        }
      }
    }
  }

  lemma {:induction false} BirthGivesOwner(tr: seq<Call>, c: Id)
    requires FreshTrace(tr) && c in Run(tr).convs
    ensures Birth(tr, c) >= 0
    ensures Run(tr).convs[c].sub == tr[Birth(tr, c)].sub && Run(tr).convs[c].createdAt == tr[Birth(tr, c)].now
    decreases |tr|
  {
    hide Next, Inv, FreshFor, FreshTrace, Succeeds;
    if tr != [] {
      var n := |tr| - 1;
      FreshPrefix(tr, n);
      At(tr, n);
      assert tr[..n + 1] == tr;
      if c in Run(tr[..n]).convs {
        BirthGivesOwner(tr[..n], c);
        StepShape(Run(tr[..n]), tr[n], c);
      } else {
        CreatedRow(Run(tr[..n]), tr[n], c);
        BirthShape(Run(tr[..n]), tr[n], c);
      }
    }
  }

  /** After any run the row of a live conversation is: the creator of the call that made it, its time, the title last
      given, and the time of the last call that touched it; and that is what its owner, and nobody else, is answered. */
  lemma RowFromTrace(tr: seq<Call>, c: Id, e: Call, r: Reply)
    requires FreshTrace(tr) && c in Run(tr).convs && e.op == GetConversation(c)
    ensures Birth(tr, c) >= 0 && LastTouch(tr, c) >= 0
    ensures Run(tr).convs[c] ==
      Conversation(c, tr[Birth(tr, c)].sub, TitleGiven(tr, c), tr[Birth(tr, c)].now, tr[LastTouch(tr, c)].now)
    ensures Allows(Run(tr), e, r) <==>
      r == if e.sub == tr[Birth(tr, c)].sub then OneConversation(Run(tr).convs[c]) else Failed(NotFound)
  {
    hide Run, Next, FreshTrace;
    Reachable(tr);
    TitleIsLastGiven(tr, c);
    BirthGivesOwner(tr, c);
    UpdatedAtIsLastTouch(tr, c);
  }
}
