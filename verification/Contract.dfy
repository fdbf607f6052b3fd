/** What each mutating call of the in-memory store means for the calls that follow it. */
module Contract {
  import opened StoreTypes
  import opened MemorySpec
  import opened MemoryInvariants
  import opened History

  /** The only reply the state allows. */
  ghost predicate Answers(s: State, sub: Subject, op: Op, r: Reply) {
    forall now, mint, x :: Allows(s, Call(sub, op, now, mint), x) <==> x == r
  }

  /** Nobody finds a conversation that is not there. */
  lemma NoConversation(s: State, c: Id, sub: Subject, title: string, role: string, content: string)
    requires c !in s.convs
    ensures Answers(s, sub, GetConversation(c), Failed(NotFound))
    ensures Answers(s, sub, ListMessages(c), Failed(NotFound))
    ensures Answers(s, sub, RenameConversation(c, title), Failed(NotFound))
    ensures Answers(s, sub, AppendMessage(c, role, content), Failed(NotFound))
    ensures Answers(s, sub, DeleteConversation(c), Failed(NotFound))
  {
  }

  /** Nobody branches from or rates a message that is not there. */
  lemma NoMessage(s: State, m: Id, sub: Subject, title: string, rating: string, comment: string)
    requires m !in s.index
    ensures Answers(s, sub, BranchFromMessage(m, title), Failed(if sub == "" then Forbidden else NotFound))
    ensures Answers(s, sub, UpsertFeedback(m, rating, comment), Failed(if ValidRating(rating) then NotFound else InvalidRating))
  {
  }

  lemma DeleteRemoves(s: State, e: Call, m: Id)
    requires Inv(s) && e.op.DeleteConversation? && Owns(s, e.sub, e.op.id)
    ensures e.op.id !in Next(s, e).convs && Next(s, e).fb == s.fb
    ensures Occurs(MessagesOf(s, e.op.id), m) ==> m in s.index && m !in Next(s, e).index
  {
    if Occurs(MessagesOf(s, e.op.id), m) {
      assert m in IdsOf(MessagesOf(s, e.op.id));
    }
  }

  lemma CopyIsMinted(ms: seq<Message>, dst: Id, now: Time, mint: Mint, m: Id)
    requires m in IdsOf(Copies(ms, dst, now, mint))
    ensures exists k: nat :: mint(k) == m
  {
    var copies := Copies(ms, dst, now, mint);
    var i :| 0 <= i < |copies| && copies[i].id == m;
    assert mint(i + 1) == m;
  }

  lemma NewMessageIsMinted(s: State, e: Call, m: Id)
    requires m !in s.index && m in Next(s, e).index
    ensures exists k: nat :: e.mint(k) == m
  {
    hide Copies, IdsOf, Prefix;
    match e.op
    case BranchFromMessage(x, _) => CopyIsMinted(Prefix(s, x), e.mint(0), e.now, e.mint, m);
    case AppendMessage(_, _, _) => assert e.mint(0) == m;
    case _ =>
  }

  /** A message identifier that was stored once is never stored again. */
  lemma NoMessageRebirth(tr: seq<Call>, i: nat, j: nat, m: Id)
    requires FreshTrace(tr) && i <= j < |tr|
    requires m in Run(tr[..i]).index && m in Run(tr[..j + 1]).index
    ensures m in Run(tr[..j]).index
  {
    hide Run, Next, Inv, FreshFor, FreshTrace, MintedIn;
    At(tr, j);
    FreshPrefix(tr, i);
    Reachable(tr[..i]);
    assert Known(Run(tr[..i]), m);
    if m !in Run(tr[..j]).index {
      NewMessageIsMinted(Run(tr[..j]), tr[j], m);
      MintedOnce(tr, i, j, m);
    }
  }

  lemma MintedOnce(tr: seq<Call>, i: nat, j: nat, x: Id)
    requires FreshTrace(tr) && i <= j < |tr| && MintedIn(tr[..i], x)
    ensures forall k: nat :: tr[j].mint(k) != x
  {
  }

  lemma {:induction false} StaysDeleted(tr: seq<Call>, i: nat, j: nat, m: Id)
    requires FreshTrace(tr) && i < j <= |tr| && tr[i].op.DeleteConversation? && Owns(Run(tr[..i]), tr[i].sub, tr[i].op.id)
    ensures tr[i].op.id !in Run(tr[..j]).convs
    ensures Occurs(MessagesOf(Run(tr[..i]), tr[i].op.id), m) ==> m !in Run(tr[..j]).index
    decreases j
  {
    hide Run, Next, Inv, FreshFor, FreshTrace;
    At(tr, i);
    DeleteRemoves(Run(tr[..i]), tr[i], m);
    if j > i + 1 {
      StaysDeleted(tr, i, j - 1, m);
      if tr[i].op.id in Run(tr[..j]).convs {
        NoRebirth(tr, i, j - 1, tr[i].op.id);
      }
      if m in Run(tr[..i]).index && m in Run(tr[..j]).index {
        NoMessageRebirth(tr, i, j - 1, m);
      }
    }
  }

  /** Once deleted, a conversation and every message that was in it are hidden from every call of everybody to the end
      of the run. */
  lemma DeletedForGood(tr: seq<Call>, i: nat, j: nat, m: Id, sub: Subject, title: string, role: string, content: string,
                       rating: string, comment: string)
    requires FreshTrace(tr) && i < j <= |tr| && tr[i].op.DeleteConversation? && Owns(Run(tr[..i]), tr[i].sub, tr[i].op.id)
    ensures var t := Run(tr[..j]); var c := tr[i].op.id;
      && Answers(t, sub, GetConversation(c), Failed(NotFound))
      && Answers(t, sub, ListMessages(c), Failed(NotFound))
      && Answers(t, sub, RenameConversation(c, title), Failed(NotFound))
      && Answers(t, sub, AppendMessage(c, role, content), Failed(NotFound))
      && Answers(t, sub, DeleteConversation(c), Failed(NotFound))
    ensures Occurs(MessagesOf(Run(tr[..i]), tr[i].op.id), m) ==> var t := Run(tr[..j]);
      && Answers(t, sub, BranchFromMessage(m, title), Failed(if sub == "" then Forbidden else NotFound))
      && Answers(t, sub, UpsertFeedback(m, rating, comment), Failed(if ValidRating(rating) then NotFound else InvalidRating))
  {
    hide Answers, Run, FreshTrace;
    StaysDeleted(tr, i, j, m);
    NoConversation(Run(tr[..j]), tr[i].op.id, sub, title, role, content);
    if m !in Run(tr[..j]).index {
      NoMessage(Run(tr[..j]), m, sub, title, rating, comment);
    }
  }

  lemma BranchMakesCopies(s: State, e: Call, p: nat)
    requires Inv(s) && e.op.BranchFromMessage? && e.sub != "" && Visible(s, e.sub, e.op.messageId)
    requires p < |MessagesOf(s, s.index[e.op.messageId])| && MessagesOf(s, s.index[e.op.messageId])[p].id == e.op.messageId
    ensures Succeeds(s, e) && Position(MessagesOf(s, s.index[e.op.messageId]), e.op.messageId) == p
    ensures MessagesOf(Next(s, e), e.mint(0)) == Copies(MessagesOf(s, s.index[e.op.messageId])[..p + 1], e.mint(0), e.now, e.mint)
  {
    var was := MessagesOf(s, s.index[e.op.messageId]);
    assert DistinctIds(was);
    assert Position(was, e.op.messageId) == p;
  }

  lemma CopyIsNew(s: State, e: Call, k: nat)
    requires FreshFor(s, e.mint)
    ensures !Known(s, e.mint(k)) && forall sub :: FeedbackKey(sub, e.mint(k)) !in s.fb
  {
    assert !Known(s, e.mint(k));
    forall sub ensures FeedbackKey(sub, e.mint(k)) !in s.fb {
      assert FeedbackKey(sub, e.mint(k)).messageId == e.mint(k);
    }
  }

  /** A branch: the source prefix up to and including the named message, turn by turn, under fresh pairwise distinct
      identifiers and the new conversation's, all dated now, indexed, and without feedback. */
  lemma BranchCopiesPrefix(s: State, e: Call, p: nat)
    requires Inv(s) && FreshFor(s, e.mint) && e.op.BranchFromMessage? && e.sub != ""
    requires Visible(s, e.sub, e.op.messageId)
    requires p < |MessagesOf(s, s.index[e.op.messageId])| && MessagesOf(s, s.index[e.op.messageId])[p].id == e.op.messageId
    ensures var t := Next(s, e); var src := s.index[e.op.messageId]; var dst := e.mint(0);
      var was, copies := MessagesOf(s, src), MessagesOf(t, dst);
      && dst !in s.convs && |copies| == p + 1
      && (forall i :: 0 <= i <= p ==>
            && TurnOf(copies[i]) == TurnOf(was[i])
            && copies[i].conversationId == dst && copies[i].createdAt == e.now
            && !Known(s, copies[i].id) && copies[i].id in t.index && t.index[copies[i].id] == dst
            && (forall sub :: FeedbackKey(sub, copies[i].id) !in t.fb))
      && DistinctIds(copies)
      && t.convs[dst] == Conversation(dst, e.sub, if e.op.title == "" then s.convs[src].title + " (branch)" else e.op.title, e.now, e.now)
  {
    hide ConvsOk, IndexOk, FeedbackOk, Known;
    BranchMakesCopies(s, e, p);
    CopyIsNew(s, e, 0);
    var copies := MessagesOf(Next(s, e), e.mint(0));
    forall i | 0 <= i <= p
      ensures !Known(s, copies[i].id) && copies[i].id in IdsOf(copies)
      ensures forall sub :: FeedbackKey(sub, copies[i].id) !in s.fb
    {
      CopyIsNew(s, e, i + 1);
    }
    assert e.mint(0) !in s.convs by {
      FreshIsUnknown(s, e.mint);
    }
  }

  lemma FreshIsUnknown(s: State, mint: Mint)
    requires FreshFor(s, mint)
    ensures mint(0) !in s.convs
  {
    assert !Known(s, mint(0));
  }

  predicate Targets(s: State, e: Call, c: Id) {
    match e.op
    case RenameConversation(d, _) => d == c
    case DeleteConversation(d) => d == c
    case AppendMessage(d, _, _) => d == c
    case _ => false
  }

  /** Every conversation a call does not name keeps its row and its messages. */
  lemma OthersUntouched(s: State, e: Call, c: Id)
    requires Inv(s) && FreshFor(s, e.mint)
    ensures c in s.convs && !Targets(s, e, c) ==>
      c in Next(s, e).convs && Next(s, e).convs[c] == s.convs[c] && MessagesOf(Next(s, e), c) == MessagesOf(s, c)
  {
    assert !Known(s, e.mint(0));
  }

  /** Every feedback entry a call does not write stays, and a call that fails changes nothing. */
  lemma OtherFeedbackUntouched(s: State, e: Call, k: FeedbackKey)
    requires Inv(s) && FreshFor(s, e.mint)
    ensures !(e.op.UpsertFeedback? && k == FeedbackKey(e.sub, e.op.messageId)) ==>
      (k in Next(s, e).fb <==> k in s.fb) && (k in s.fb ==> Next(s, e).fb[k] == s.fb[k])
    ensures Mutates(e.op) && Allows(s, e, Failed(Refusal(e))) ==> Next(s, e) == s
  {
  }
}
