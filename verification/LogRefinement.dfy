/** The in-memory store answers every call as its log says. */
module LogRefinement {
  import opened StoreTypes
  import opened MemorySpec
  import opened MemoryInvariants
  import EventLog

  /** The state holds what the log says. */
  ghost predicate Agrees(tr: seq<Call>, s: State) {
    RowsAgree(tr, s) && HomesAgree(tr, s) && RatingsAgree(tr, s)
  }

  ghost predicate RowsAgree(tr: seq<Call>, s: State) {
    forall c :: RowAgrees(tr, s, c)
  }

  predicate RowAgrees(tr: seq<Call>, s: State, c: Id) {
    if c in s.convs
    then EventLog.Owner(tr, c) == Some(s.convs[c].sub) && EventLog.Row(tr, c) == s.convs[c] && EventLog.Said(tr, c) == MessagesOf(s, c)
    else EventLog.Owner(tr, c) == None
  }

  ghost predicate HomesAgree(tr: seq<Call>, s: State) {
    forall m :: HomeAgrees(tr, s, m)
  }

  predicate HomeAgrees(tr: seq<Call>, s: State, m: Id) {
    EventLog.Home(tr, m) == if m in s.index then Some(s.index[m]) else None
  }

  ghost predicate RatingsAgree(tr: seq<Call>, s: State) {
    forall k :: RatingAgrees(tr, s, k)
  }

  predicate RatingAgrees(tr: seq<Call>, s: State, k: FeedbackKey) {
    EventLog.Rating(tr, k) == if k in s.fb then Some(s.fb[k]) else None
  }

  // --- Permissions

  lemma MayAgrees(tr: seq<Call>, s: State, sub: Subject, c: Id)
    requires Agrees(tr, s)
    ensures EventLog.May(tr, sub, c) <==> Owns(s, sub, c)
  {
    assert RowAgrees(tr, s, c);
  }

  lemma MaySeeAgrees(tr: seq<Call>, s: State, sub: Subject, m: Id)
    requires Agrees(tr, s)
    ensures EventLog.MaySee(tr, sub, m) <==> Visible(s, sub, m)
  {
    assert HomeAgrees(tr, s, m);
    if m in s.index {
      MayAgrees(tr, s, sub, s.index[m]);
    }
  }

  lemma VisibleIsBranchable(s: State, sub: Subject, m: Id)
    requires Inv(s)
    ensures Visible(s, sub, m) <==> Branchable(s, sub, m)
  {
    if Visible(s, sub, m) {
      assert Occurs(s.msgs[s.index[m]], m);
    }
  }

  lemma TookAgrees(tr: seq<Call>, s: State, e: Call)
    requires Agrees(tr, s) && Inv(s)
    ensures EventLog.Took(tr, e) <==> Succeeds(s, e)
  {
    hide Agrees, Inv, Branchable, EventLog.May, EventLog.MaySee;
    match e.op
    case RenameConversation(c, _) => MayAgrees(tr, s, e.sub, c);
    case DeleteConversation(c) => MayAgrees(tr, s, e.sub, c);
    case AppendMessage(c, _, _) => MayAgrees(tr, s, e.sub, c);
    case BranchFromMessage(m, _) =>
      MaySeeAgrees(tr, s, e.sub, m);
      VisibleIsBranchable(s, e.sub, m);
    case UpsertFeedback(m, _, _) => MaySeeAgrees(tr, s, e.sub, m);
    case _ =>
  }

  // --- Branches

  lemma {:induction false} UpToIsPrefix(ms: seq<Message>, m: Id)
    requires Position(ms, m) >= 0
    ensures EventLog.UpToMessage(ms, m) == ms[..Position(ms, m) + 1]
  {
    if ms[0].id != m {
      UpToIsPrefix(ms[1..], m);
    }
  }

  /** The log and the state give a branch the same messages and title. */
  lemma BranchAgrees(tr: seq<Call>, s: State, e: Call)
    requires Agrees(tr, s) && Inv(s) && e.op.BranchFromMessage? && Succeeds(s, e)
    ensures EventLog.Inherited(tr, e) == Prefix(s, e.op.messageId)
    ensures EventLog.Copied(EventLog.Inherited(tr, e), e) == Copies(Prefix(s, e.op.messageId), e.mint(0), e.now, e.mint)
    ensures BranchHead(s, e) == Conversation(e.mint(0), e.sub, EventLog.BranchTitle(tr, e), e.now, e.now)
  {
    hide Inv, EventLog.Home, EventLog.Said, EventLog.Row, EventLog.Owner;
    var m := e.op.messageId;
    assert HomeAgrees(tr, s, m);
    assert RowAgrees(tr, s, s.index[m]);
    UpToIsPrefix(MessagesOf(s, s.index[m]), m);
  }

  // --- One call

  lemma RefusedAgrees(tr: seq<Call>, s: State)
    requires tr != [] && Agrees(tr[..|tr| - 1], s) && Inv(s) && !Succeeds(s, tr[|tr| - 1])
    ensures Agrees(tr, s)
  {
    hide Inv, Succeeds;
    var pre, e := tr[..|tr| - 1], tr[|tr| - 1];
    TookAgrees(pre, s, e);
    forall c ensures RowAgrees(tr, s, c) {
      assert RowAgrees(pre, s, c);
    }
    forall m ensures HomeAgrees(tr, s, m) {
      assert HomeAgrees(pre, s, m);
    }
    forall k ensures RatingAgrees(tr, s, k) {
      assert RatingAgrees(pre, s, k);
    }
  }

  lemma RowSteps(tr: seq<Call>, s: State, c: Id)
    requires tr != [] && Agrees(tr[..|tr| - 1], s) && Inv(s) && Succeeds(s, tr[|tr| - 1])
    ensures RowAgrees(tr, Next(s, tr[|tr| - 1]), c)
  {
    hide Agrees, Inv, EventLog.Copied, Copies, Prefix, EventLog.Inherited, EventLog.BranchTitle, Branchable, EventLog.Took, Filed, Unfiled;
    var pre, e := tr[..|tr| - 1], tr[|tr| - 1];
    TookAgrees(pre, s, e);
    AgreesAt(pre, s, c);
    if e.op.BranchFromMessage? {
      BranchAgrees(pre, s, e);
    }
  }

  lemma AgreesAt(tr: seq<Call>, s: State, c: Id)
    requires Agrees(tr, s)
    ensures RowAgrees(tr, s, c) && HomeAgrees(tr, s, c) && forall sub :: RatingAgrees(tr, s, FeedbackKey(sub, c))
  {
  }

  lemma CopyIds(ms: seq<Message>, e: Call, m: Id)
    ensures m in IdsOf(Copies(ms, e.mint(0), e.now, e.mint)) <==> exists k :: 1 <= k <= |ms| && e.mint(k) == m
  {
    var cs := Copies(ms, e.mint(0), e.now, e.mint);
    if k :| 1 <= k <= |ms| && e.mint(k) == m {
      assert cs[k - 1].id == m;
    }
    if i :| 0 <= i < |cs| && cs[i].id == m {
      assert e.mint(i + 1) == m;
    }
  }

  lemma HeldIds(s: State, c: Id, m: Id)
    requires Inv(s) && c in s.convs
    ensures m in IdsOf(MessagesOf(s, c)) <==> m in s.index && s.index[m] == c
  {
    if m in s.index && s.index[m] == c {
      assert Occurs(s.msgs[c], m);
    }
  }

  lemma HomeSteps(tr: seq<Call>, s: State, m: Id)
    requires tr != [] && Agrees(tr[..|tr| - 1], s) && Inv(s) && Succeeds(s, tr[|tr| - 1])
    ensures HomeAgrees(tr, Next(s, tr[|tr| - 1]), m)
  {
    hide Agrees, Inv, EventLog.Copied, Copies, Prefix, EventLog.Inherited, EventLog.BranchTitle, IdsOf, BranchHead;
    var pre, e := tr[..|tr| - 1], tr[|tr| - 1];
    TookAgrees(pre, s, e);
    AgreesAt(pre, s, m);
    match e.op
    case BranchFromMessage(x, _) =>
      BranchAgrees(pre, s, e);
      CopyIds(Prefix(s, x), e, m);
    case DeleteConversation(c) => HeldIds(s, c, m);
    case _ =>
  }

  lemma RatingSteps(tr: seq<Call>, s: State, k: FeedbackKey)
    requires tr != [] && Agrees(tr[..|tr| - 1], s) && Inv(s) && Succeeds(s, tr[|tr| - 1])
    ensures RatingAgrees(tr, Next(s, tr[|tr| - 1]), k)
  {
    hide Agrees, Inv, Copies, Prefix, Branchable, BranchHead;
    var pre, e := tr[..|tr| - 1], tr[|tr| - 1];
    TookAgrees(pre, s, e);
    AgreesAt(pre, s, k.messageId);
    assert RatingAgrees(pre, s, FeedbackKey(k.sub, k.messageId));
  }

  lemma AgreesSteps(tr: seq<Call>, s: State)
    requires tr != [] && Agrees(tr[..|tr| - 1], s) && Inv(s)
    ensures Agrees(tr, Next(s, tr[|tr| - 1]))
  {
    hide Inv, Succeeds, Effect, RowAgrees, HomeAgrees, RatingAgrees;
    if Succeeds(s, tr[|tr| - 1]) {
      var t := Next(s, tr[|tr| - 1]);
      forall c ensures RowAgrees(tr, t, c) {
        RowSteps(tr, s, c);
      }
      forall m ensures HomeAgrees(tr, t, m) {
        HomeSteps(tr, s, m);
      }
      forall k ensures RatingAgrees(tr, t, k) {
        RatingSteps(tr, s, k);
      }
    } else {
      RefusedAgrees(tr, s);
    }
  }

  lemma NothingYet()
    ensures Agrees([], Empty)
  {
  }

  /** After every run the store holds what its log says. */
  lemma {:induction false} RunAgrees(tr: seq<Call>)
    requires FreshTrace(tr)
    ensures Agrees(tr, Run(tr))
  {
    hide Agrees, FreshTrace, Inv, Next;
    if tr == [] {
      NothingYet();
    } else {
      var n := |tr| - 1;
      FreshPrefix(tr, n);
      RunAgrees(tr[..n]);
      Reachable(tr[..n]);
      AgreesSteps(tr, Run(tr[..n]));
    }
  }

  // --- Replies

  lemma ListsAgree(tr: seq<Call>, s: State, sub: Subject, cs: seq<Conversation>)
    requires Agrees(tr, s) && Inv(s)
    ensures IsListing(s.convs, sub, cs) <==> EventLog.Lists(tr, sub, cs)
  {
    hide Agrees, EventLog.May;
    forall c ensures EventLog.May(tr, sub, c) <==> Owns(s, sub, c) {
      MayAgrees(tr, s, sub, c);
    }
    forall c ensures c in s.convs ==> EventLog.Row(tr, c) == s.convs[c] && s.convs[c].id == c {
      AgreesAt(tr, s, c);
    }
    if IsListing(s.convs, sub, cs) {
      ListingHolds(tr, s, sub, cs);
    }
    if EventLog.Lists(tr, sub, cs) {
      HoldsListing(tr, s, sub, cs);
    }
  }

  lemma ListingHolds(tr: seq<Call>, s: State, sub: Subject, cs: seq<Conversation>)
    requires forall c :: EventLog.May(tr, sub, c) <==> Owns(s, sub, c)
    requires forall c :: c in s.convs ==> EventLog.Row(tr, c) == s.convs[c] && s.convs[c].id == c
    requires IsListing(s.convs, sub, cs)
    ensures EventLog.Lists(tr, sub, cs)
  {
    hide EventLog.May, EventLog.Row;
    forall i | 0 <= i < |cs| ensures Owns(s, sub, cs[i].id) && cs[i] == s.convs[cs[i].id] {
      assert cs[i] in Owned(s.convs, sub);
    }
    forall c | Owns(s, sub, c) ensures exists i :: 0 <= i < |cs| && cs[i].id == c {
      assert s.convs[c] in Owned(s.convs, sub);
    }
  }

  lemma HoldsListing(tr: seq<Call>, s: State, sub: Subject, cs: seq<Conversation>)
    requires forall c :: EventLog.May(tr, sub, c) <==> Owns(s, sub, c)
    requires forall c :: c in s.convs ==> EventLog.Row(tr, c) == s.convs[c] && s.convs[c].id == c
    requires EventLog.Lists(tr, sub, cs)
    ensures IsListing(s.convs, sub, cs)
  {
    hide EventLog.May, EventLog.Row;
    forall x | x in Owned(s.convs, sub) ensures x in cs {
      var c :| c in s.convs && s.convs[c].sub == sub && s.convs[c] == x;
      assert Owns(s, sub, c);
      var i :| 0 <= i < |cs| && cs[i].id == c;
      assert cs[i] == x;
    }
    forall i | 0 <= i < |cs| ensures cs[i] in Owned(s.convs, sub) {
      assert Owns(s, sub, cs[i].id);
    }
  }

  lemma ReplyAgrees(tr: seq<Call>, s: State, e: Call, r: Reply)
    requires Agrees(tr, s) && Inv(s)
    ensures Allows(s, e, r) <==> EventLog.Answers(tr, e, r)
  {
    hide Agrees, Inv, EventLog.May, EventLog.MaySee, EventLog.Lists, IsListing, Branchable, EventLog.BranchTitle, BranchHead, EventLog.Rating;
    match e.op
    case CreateConversation(_) =>
    case ListConversations =>
      forall cs ensures IsListing(s.convs, e.sub, cs) <==> EventLog.Lists(tr, e.sub, cs) {
        ListsAgree(tr, s, e.sub, cs);
      }
    case GetConversation(c) =>
      MayAgrees(tr, s, e.sub, c);
      AgreesAt(tr, s, c);
    case RenameConversation(c, _) =>
      MayAgrees(tr, s, e.sub, c);
      AgreesAt(tr, s, c);
    case DeleteConversation(c) => MayAgrees(tr, s, e.sub, c);
    case AppendMessage(c, _, _) => MayAgrees(tr, s, e.sub, c);
    case ListMessages(c) =>
      MayAgrees(tr, s, e.sub, c);
      AgreesAt(tr, s, c);
    case BranchFromMessage(m, _) =>
      MaySeeAgrees(tr, s, e.sub, m);
      VisibleIsBranchable(s, e.sub, m);
      if Succeeds(s, e) {
        BranchAgrees(tr, s, e);
      }
    case UpsertFeedback(m, _, _) => MaySeeAgrees(tr, s, e.sub, m);
    case GetFeedback(m) => AgreesAt(tr, s, m);
  }

  /** Refinement: after every run, the replies the in-memory store may give to a call are exactly those its log
      answers. */
  lemma StoreReadsItsLog(tr: seq<Call>, e: Call, r: Reply)
    requires FreshTrace(tr)
    ensures Allows(Run(tr), e, r) <==> EventLog.Answers(tr, e, r)
  {
    hide Agrees, FreshTrace, Inv;
    RunAgrees(tr);
    Reachable(tr);
    ReplyAgrees(tr, Run(tr), e, r);
  }
}
