/** The store is the enforcement point: what one subject observes does not depend on the calls of any other. */
module NonInterference {
  import opened StoreTypes
  import opened MemorySpec
  import opened MemoryInvariants

  /** `p` holds exactly the rows of `s` that belong to subject `a`, and nothing else. */
  ghost predicate Part(p: State, s: State, a: Subject) {
    PartConvs(p, s, a) && PartMsgs(p, s, a) && PartIndex(p, s, a) && PartFeedback(p, s, a)
  }

  ghost predicate PartConvs(p: State, s: State, a: Subject) {
    forall c :: (c in p.convs <==> Owns(s, a, c)) && (c in p.convs ==> p.convs[c] == s.convs[c])
  }

  ghost predicate PartMsgs(p: State, s: State, a: Subject) {
    forall c :: (c in p.msgs <==> c in s.msgs && Owns(s, a, c)) && (c in p.msgs ==> p.msgs[c] == s.msgs[c])
  }

  ghost predicate PartIndex(p: State, s: State, a: Subject) {
    forall m :: (m in p.index <==> Visible(s, a, m)) && (m in p.index ==> p.index[m] == s.index[m])
  }

  ghost predicate PartFeedback(p: State, s: State, a: Subject) {
    forall k :: (k in p.fb <==> k in s.fb && k.sub == a) && (k in p.fb ==> p.fb[k] == s.fb[k])
  }

  /** The calls of one subject, in order. */
  function Purge(tr: seq<Call>, a: Subject): seq<Call> {
    if tr == [] then []
    else
      var rest := Purge(tr[..|tr| - 1], a);
      if tr[|tr| - 1].sub == a then rest + [tr[|tr| - 1]] else rest
  }

  ghost predicate IndexLive(s: State) {
    forall m :: m in s.index ==> s.index[m] in s.convs
  }

  lemma CreateOfOther(p: State, s: State, head: Conversation, a: Subject)
    requires head.id !in s.convs && head.sub != a && Part(p, s, a)
    ensures Part(p, AfterCreate(s, head), a)
  {
  }

  lemma RenameOfOther(p: State, s: State, e: Call, a: Subject)
    requires e.op.RenameConversation? && e.sub != a && Part(p, s, a)
    ensures Part(p, Next(s, e), a)
  {
  }

  lemma DeleteOfOther(p: State, s: State, e: Call, a: Subject)
    requires ConvsOk(s) && IndexOk(s) && e.op.DeleteConversation? && e.sub != a && Part(p, s, a)
    ensures Part(p, Next(s, e), a)
  {
    var c := e.op.id;
    forall m | m in s.index && s.index[m] != c ensures m !in IdsOf(MessagesOf(s, c)) {
    }
  }

  lemma AppendOfOther(p: State, s: State, e: Call, a: Subject)
    requires ConvsOk(s) && e.op.AppendMessage? && e.mint(0) !in s.index && e.sub != a && Part(p, s, a)
    ensures Part(p, Next(s, e), a)
  {
  }

  lemma BranchOfOther(p: State, s: State, head: Conversation, copies: seq<Message>, a: Subject)
    requires head.id !in s.convs && head.sub != a && Part(p, s, a)
    requires forall i :: 0 <= i < |copies| ==> copies[i].id !in s.index
    ensures Part(p, AfterBranch(s, head, copies), a)
  {
    forall x | x in IdsOf(copies) ensures x !in s.index {
    }
  }

  /** Another subject's call changes nothing the subject owns. */
  lemma LocalRespect(p: State, s: State, e: Call, a: Subject)
    requires ConvsOk(s) && IndexOk(s) && FreshFor(s, e.mint) && e.sub != a && Part(p, s, a)
    ensures Part(p, Next(s, e), a)
  {
    match e.op
    case DeleteConversation(_) => DeleteOfOther(p, s, e, a);
    case AppendMessage(_, _, _) => AppendOfOther(p, s, e, a) by { assert !Known(s, e.mint(0)); }
    case BranchFromMessage(m, _) =>
      if Succeeds(s, e) {
        assert !Known(s, e.mint(0));
        forall k: nat ensures e.mint(k) !in s.index {
          assert !Known(s, e.mint(k));
        }
        BranchOfOther(p, s, BranchHead(s, e), Copies(Prefix(s, m), e.mint(0), e.now, e.mint), a);
      }
    case CreateConversation(title) =>
      assert !Known(s, e.mint(0));
      CreateOfOther(p, s, NewConversation(e, title), a);
    case RenameConversation(_, _) => RenameOfOther(p, s, e, a);
    case _ =>
  }

  lemma OwnCreate(p: State, s: State, head: Conversation, a: Subject)
    requires head.id !in s.convs && IndexLive(s) && head.sub == a && Part(p, s, a)
    ensures Part(AfterCreate(p, head), AfterCreate(s, head), a)
  {
  }

  lemma OwnTitle(p: State, s: State, c: Id, title: string, now: Time, a: Subject)
    requires Owns(s, a, c) && Owns(p, a, c) && Part(p, s, a)
    ensures Part(AfterRename(p, c, title, now), AfterRename(s, c, title, now), a)
  {
  }

  lemma OwnRename(p: State, s: State, e: Call)
    requires e.op.RenameConversation? && Part(p, s, e.sub)
    ensures Part(Next(p, e), Next(s, e), e.sub)
  {
    hide PartMsgs, PartIndex, PartFeedback, AfterRename;
    if Succeeds(s, e) {
      OwnTitle(p, s, e.op.id, e.op.title, e.now, e.sub);
    }
  }

  lemma OwnUpsert(p: State, s: State, e: Call)
    requires e.op.UpsertFeedback? && Part(p, s, e.sub)
    ensures Part(Next(p, e), Next(s, e), e.sub)
  {
  }

  lemma OwnDelete(p: State, s: State, e: Call)
    requires ConvsOk(s) && IndexOk(s) && e.op.DeleteConversation? && Part(p, s, e.sub)
    ensures Part(Next(p, e), Next(s, e), e.sub)
  {
    var c := e.op.id;
    if Succeeds(s, e) {
      assert MessagesOf(p, c) == MessagesOf(s, c);
      forall m | m in s.index && m !in IdsOf(MessagesOf(s, c)) ensures s.index[m] != c {
      }
    }
  }

  lemma OwnMessage(p: State, s: State, m: Message, a: Subject)
    requires Owns(s, a, m.conversationId) && MessagesOf(p, m.conversationId) == MessagesOf(s, m.conversationId)
    requires Part(p, s, a) && (m.conversationId in p.msgs <==> m.conversationId in s.msgs)
    ensures Part(AfterAppend(p, m), AfterAppend(s, m), a)
  {
  }

  lemma OwnAppend(p: State, s: State, e: Call)
    requires ConvsOk(s) && e.op.AppendMessage? && Part(p, s, e.sub)
    ensures Part(Next(p, e), Next(s, e), e.sub)
  {
    hide AfterAppend, PartIndex, PartFeedback;
    if Succeeds(s, e) {
      OwnMessage(p, s, AppendedMessage(e), e.sub);
    }
  }

  lemma OwnBranch(p: State, s: State, head: Conversation, copies: seq<Message>, a: Subject)
    requires head.id !in s.convs && IndexLive(s) && head.sub == a && Part(p, s, a)
    ensures Part(AfterBranch(p, head, copies), AfterBranch(s, head, copies), a)
  {
  }

  /** The subject's own call acts on its rows just as it acts on the whole state. */
  lemma StepConsistency(p: State, s: State, e: Call)
    requires ConvsOk(s) && IndexOk(s) && FreshFor(s, e.mint) && Part(p, s, e.sub)
    ensures Part(Next(p, e), Next(s, e), e.sub)
  {
    match e.op
    case DeleteConversation(_) => OwnDelete(p, s, e);
    case AppendMessage(_, _, _) => OwnAppend(p, s, e);
    case BranchFromMessage(m, _) =>
      SameOutcome(p, s, e);
      if Succeeds(s, e) {
        assert !Known(s, e.mint(0));
        OwnBranch(p, s, BranchHead(s, e), Copies(Prefix(s, m), e.mint(0), e.now, e.mint), e.sub);
      }
    case CreateConversation(title) =>
      assert !Known(s, e.mint(0));
      OwnCreate(p, s, NewConversation(e, title), e.sub);
    case RenameConversation(_, _) => OwnRename(p, s, e);
    case UpsertFeedback(_, _, _) => OwnUpsert(p, s, e);
    case _ =>
  }

  lemma SameOutcome(p: State, s: State, e: Call)
    requires ConvsOk(s) && IndexOk(s) && Part(p, s, e.sub)
    ensures Succeeds(p, e) <==> Succeeds(s, e)
    ensures forall c :: Owns(p, e.sub, c) <==> Owns(s, e.sub, c)
    ensures forall c :: Owns(s, e.sub, c) ==> MessagesOf(p, c) == MessagesOf(s, c)
    ensures e.op.BranchFromMessage? && Succeeds(s, e) ==>
      BranchHead(p, e) == BranchHead(s, e) && Prefix(p, e.op.messageId) == Prefix(s, e.op.messageId)
  {
    assert forall c :: Owns(p, e.sub, c) <==> Owns(s, e.sub, c);
    assert forall m :: Visible(p, e.sub, m) <==> Visible(s, e.sub, m);
  }

  lemma SameReads(p: State, s: State, e: Call, r: Reply)
    requires ConvsOk(s) && Part(p, s, e.sub)
    requires e.op.GetConversation? || e.op.ListMessages? || e.op.GetFeedback?
    ensures Allows(p, e, r) <==> Allows(s, e, r)
  {
  }

  lemma SameWrites(p: State, s: State, e: Call, r: Reply)
    requires ConvsOk(s) && IndexOk(s) && Part(p, s, e.sub)
    requires Mutates(e.op)
    ensures Allows(p, e, r) <==> Allows(s, e, r)
  {
    SameOutcome(p, s, e);
  }

  /** A caller gets the same replies from the whole store as from a store holding only its own rows:
      a row of another subject is indistinguishable from a missing one. */
  lemma OutputConsistency(p: State, s: State, e: Call, r: Reply)
    requires ConvsOk(s) && IndexOk(s) && Part(p, s, e.sub)
    ensures Allows(p, e, r) <==> Allows(s, e, r)
  {
    match e.op
    case ListConversations => SameOwned(p, s, e.sub);
    case GetConversation(_) => SameReads(p, s, e, r);
    case ListMessages(_) => SameReads(p, s, e, r);
    case GetFeedback(_) => SameReads(p, s, e, r);
    case _ => SameWrites(p, s, e, r);
  }

  lemma SameOwned(p: State, s: State, a: Subject)
    requires PartConvs(p, s, a)
    ensures Owned(p.convs, a) == Owned(s.convs, a)
  {
    forall x | x in Owned(s.convs, a) ensures x in Owned(p.convs, a) {
      var c :| c in s.convs && s.convs[c].sub == a && s.convs[c] == x;
      assert Owns(s, a, c) && p.convs[c] == x;
    }
    forall x | x in Owned(p.convs, a) ensures x in Owned(s.convs, a) {
      var c :| c in p.convs && p.convs[c].sub == a && p.convs[c] == x;
      assert Owns(s, a, c);
    }
  }

  /** A subject's part of any run is the run of that subject's calls alone. */
  lemma {:induction false} RunRestricts(tr: seq<Call>, a: Subject)
    requires FreshTrace(tr)
    ensures Part(Run(Purge(tr, a)), Run(tr), a)
  {
    if tr != [] {
      var n := |tr| - 1;
      FreshPrefix(tr, n);
      RunRestricts(tr[..n], a);
      At(tr, n);
      assert tr[..n + 1] == tr;
      var rest := Purge(tr[..n], a);
      if tr[n].sub == a {
        StepConsistency(Run(rest), Run(tr[..n]), tr[n]);
        assert (rest + [tr[n]])[..|rest|] == rest;
      } else {
        LocalRespect(Run(rest), Run(tr[..n]), tr[n], a);
      }
    }
  }

  /** Where a call of the subject lands once everybody else's calls are deleted. */
  lemma {:induction false} PurgeAt(tr: seq<Call>, i: nat, a: Subject)
    requires i < |tr| && tr[i].sub == a
    ensures var k := |Purge(tr[..i], a)|;
      k < |Purge(tr, a)| && Purge(tr, a)[k] == tr[i] && Purge(tr, a)[..k] == Purge(tr[..i], a)
  {
    var n := |tr| - 1;
    if i < n {
      PurgeAt(tr[..n], i, a);
      assert tr[..n][..i] == tr[..i];
    }
  }

  /** Non-interference: delete every call of every other subject, and each remaining call of the subject
      is still made, at the matching point, and allows exactly the same replies. */
  lemma NonInterfering(tr: seq<Call>, i: nat, r: Reply)
    requires FreshTrace(tr) && i < |tr|
    ensures var a := tr[i].sub; var alone := Purge(tr, a); var k := |Purge(tr[..i], a)|;
      && k < |alone| && alone[k] == tr[i]
      && (Allows(Run(tr[..i]), tr[i], r) <==> Allows(Run(alone[..k]), alone[k], r))
  {
    var a := tr[i].sub;
    At(tr, i);
    FreshPrefix(tr, i);
    RunRestricts(tr[..i], a);
    PurgeAt(tr, i, a);
    OutputConsistency(Run(Purge(tr[..i], a)), Run(tr[..i]), tr[i], r);
  }
}
