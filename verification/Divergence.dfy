/** What a caller sees when a branch cuts inside a block of equal times: two listings of different length. */
module Divergence {
  import opened StoreTypes
  import opened FreshIds
  import opened Permutations
  import opened MemorySpec
  import opened MemoryInvariants
  import opened Tables
  import opened RelationalSpec
  import opened TimestampCut
  import opened Simulation
  import opened SimulationRuns

  /** The rows of a new branch as messages. */
  function NewMessages(head: Conversation, copied: seq<Message>, mint: Mint): (ms: seq<Message>)
    ensures |ms| == |copied|
    ensures forall k :: 0 <= k < |ms| ==> ms[k] == ToMessage(mint(k + 1), CopyRow(head, copied[k]))
  {
    seq(|copied|, k requires 0 <= k < |copied| => ToMessage(mint(k + 1), CopyRow(head, copied[k])))
  }

  lemma NewRowsAreNew(d: Database, d': Database, head: Conversation, copied: seq<Message>, mint: Mint, x: Id)
    requires Consistent(d) && head.id !in d.conversations
    requires CopiesAdded(d.(conversations := d.conversations[head.id := head]), d', head, copied, mint, |copied|)
    ensures x in d'.messages && d'.messages[x].conversationId == head.id <==> exists k: nat :: 1 <= k <= |copied| && x == mint(k)
  {
  }

  lemma SelectedIsNew(d: Database, d': Database, head: Conversation, copied: seq<Message>, mint: Mint, x: Message)
    requires Consistent(d) && head.id !in d.conversations
    requires CopiesAdded(d.(conversations := d.conversations[head.id := head]), d', head, copied, mint, |copied|)
    requires x in Selected(d', head.id, head.sub, None)
    ensures x in NewMessages(head, copied, mint)
  {
    hide Consistent;
    NewRowsAreNew(d, d', head, copied, mint, x.id);
    var k: nat :| 1 <= k <= |copied| && x.id == mint(k);
    assert NewMessages(head, copied, mint)[k - 1] == x;
  }

  lemma NewIsSelected(d: Database, d': Database, head: Conversation, copied: seq<Message>, mint: Mint, k: nat)
    requires k < |copied| && CopiesAdded(d, d', head, copied, mint, |copied|)
    ensures NewMessages(head, copied, mint)[k] in Selected(d', head.id, head.sub, None)
  {
    assert mint(k + 1) in d'.messages;
  }

  lemma NewAreDistinct(head: Conversation, copied: seq<Message>, mint: Mint)
    requires Injective(mint)
    ensures var ms := NewMessages(head, copied, mint); forall k, l :: 0 <= k < l < |ms| ==> ms[k] != ms[l]
  {
    var ms := NewMessages(head, copied, mint);
    forall k, l | 0 <= k < l < |ms| ensures ms[k] != ms[l] {
      assert ms[k].id == mint(k + 1) && ms[l].id == mint(l + 1);
    }
  }

  /** A listing of a new branch has one message for every row copied. */
  lemma NewListing(d: Database, d': Database, head: Conversation, copied: seq<Message>, mint: Mint, out: seq<Message>)
    requires Consistent(d) && head.id !in d.conversations && Injective(mint)
    requires CopiesAdded(d.(conversations := d.conversations[head.id := head]), d', head, copied, mint, |copied|)
    requires IsResult(d', head.id, head.sub, None, out)
    ensures |out| == |copied|
  {
    hide Consistent, CopiesAdded, Injective, Selected, NewMessages;
    var ms, all := NewMessages(head, copied, mint), Selected(d', head.id, head.sub, None);
    NewAreDistinct(head, copied, mint);
    forall x | x in all ensures x in ms {
      SelectedIsNew(d, d', head, copied, mint, x);
    }
    forall k | 0 <= k < |ms| ensures ms[k] in all {
      NewIsSelected(d.(conversations := d.conversations[head.id := head]), d', head, copied, mint, k);
    }
    EnumerationsAgree(out, ms, all);
    assert |multiset(out)| == |out| && |multiset(ms)| == |ms|;
  }

  /** As many messages as the position of `m` says, and as many as its block of equal times reaches. */
  ghost predicate Lengths(s: State, m: Id, positional: nat, tieClosed: nat) {
    && m in s.index
    && var ms := MessagesOf(s, s.index[m]); var p := Position(ms, m);
       p >= 0 && positional == p + 1 && tieClosed == TieEnd(ms, p)
  }

  /** Right after a branch of related stores its listing has as many messages as the cut's position says in the
      in-memory store, and as many as the block of equal times reaches in the relational one. */
  lemma BranchListings(s: State, d: Database, e: Call, d': Database, r: Reply, l: Call, mem: seq<Message>, rel: seq<Message>, d'': Database)
    requires Inv(s) && InOrder(s) && FreshFor(s, e.mint) && Succeeds(s, e) && e.op.BranchFromMessage?
    requires Consistent(d) && Unused(d, e.mint) && Related(s, d) && Steps(d, e, d', r)
    requires l.sub == e.sub && l.op == ListMessages(e.mint(0))
    requires Allows(Next(s, e), l, Messages(mem)) && Steps(d', l, d'', Messages(rel))
    ensures Lengths(s, e.op.messageId, |mem|, |rel|)
  {
    hide ConvsOk, IndexOk, FeedbackOk, Consistent, Related, Steps, CopiesAdded, CopyQuery, FreshFor, IsResult, OldestFirst, JoinsSource, Allows, Next;
    BranchMatches(s, d, e, d', r);
    var copied := BranchDone(d, e, d', r);
    CopySize(s, d, e, copied);
    ListingRead(d', l, d'', Messages(rel));
    HeadIsOwned(d, d', BranchRow(d, e), copied, e.mint);
    NewListing(d, d', BranchRow(d, e), copied, e.mint, rel);
    MemoryListing(s, e, l, mem);
  }

  lemma HeadIsOwned(d: Database, d': Database, head: Conversation, copied: seq<Message>, mint: Mint)
    requires CopiesAdded(d.(conversations := d.conversations[head.id := head]), d', head, copied, mint, |copied|)
    ensures OwnsRow(d', head.sub, head.id)
  {
  }

  lemma MemoryListing(s: State, e: Call, l: Call, mem: seq<Message>)
    requires Succeeds(s, e) && e.op.BranchFromMessage? && l.sub == e.sub && l.op == ListMessages(e.mint(0))
    requires Allows(Next(s, e), l, Messages(mem))
    ensures |mem| == |Prefix(s, e.op.messageId)|
  {
  }

  /** The calls of BranchOfBranch, and after them a listing of the second branch: one message in the in-memory store,
      two in every run of the relational one. */
  lemma TheListingsDiffer(sub: Subject, mints: seq<Mint>, ds: seq<Database>, rs: seq<Reply>, l: Call, mem: seq<Message>, rel: seq<Message>, d: Database)
    requires |mints| == 5 && sub != "" && FreshTrace(BranchOfBranch(sub, mints))
    requires Runs(BranchOfBranch(sub, mints), ds, rs)
    requires l.sub == sub && l.op == ListMessages(mints[4](0))
    requires Allows(Run(BranchOfBranch(sub, mints)), l, Messages(mem)) && Steps(ds[5], l, d, Messages(rel))
    ensures |mem| == 1 && |rel| == 2
  {
    hide FreshTrace, Steps, Allows, Related, Run, CutsCleanly, Inv, InOrder, Consistent, Unused, FreshFor;
    var tr := BranchOfBranch(sub, mints);
    TheBranch(sub, mints);
    BranchOfBranchCutsDirty(sub, mints);
    RelatedBefore(sub, mints, ds, rs);
    At(tr, 4);
    assert tr[..5] == tr;
    RunsConsistent(tr, ds, rs, 4);
    FreshPrefix(tr, 4);
    RunInOrder(tr[..4]);
    BranchListings(Run(tr[..4]), ds[4], tr[4], ds[5], rs[4], l, mem, rel, d);
  }

  /** Up to the last call the stores are related: the first branch cuts cleanly. */
  lemma RelatedBefore(sub: Subject, mints: seq<Mint>, ds: seq<Database>, rs: seq<Reply>)
    requires |mints| == 5 && sub != "" && FreshTrace(BranchOfBranch(sub, mints))
    requires Runs(BranchOfBranch(sub, mints), ds, rs)
    ensures Related(Run(BranchOfBranch(sub, mints)[..4]), ds[4])
  {
    hide FreshTrace, Steps, Related, Run;
    var tr := BranchOfBranch(sub, mints);
    FreshPrefix(tr, 4);
    TwoAppends(sub, mints);
    var c, x, y := mints[0](0), mints[1](0), mints[2](0);
    var pre := [Message(x, c, "user", "q", 2), Message(y, c, "assistant", "a", 3)];
    assert Position(pre, y) == 1;
    assert CutsCleanly(Run(tr[..3]), tr[3]);
    forall k | 0 <= k < 4 ensures CutsCleanly(Run(tr[..4][..k]), tr[..4][k]) {
      assert tr[..4][..k] == tr[..k];
    }
    RunsPrefix(tr, ds, rs, 4);
    RunSimulates(tr[..4], ds[..5], rs[..4], 4);
    assert tr[..4][..4] == tr[..4];
  }

  /** Such identifiers exist, so the run happens. */
  lemma BranchOfBranchHappens(sub: Subject) returns (mints: seq<Mint>, ds: seq<Database>, rs: seq<Reply>)
    ensures |mints| == 5 && FreshTrace(BranchOfBranch(sub, mints)) && Runs(BranchOfBranch(sub, mints), ds, rs)
  {
    hide FreshTrace, Runs, Injective;
    mints := FreshMints(5);
    FreshCalls(mints, BranchOfBranch(sub, mints));
    ds, rs := RunExists(BranchOfBranch(sub, mints));
  }
}
