/** One execution in which a branch, a message listing and a rename each answer as no sequential call could. */
module Anomalies {
  import opened StoreTypes
  import opened FreshIds
  import opened Tables
  import opened RelationalSpec
  import opened Interleaving
  import opened InterleavingSafety
  import opened Linearization
  import opened Explanations
  import opened ConcurrentHistory

  // --- What the sequential calls answer

  /** A sequential branch that succeeds always leaves a message in the new conversation. */
  lemma SequentialBranchHasMessages(d: Database, e: Call, d': Database, r: Reply)
    requires Unused(d, e.mint) && e.op.BranchFromMessage? && Steps(d, e, d', r) && r.OneConversation?
    ensures r.conversation.id == e.mint(0)
    ensures e.mint(1) in d'.messages && d'.messages[e.mint(1)].conversationId == e.mint(0)
  {
    hide Steps, CopiesAdded, CopyQuery, JoinsSource;
    if e.sub != "" && JoinsSource(d, e.sub, e.op.messageId) {
      var ms := BranchDone(d, e, d', r);
      NamedIsCopied(d, e, ms);
      FirstCopy(d.(conversations := d.conversations[e.mint(0) := BranchRow(d, e)]), d', BranchRow(d, e), ms, e.mint);
    } else {
      BranchRefused(d, e, d', r);
    }
  }

  lemma NamedIsCopied(d: Database, e: Call, ms: seq<Message>)
    requires e.op.BranchFromMessage? && JoinsSource(d, e.sub, e.op.messageId) && CopyQuery(d, e, ms)
    ensures |ms| > 0
  {
    var x, row := e.op.messageId, d.messages[e.op.messageId];
    assert ToMessage(x, row) in Selected(d, row.conversationId, e.sub, Some(row.createdAt));
  }

  lemma FirstCopy(d: Database, d': Database, head: Conversation, ms: seq<Message>, mint: Mint)
    requires CopiesAdded(d, d', head, ms, mint, |ms|) && |ms| > 0
    ensures mint(1) in d'.messages && d'.messages[mint(1)].conversationId == head.id
  {
  }

  /** A sequential rename answers with its own title. */
  lemma SequentialRenameAnswersItsTitle(d: Database, e: Call, d': Database, r: Reply)
    requires e.op.RenameConversation? && Steps(d, e, d', r)
    ensures r.OneConversation? ==> r.conversation.title == e.op.title
  {
  }

  /** Once a conversation has a message, no later tables let a sequential listing of it come out empty. */
  lemma SequentialListingIsNotEmpty(d: Database, later: Database, e: Call, x: Id)
    requires e.op.ListMessages? && Kept(d, later)
    requires x in d.messages && Matches(d.messages[x], e.op.conversationId, e.sub, None)
    ensures !Steps(later, e, later, Messages([]))
  {
    var c := e.op.conversationId;
    assert c in later.conversations ==> ToMessage(x, d.messages[x]) in Selected(later, c, e.sub, None);
  }

  // --- Building an execution

  lemma Creates(reqs: seq<Call>, m: Machine, i: nat) returns (m': Machine)
    requires i < |reqs| == |m.pcs| && m.pcs[i].Ready? && reqs[i].op.CreateConversation? && reqs[i].sub != ""
    requires reqs[i].mint(0) !in m.db.conversations
    ensures var head := NewConversation(reqs[i], reqs[i].op.title);
      && Step(reqs, m, i, m') && m'.pcs == m.pcs[i := Finished(OneConversation(head))]
      && m'.db == m.db.(conversations := m.db.conversations[head.id := head])
  {
    var o := CreateStep(m.db, reqs[i]);
    m' := Settle(m, i, o.db, Finished(o.reply));
  }

  lemma ExecutionSize(reqs: seq<Call>, ms: seq<Machine>, who: seq<nat>)
    requires Execution(reqs, ms, who)
    ensures |ms| == |who| + 1
  {
  }

  /** One more step of an execution. */
  lemma Then(reqs: seq<Call>, ms: seq<Machine>, who: seq<nat>, i: nat, m: Machine)
    returns (ms': seq<Machine>, who': seq<nat>)
    requires Execution(reqs, ms, who) && Step(reqs, ms[|who|], i, m)
    ensures Execution(reqs, ms', who') && ms' == ms + [m] && who' == who + [i] && ms'[|who'|] == m
  {
    hide Execution, Step, Loses;
    ExecutionSize(reqs, ms, who);
    ExtendExecution(reqs, ms, who, i, m);
    ms', who' := ms + [m], who + [i];
  }

  lemma ChecksAppend(reqs: seq<Call>, m: Machine, i: nat)
    requires i < |reqs| == |m.pcs| && m.pcs[i].Ready? && reqs[i].op.AppendMessage? && OwnsRow(m.db, reqs[i].sub, reqs[i].op.conversationId)
    ensures Step(reqs, m, i, Move(m, i, AppendChecked))
  {
    hide Continues;
  }

  lemma InsertsAppend(reqs: seq<Call>, m: Machine, i: nat)
    requires i < |reqs| == |m.pcs| && m.pcs[i].AppendChecked? && reqs[i].op.AppendMessage?
    requires reqs[i].op.conversationId in m.db.conversations && reqs[i].mint(0) !in m.db.messages
    ensures Step(reqs, m, i, Move(m, i, AppendInserted))
  {
    hide Begins, AppendTouches, AppendCommits, ListReads, UpsertWrites, RenameReads, BranchInserts, BranchReads, BranchCopies, BranchCommits;
  }

  lemma TouchesAppend(reqs: seq<Call>, m: Machine, i: nat)
    requires i < |reqs| == |m.pcs| && m.pcs[i].AppendInserted? && reqs[i].op.AppendMessage?
    requires forall j :: 0 <= j < |reqs| ==> !m.pcs[j].AppendTouched?
    ensures Step(reqs, m, i, Move(m, i, AppendTouched))
  {
    hide Begins, AppendInserts, AppendCommits, ListReads, UpsertWrites, RenameReads, BranchInserts, BranchReads, BranchCopies, BranchCommits;
  }

  lemma CommitsAppend(reqs: seq<Call>, m: Machine, i: nat) returns (m': Machine)
    requires i < |reqs| == |m.pcs| && m.pcs[i].AppendTouched? && reqs[i].op.AppendMessage?
    requires reqs[i].op.conversationId in m.db.conversations
    ensures Step(reqs, m, i, m') && m'.db == AppendCommit(m.db, reqs[i])
    ensures m'.pcs == m.pcs[i := Finished(OneMessage(ToMessage(reqs[i].mint(0), AppendRow(reqs[i]))))]
  {
    hide Begins, AppendInserts, AppendTouches, ListReads, UpsertWrites, RenameReads, BranchInserts, BranchReads, BranchCopies, BranchCommits, AppendCommit;
    m' := Settle(m, i, AppendCommit(m.db, reqs[i]), Finished(OneMessage(ToMessage(reqs[i].mint(0), AppendRow(reqs[i])))));
  }

  /** The four statements of an append, with nobody in between. */
  lemma Appends(reqs: seq<Call>, ms: seq<Machine>, who: seq<nat>, i: nat) returns (ms': seq<Machine>, who': seq<nat>)
    requires Execution(reqs, ms, who) && i < |reqs| == |ms[|who|].pcs| && ms[|who|].pcs[i].Ready? && reqs[i].op.AppendMessage?
    requires forall j :: 0 <= j < |reqs| ==> !ms[|who|].pcs[j].AppendTouched?
    requires OwnsRow(ms[|who|].db, reqs[i].sub, reqs[i].op.conversationId) && reqs[i].mint(0) !in ms[|who|].db.messages
    ensures Execution(reqs, ms', who')
    ensures ms'[|who'|].db == AppendCommit(ms[|who|].db, reqs[i])
    ensures ms'[|who'|].pcs == ms[|who|].pcs[i := Finished(OneMessage(ToMessage(reqs[i].mint(0), AppendRow(reqs[i]))))]
    ensures who' == who + [i, i, i, i]
  {
    hide Execution, Step, AppendRow, ToMessage, AppendCommit;
    ExecutionSize(reqs, ms, who);
    var m := ms[|who|];
    var m1, m2, m3 := Move(m, i, AppendChecked), Move(m, i, AppendInserted), Move(m, i, AppendTouched);
    assert m2 == Move(m1, i, AppendInserted) && m3 == Move(m2, i, AppendTouched);
    ChecksAppend(reqs, m, i);
    ms', who' := Then(reqs, ms, who, i, m1);
    InsertsAppend(reqs, m1, i);
    ms', who' := Then(reqs, ms', who', i, m2);
    TouchesAppend(reqs, m2, i);
    ms', who' := Then(reqs, ms', who', i, m3);
    var m4 := CommitsAppend(reqs, m3, i);
    ms', who' := Then(reqs, ms', who', i, m4);
  }

  /** The ownership check of a message listing. */
  lemma ChecksListing(reqs: seq<Call>, m: Machine, i: nat)
    requires i < |reqs| == |m.pcs| && m.pcs[i].Ready? && reqs[i].op.ListMessages? && OwnsRow(m.db, reqs[i].sub, reqs[i].op.conversationId)
    ensures Step(reqs, m, i, Move(m, i, ListChecked))
  {
  }

  /** The query of a message listing whose conversation is gone. */
  lemma ListsNothing(reqs: seq<Call>, m: Machine, i: nat)
    requires i < |reqs| == |m.pcs| && m.pcs[i].ListChecked? && reqs[i].op.ListMessages? && m.db.messages == map[]
    ensures Step(reqs, m, i, Move(m, i, Finished(Messages([]))))
  {
    assert IsResult(m.db, reqs[i].op.conversationId, reqs[i].sub, None, []);
  }

  lemma UpdatesTitle(reqs: seq<Call>, m: Machine, i: nat) returns (m': Machine)
    requires i < |reqs| == |m.pcs| && m.pcs[i].Ready? && reqs[i].op.RenameConversation? && OwnsRow(m.db, reqs[i].sub, reqs[i].op.id)
    requires forall j :: 0 <= j < |reqs| ==> !m.pcs[j].AppendTouched?
    ensures var e := reqs[i]; var c := e.op.id;
      && Step(reqs, m, i, m') && m'.pcs == m.pcs[i := RenameUpdated]
      && m'.db == m.db.(conversations := m.db.conversations[c := m.db.conversations[c].(title := e.op.title, updatedAt := e.now)])
  {
    m' := Settle(m, i, UpdateTitle(m.db, reqs[i].op.id, reqs[i].sub, reqs[i].op.title, reqs[i].now).db, RenameUpdated);
  }

  lemma ReadsTitle(reqs: seq<Call>, m: Machine, i: nat)
    requires i < |reqs| == |m.pcs| && m.pcs[i].RenameUpdated? && reqs[i].op.RenameConversation?
    ensures Step(reqs, m, i, Move(m, i, Finished(GetStep(m.db, reqs[i].sub, reqs[i].op.id))))
  {
  }

  lemma Deletes(reqs: seq<Call>, m: Machine, i: nat) returns (m': Machine)
    requires i < |reqs| == |m.pcs| && m.pcs[i].Ready? && reqs[i].op.DeleteConversation? && OwnsRow(m.db, reqs[i].sub, reqs[i].op.id)
    requires forall j :: 0 <= j < |reqs| ==> !m.pcs[j].AppendTouched? && !m.pcs[j].AppendInserted?
    ensures Step(reqs, m, i, m') && m'.pcs == m.pcs[i := Finished(Deleted)] && m'.db == Cascade(m.db, reqs[i].op.id)
  {
    m' := Settle(m, i, Cascade(m.db, reqs[i].op.id), Finished(Deleted));
  }

  lemma ResolvesSource(reqs: seq<Call>, m: Machine, i: nat)
    requires i < |reqs| == |m.pcs| && m.pcs[i].Ready? && reqs[i].op.BranchFromMessage? && reqs[i].sub != ""
    requires JoinsSource(m.db, reqs[i].sub, reqs[i].op.messageId)
    ensures var row := m.db.messages[reqs[i].op.messageId];
      Step(reqs, m, i, Move(m, i, BranchResolved(row.conversationId, m.db.conversations[row.conversationId].title, row.createdAt)))
  {
  }

  lemma InsertsBranch(reqs: seq<Call>, m: Machine, i: nat)
    requires i < |reqs| == |m.pcs| && m.pcs[i].BranchResolved? && reqs[i].op.BranchFromMessage? && reqs[i].mint(0) !in m.db.conversations
    ensures var e, pc := reqs[i], m.pcs[i];
      Step(reqs, m, i, Move(m, i, BranchInserted(NewConversation(e, DefaultTitle(e.op.title, pc.srcTitle)), pc.src, pc.cut)))
  {
    hide Begins, AppendInserts, AppendTouches, AppendCommits, ListReads, UpsertWrites, RenameReads, BranchReads, BranchCopies, BranchCommits, DefaultTitle;
  }

  lemma ReadsNothing(reqs: seq<Call>, m: Machine, i: nat)
    requires i < |reqs| == |m.pcs| && m.pcs[i].BranchInserted? && m.db.messages == map[]
    ensures var pc := m.pcs[i]; Step(reqs, m, i, Move(m, i, BranchCopying(pc.head, Graft(m.db, pc.src, pc.cut, []), 0)))
  {
    hide Begins, AppendInserts, AppendTouches, AppendCommits, ListReads, UpsertWrites, RenameReads, BranchInserts, BranchCopies, BranchCommits;
    assert IsResult(m.db, m.pcs[i].src, reqs[i].sub, Some(m.pcs[i].cut), []);
  }

  lemma CommitsNothing(reqs: seq<Call>, m: Machine, i: nat) returns (m': Machine)
    requires i < |reqs| == |m.pcs| && m.pcs[i].BranchCopying? && m.pcs[i].graft.copied == [] && Injective(reqs[i].mint)
    ensures Step(reqs, m, i, m') && m'.pcs == m.pcs[i := Finished(OneConversation(m.pcs[i].head))]
    ensures m'.db == m.db.(conversations := m.db.conversations[m.pcs[i].head.id := m.pcs[i].head])
  {
    hide Begins, AppendInserts, AppendTouches, AppendCommits, ListReads, UpsertWrites, RenameReads, BranchInserts, BranchReads, BranchCopies, Injective;
    var head, rows := m.pcs[i].head, GraftRows(reqs[i], m.pcs[i].head, m.pcs[i].graft.copied);
    assert rows == map[];
    m' := Settle(m, i, BranchCommit(m.db, head, rows), Finished(OneConversation(head))).(branches := m.branches[head.id := rows]);
  }

  /** The remaining statements of a branch whose source is gone: insert the row, read nothing, commit. */
  lemma BranchesNothing(reqs: seq<Call>, m: Machine, i: nat) returns (m1: Machine, m2: Machine, m3: Machine)
    requires i < |reqs| == |m.pcs| && m.pcs[i].BranchResolved? && reqs[i].op.BranchFromMessage? && m.db.messages == map[]
    requires Injective(reqs[i].mint) && reqs[i].mint(0) !in m.db.conversations
    ensures Step(reqs, m, i, m1) && Step(reqs, m1, i, m2) && Step(reqs, m2, i, m3)
    ensures var head := NewConversation(reqs[i], DefaultTitle(reqs[i].op.title, m.pcs[i].srcTitle));
      && m3.pcs == m.pcs[i := Finished(OneConversation(head))]
      && m3.db == m.db.(conversations := m.db.conversations[head.id := head])
  {
    hide Step, Injective, DefaultTitle;
    var e, pc := reqs[i], m.pcs[i];
    var head := NewConversation(e, DefaultTitle(e.op.title, pc.srcTitle));
    InsertsBranch(reqs, m, i);
    m1 := Move(m, i, BranchInserted(head, pc.src, pc.cut));
    ReadsNothing(reqs, m1, i);
    m2 := Move(m1, i, BranchCopying(head, Graft(m.db, pc.src, pc.cut, []), 0));
    m3 := CommitsNothing(reqs, m2, i);
  }

  // --- The execution

  /** Create, append a message, branch at it, list it, rename twice, delete: seven clients. */
  function SevenCalls(sub: Subject, mints: seq<Mint>): seq<Call>
    requires |mints| == 7
  {
    var c, x := mints[0](0), mints[1](0);
    [Call(sub, CreateConversation("c"), 1, mints[0]),
     Call(sub, AppendMessage(c, "user", "q"), 2, mints[1]),
     Call(sub, BranchFromMessage(x, "b"), 3, mints[2]),
     Call(sub, ListMessages(c), 4, mints[3]),
     Call(sub, RenameConversation(c, "A"), 5, mints[4]),
     Call(sub, RenameConversation(c, "B"), 6, mints[5]),
     Call(sub, DeleteConversation(c), 7, mints[6])]
  }

  /** The clients that have not moved yet, from the k-th on. */
  predicate Waiting(m: Machine, k: nat) {
    |m.pcs| == 7 && forall j :: k <= j < 7 ==> m.pcs[j].Ready?
  }

  /** The conversation with one message, and its title and update time. */
  predicate HasMessage(m: Machine, sub: Subject, mints: seq<Mint>, title: string, updatedAt: Time)
    requires |mints| == 7
  {
    var c, x := mints[0](0), mints[1](0);
    m.db == Database(map[c := Conversation(c, sub, title, 1, updatedAt)], map[x := MessageRow(c, sub, "user", "q", 2)], map[])
  }

  lemma CreatedFirst(sub: Subject, mints: seq<Mint>) returns (ms: seq<Machine>, who: seq<nat>)
    requires |mints| == 7 && sub != ""
    ensures Execution(SevenCalls(sub, mints), ms, who) && who == [0]
    ensures var c, m := mints[0](0), ms[1];
      && m.db == Database(map[c := Conversation(c, sub, "c", 1, 1)], map[], map[])
      && Waiting(m, 1) && m.pcs[0].Finished?
  {
    hide Execution, Step;
    var m0 := Machine(NoRows, seq(7, _ => Ready), map[], map[], map[]);
    StartsEmpty(SevenCalls(sub, mints), m0);
    var m1 := Creates(SevenCalls(sub, mints), m0, 0);
    ms, who := Then(SevenCalls(sub, mints), [m0], [], 0, m1);
  }

  lemma Appended(sub: Subject, mints: seq<Mint>) returns (ms: seq<Machine>, who: seq<nat>)
    requires |mints| == 7 && sub != ""
    ensures Execution(SevenCalls(sub, mints), ms, who) && who == [0, 1, 1, 1, 1]
    ensures var m := ms[|who|]; HasMessage(m, sub, mints, "c", 2) && Waiting(m, 2) && m.pcs[0].Finished? && m.pcs[1].Finished?
  {
    hide Execution, Step;
    ms, who := CreatedFirst(sub, mints);
    ms, who := Appends(SevenCalls(sub, mints), ms, who, 1);
  }

  /** Half way: the message is there, the branch has resolved it, and the listing has checked. */
  predicate Midst(m: Machine, mints: seq<Mint>)
    requires |mints| == 7
  {
    && |m.pcs| == 7 && m.pcs[0].Finished? && m.pcs[1].Finished?
    && m.pcs[2] == BranchResolved(mints[0](0), "c", 2) && m.pcs[3] == ListChecked
  }

  lemma Resolved(sub: Subject, mints: seq<Mint>) returns (ms: seq<Machine>, who: seq<nat>)
    requires |mints| == 7 && sub != ""
    ensures Execution(SevenCalls(sub, mints), ms, who) && who == [0, 1, 1, 1, 1, 2]
    ensures var m := ms[|who|];
      && HasMessage(m, sub, mints, "c", 2) && Waiting(m, 3)
      && m.pcs[0].Finished? && m.pcs[1].Finished? && m.pcs[2] == BranchResolved(mints[0](0), "c", 2)
  {
    hide Execution, Step;
    ms, who := Appended(sub, mints);
    ExecutionSize(SevenCalls(sub, mints), ms, who);
    var m := ms[|who|];
    ResolvesSource(SevenCalls(sub, mints), m, 2);
    ms, who := Then(SevenCalls(sub, mints), ms, who, 2, Move(m, 2, BranchResolved(mints[0](0), "c", 2)));
  }

  lemma HalfWay(sub: Subject, mints: seq<Mint>) returns (ms: seq<Machine>, who: seq<nat>)
    requires |mints| == 7 && sub != ""
    ensures Execution(SevenCalls(sub, mints), ms, who) && who == [0, 1, 1, 1, 1, 2, 3]
    ensures var m := ms[|who|]; HasMessage(m, sub, mints, "c", 2) && Midst(m, mints) && Waiting(m, 4)
  {
    hide Execution, Step;
    ms, who := Resolved(sub, mints);
    ExecutionSize(SevenCalls(sub, mints), ms, who);
    ChecksListing(SevenCalls(sub, mints), ms[|who|], 3);
    ms, who := Then(SevenCalls(sub, mints), ms, who, 3, Move(ms[|who|], 3, ListChecked));
  }

  lemma StartsEmpty(reqs: seq<Call>, m: Machine)
    requires |reqs| == 7 && m == Machine(NoRows, seq(7, _ => Ready), map[], map[], map[])
    ensures Execution(reqs, [m], [])
  {
  }

  /** What the first seven steps leave behind for good. */
  ghost predicate SawMessage(sub: Subject, mints: seq<Mint>, ms: seq<Machine>, who: seq<nat>)
    requires |mints| == 7
  {
    && |ms| == |who| + 1 && |who| >= 7 && who[..7] == [0, 1, 1, 1, 1, 2, 3]
    && mints[1](0) in ms[7].db.messages
    && ms[7].db.messages[mints[1](0)] == MessageRow(mints[0](0), sub, "user", "q", 2)
  }

  lemma SeesMessage(sub: Subject, mints: seq<Mint>, ms: seq<Machine>, who: seq<nat>)
    requires |mints| == 7 && |ms| == |who| + 1 && who == [0, 1, 1, 1, 1, 2, 3] && HasMessage(ms[7], sub, mints, "c", 2)
    ensures SawMessage(sub, mints, ms, who)
  {
  }

  lemma StillSaw(sub: Subject, mints: seq<Mint>, ms: seq<Machine>, who: seq<nat>, m: Machine, i: nat)
    requires |mints| == 7 && SawMessage(sub, mints, ms, who)
    ensures SawMessage(sub, mints, ms + [m], who + [i])
  {
    assert (who + [i])[..7] == who[..7];
  }

  lemma ExtendSaw(sub: Subject, mints: seq<Mint>, ms: seq<Machine>, who: seq<nat>, i: nat, m: Machine)
    returns (ms': seq<Machine>, who': seq<nat>)
    requires |mints| == 7 && SawMessage(sub, mints, ms, who)
    requires var reqs := SevenCalls(sub, mints); Execution(reqs, ms, who) && Step(reqs, ms[|who|], i, m)
    ensures SawMessage(sub, mints, ms', who') && Execution(SevenCalls(sub, mints), ms', who') && ms'[|who'|] == m
  {
    hide Execution, Step, SawMessage;
    StillSaw(sub, mints, ms, who, m, i);
    ms', who' := Then(SevenCalls(sub, mints), ms, who, i, m);
  }

  lemma Retitles(reqs: seq<Call>, m: Machine, i: nat, sub: Subject, mints: seq<Mint>, title: string, at: Time) returns (m': Machine)
    requires |mints| == 7 && i < |reqs| == |m.pcs| && m.pcs[i].Ready? && HasMessage(m, sub, mints, title, at)
    requires reqs[i].op.RenameConversation? && reqs[i].op.id == mints[0](0) && reqs[i].sub == sub
    requires forall j :: 0 <= j < |reqs| ==> !m.pcs[j].AppendTouched?
    ensures Step(reqs, m, i, m') && m'.pcs == m.pcs[i := RenameUpdated] && HasMessage(m', sub, mints, reqs[i].op.title, reqs[i].now)
  {
    hide Step;
    m' := UpdatesTitle(reqs, m, i);
  }

  /** From there the first rename updates. */
  lemma ToTheFirstUpdate(sub: Subject, mints: seq<Mint>) returns (ms: seq<Machine>, who: seq<nat>)
    requires |mints| == 7 && sub != ""
    ensures SawMessage(sub, mints, ms, who) && Execution(SevenCalls(sub, mints), ms, who)
    ensures var m := ms[|who|];
      HasMessage(m, sub, mints, "A", 5) && Midst(m, mints) && m.pcs[4].RenameUpdated? && Waiting(m, 5)
  {
    hide Execution, Step, SawMessage, HasMessage;
    ms, who := HalfWay(sub, mints);
    ExecutionSize(SevenCalls(sub, mints), ms, who);
    SeesMessage(sub, mints, ms, who);
    var m1 := Retitles(SevenCalls(sub, mints), ms[|who|], 4, sub, mints, "c", 2);
    ms, who := ExtendSaw(sub, mints, ms, who, 4, m1);
  }

  /** And the second. */
  lemma ToTheUpdates(sub: Subject, mints: seq<Mint>) returns (ms: seq<Machine>, who: seq<nat>)
    requires |mints| == 7 && sub != ""
    ensures SawMessage(sub, mints, ms, who) && Execution(SevenCalls(sub, mints), ms, who)
    ensures var m := ms[|who|];
      HasMessage(m, sub, mints, "B", 6) && Midst(m, mints) && m.pcs[4].RenameUpdated? && m.pcs[5].RenameUpdated? && m.pcs[6].Ready?
  {
    hide Execution, Step, SawMessage, HasMessage;
    ms, who := ToTheFirstUpdate(sub, mints);
    ExecutionSize(SevenCalls(sub, mints), ms, who);
    var m2 := Retitles(SevenCalls(sub, mints), ms[|who|], 5, sub, mints, "A", 5);
    ms, who := ExtendSaw(sub, mints, ms, who, 5, m2);
  }

  /** The first of them reads. */
  lemma ToTheRead(sub: Subject, mints: seq<Mint>) returns (ms: seq<Machine>, who: seq<nat>)
    requires |mints| == 7 && sub != ""
    ensures SawMessage(sub, mints, ms, who) && Execution(SevenCalls(sub, mints), ms, who)
    ensures var m := ms[|who|];
      && HasMessage(m, sub, mints, "B", 6) && Midst(m, mints) && m.pcs[5].RenameUpdated? && m.pcs[6].Ready?
      && m.pcs[4] == Finished(OneConversation(Conversation(mints[0](0), sub, "B", 1, 6)))
  {
    hide Execution, Step, SawMessage;
    ms, who := ToTheUpdates(sub, mints);
    ExecutionSize(SevenCalls(sub, mints), ms, who);
    var m2 := ms[|who|];
    ReadsTitle(SevenCalls(sub, mints), m2, 4);
    ms, who := ExtendSaw(sub, mints, ms, who, 4, Move(m2, 4, Finished(GetStep(m2.db, sub, mints[0](0)))));
  }

  /** And the delete comes. */
  lemma ToTheDelete(sub: Subject, mints: seq<Mint>) returns (ms: seq<Machine>, who: seq<nat>)
    requires |mints| == 7 && sub != ""
    ensures SawMessage(sub, mints, ms, who) && Execution(SevenCalls(sub, mints), ms, who)
    ensures var c, m := mints[0](0), ms[|who|];
      && m.db == NoRows && |m.pcs| == 7
      && m.pcs[2] == BranchResolved(c, "c", 2) && m.pcs[3] == ListChecked
      && m.pcs[4] == Finished(OneConversation(Conversation(c, sub, "B", 1, 6)))
  {
    hide Execution, Step, SawMessage;
    ms, who := ToTheRead(sub, mints);
    ExecutionSize(SevenCalls(sub, mints), ms, who);
    var m4 := Deletes(SevenCalls(sub, mints), ms[|who|], 6);
    assert m4.db == NoRows;
    ms, who := ExtendSaw(sub, mints, ms, who, 6, m4);
  }

  /** And on: the listing reads. */
  lemma ToTheListing(sub: Subject, mints: seq<Mint>) returns (ms: seq<Machine>, who: seq<nat>)
    requires |mints| == 7 && sub != ""
    ensures SawMessage(sub, mints, ms, who) && Execution(SevenCalls(sub, mints), ms, who)
    ensures var c, m := mints[0](0), ms[|who|];
      && m.db == NoRows && |m.pcs| == 7
      && m.pcs[2] == BranchResolved(c, "c", 2) && m.pcs[3] == Finished(Messages([]))
      && m.pcs[4] == Finished(OneConversation(Conversation(c, sub, "B", 1, 6)))
  {
    hide Execution, Step, SawMessage;
    ms, who := ToTheDelete(sub, mints);
    ExecutionSize(SevenCalls(sub, mints), ms, who);
    ListsNothing(SevenCalls(sub, mints), ms[|who|], 3);
    ms, who := ExtendSaw(sub, mints, ms, who, 3, Move(ms[|who|], 3, Finished(Messages([]))));
  }

  /** And the branch inserts, reads and commits. */
  lemma ToTheEnd(sub: Subject, mints: seq<Mint>) returns (ms: seq<Machine>, who: seq<nat>)
    requires |mints| == 7 && sub != "" && FreshTrace(SevenCalls(sub, mints))
    ensures SawMessage(sub, mints, ms, who) && Execution(SevenCalls(sub, mints), ms, who)
    ensures var c, b, m := mints[0](0), mints[2](0), ms[|who|];
      && m.db == Database(map[b := Conversation(b, sub, "b", 3, 3)], map[], map[])
      && |m.pcs| == 7
      && m.pcs[2] == Finished(OneConversation(Conversation(b, sub, "b", 3, 3)))
      && m.pcs[3] == Finished(Messages([]))
      && m.pcs[4] == Finished(OneConversation(Conversation(c, sub, "B", 1, 6)))
  {
    hide Execution, FreshTrace, Step, SawMessage, Injective;
    ms, who := ToTheListing(sub, mints);
    ExecutionSize(SevenCalls(sub, mints), ms, who);
    MintsInject(SevenCalls(sub, mints), 2);
    var m6, m7, m8 := BranchesNothing(SevenCalls(sub, mints), ms[|who|], 2);
    ms, who := ExtendSaw(sub, mints, ms, who, 2, m6);
    ms, who := ExtendSaw(sub, mints, ms, who, 2, m7);
    ms, who := ExtendSaw(sub, mints, ms, who, 2, m8);
  }

  lemma MintsInject(reqs: seq<Call>, i: nat)
    requires FreshTrace(reqs) && i < |reqs|
    ensures Injective(reqs[i].mint)
  {
  }

  /** The three exceptions happen, in one execution: a branch commits without messages, which no sequential branch
      does; a rename answers another rename's title, which no sequential rename does; and a listing is empty though
      on none of the tables committed since its first statement would a sequential listing be. */
  lemma ThreeAnomalies(sub: Subject, mints: seq<Mint>) returns (ms: seq<Machine>, who: seq<nat>)
    requires |mints| == 7 && sub != "" && FreshTrace(SevenCalls(sub, mints))
    ensures var reqs := SevenCalls(sub, mints);
      && Execution(reqs, ms, who)
      && (forall t :: 0 <= t < |ms| ==> |ms[t].pcs| == |reqs|) && (forall t :: 0 <= t < |who| ==> who[t] < |reqs|)
      && var m, h := ms[|who|], HistoryOf(reqs, ms, who);
        && m.pcs[2].Finished? && m.pcs[2].reply.OneConversation? && m.db.messages == map[]
        && (forall d, d' :: Unused(d, reqs[2].mint) && Steps(d, reqs[2], d', m.pcs[2].reply) ==> d'.messages != map[])
        && m.pcs[4].Finished? && (forall d, d' :: !Steps(d, reqs[4], d', m.pcs[4].reply))
        && m.pcs[3] == Finished(Messages([]))
        && (forall u :: h.since[3] <= u < |h.ds| ==> !Steps(h.ds[u], reqs[3], h.ds[u], m.pcs[3].reply))
  {
    hide Execution, FreshTrace, Steps, Unused, Tells, HistoryOf;
    var reqs := SevenCalls(sub, mints);
    ms, who := ToTheEnd(sub, mints);
    EveryExecutionExplained(reqs, ms, who);
    ExecutionSize(reqs, ms, who);
    var m := ms[|who|];
    forall d, d' | Unused(d, reqs[2].mint) && Steps(d, reqs[2], d', m.pcs[2].reply) ensures d'.messages != map[] {
      SequentialBranchHasMessages(d, reqs[2], d', m.pcs[2].reply);
    }
    forall d, d' ensures !Steps(d, reqs[4], d', m.pcs[4].reply) {
      if Steps(d, reqs[4], d', m.pcs[4].reply) {
        SequentialRenameAnswersItsTitle(d, reqs[4], d', m.pcs[4].reply);
      }
    }
    EmptyListingHasNoPoint(reqs, ms, who, mints[1](0));
  }

  lemma EmptyListingHasNoPoint(reqs: seq<Call>, ms: seq<Machine>, who: seq<nat>, x: Id)
    requires FreshTrace(reqs) && Execution(reqs, ms, who) && |reqs| == 7 && reqs[3].op.ListMessages?
    requires |ms| == |who| + 1 && |who| >= 7 && who[..7] == [0, 1, 1, 1, 1, 2, 3]
    requires x in ms[7].db.messages && Matches(ms[7].db.messages[x], reqs[3].op.conversationId, reqs[3].sub, None)
    ensures forall t :: 0 <= t < |ms| ==> |ms[t].pcs| == |reqs|
    ensures forall t :: 0 <= t < |who| ==> who[t] < |reqs|
    ensures var h := HistoryOf(reqs, ms, who);
      forall u :: h.since[3] <= u < |h.ds| ==> !Steps(h.ds[u], reqs[3], h.ds[u], Messages([]))
  {
    hide Execution, FreshTrace, Steps, HistoryOf, Explained, AllPast, Kept;
    EveryExecutionExplained(reqs, ms, who);
    ExecutionSize(reqs, ms, who);
    var h := HistoryOf(reqs, ms, who);
    assert who[6] == who[..7][6] == 3 && who[..6] == who[..7][..6] == [0, 1, 1, 1, 1, 2];
    SinceIsFirstStep(reqs, ms, who, 6);
    forall u | h.since[3] <= u < |h.ds| ensures !Steps(h.ds[u], reqs[3], h.ds[u], Messages([])) {
      SequentialListingIsNotEmpty(h.ds[h.since[3]], h.ds[u], reqs[3], x);
    }
  }

  lemma SevenCallsExist(sub: Subject) returns (mints: seq<Mint>)
    ensures |mints| == 7 && FreshTrace(SevenCalls(sub, mints))
  {
    hide FreshTrace, Injective;
    mints := FreshMints(7);
    FreshCalls(mints, SevenCalls(sub, mints));
  }
}
