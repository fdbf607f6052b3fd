/** Non-interference for the Postgres store: what one subject observes does not depend on the calls of any other. */
module RelationalIsolation {
  import opened StoreTypes
  import opened NonInterference
  import opened Tables
  import opened RelationalSpec
  import opened Interleaving
  import opened Explanations

  /** The rows of one subject. */
  function Share(d: Database, a: Subject): Database {
    Database(
      map c | c in d.conversations && d.conversations[c].sub == a :: d.conversations[c],
      map m | m in d.messages && d.messages[m].sub == a :: d.messages[m],
      map k | k in d.feedback && k.sub == a :: d.feedback[k])
  }

  // --- Reads

  lemma ShareChecks(d: Database, a: Subject)
    ensures forall c :: OwnsRow(Share(d, a), a, c) <==> OwnsRow(d, a, c)
    ensures forall m :: OwnsMessage(Share(d, a), a, m) <==> OwnsMessage(d, a, m)
    ensures forall m :: JoinsSource(Share(d, a), a, m) <==> JoinsSource(d, a, m)
  {
  }

  lemma ShareSelects(d: Database, a: Subject, c: Id, until: Option<Time>)
    ensures Selected(Share(d, a), c, a, until) == Selected(d, c, a, until)
  {
    var p := Share(d, a);
    forall x | x in Selected(d, c, a, until) ensures x in Selected(p, c, a, until) {
      var m :| m in d.messages && Matches(d.messages[m], c, a, until) && ToMessage(m, d.messages[m]) == x;
      assert p.messages[m] == d.messages[m];
    }
    forall x | x in Selected(p, c, a, until) ensures x in Selected(d, c, a, until) {
      var m :| m in p.messages && Matches(p.messages[m], c, a, until) && ToMessage(m, p.messages[m]) == x;
      assert p.messages[m] == d.messages[m];
    }
  }

  lemma ShareLists(d: Database, a: Subject)
    ensures Owned(Share(d, a).conversations, a) == Owned(d.conversations, a)
  {
    var p := Share(d, a);
    forall x | x in Owned(d.conversations, a) ensures x in Owned(p.conversations, a) {
      var c :| c in d.conversations && d.conversations[c].sub == a && d.conversations[c] == x;
      assert p.conversations[c] == x;
    }
  }

  lemma ShareUnused(d: Database, a: Subject, mint: Mint)
    requires Unused(d, mint)
    ensures Unused(Share(d, a), mint)
  {
  }

  // --- Writes, seen by their own subject and by another

  lemma ShareRow(d: Database, c: Conversation, a: Subject)
    requires c.id in d.conversations ==> d.conversations[c.id].sub == c.sub
    ensures var d', p := d.(conversations := d.conversations[c.id := c]), Share(d, a);
      Share(d', a) == if c.sub == a then p.(conversations := p.conversations[c.id := c]) else p
  {
  }

  lemma ShareMessage(d: Database, m: Id, row: MessageRow, a: Subject)
    requires m !in d.messages
    ensures var d', p := d.(messages := d.messages[m := row]), Share(d, a);
      Share(d', a) == if row.sub == a then p.(messages := p.messages[m := row]) else p
  {
  }

  lemma ShareFeedback(d: Database, k: FeedbackKey, f: Feedback, a: Subject)
    ensures var d', p := d.(feedback := d.feedback[k := f]), Share(d, a);
      Share(d', a) == if k.sub == a then p.(feedback := p.feedback[k := f]) else p
  {
  }

  lemma ShareRows(d: Database, rows: map<Id, MessageRow>, b: Subject, a: Subject)
    requires forall m :: m in rows ==> rows[m].sub == b && m !in d.messages
    ensures var d', p := d.(messages := d.messages + rows), Share(d, a);
      Share(d', a) == if b == a then p.(messages := p.messages + rows) else p
  {
    var d', p := d.(messages := d.messages + rows), Share(d, a);
    assert Share(d', a).messages == if b == a then p.messages + rows else p.messages;
  }

  /** A cascade stays within the owner's rows. */
  lemma CascadeRows(d: Database, c: Id, b: Subject)
    requires Consistent(d) && OwnsRow(d, b, c)
    ensures forall m :: m in MessagesIn(d, c) ==> m in d.messages && d.messages[m].sub == b
    ensures forall k :: k in d.feedback && k.messageId in MessagesIn(d, c) ==> k.sub == b
  {
  }

  lemma SameDoomed(d: Database, c: Id, a: Subject)
    requires forall m :: m in MessagesIn(d, c) ==> m in d.messages && d.messages[m].sub == a
    ensures MessagesIn(Share(d, a), c) == MessagesIn(d, c)
  {
  }

  lemma ShareCascadeOwn(d: Database, c: Id, a: Subject)
    requires Consistent(d) && OwnsRow(d, a, c)
    ensures Share(Cascade(d, c), a) == Cascade(Share(d, a), c)
  {
    hide MessagesIn, Consistent;
    CascadeRows(d, c, a);
    SameDoomed(d, c, a);
    var p, q := Cascade(Share(d, a), c), Share(Cascade(d, c), a);
    assert q.conversations == p.conversations;
    assert q.messages == p.messages;
    assert q.feedback == p.feedback;
  }

  lemma ShareCascadeOther(d: Database, c: Id, b: Subject, a: Subject)
    requires Consistent(d) && OwnsRow(d, b, c) && a != b
    ensures Share(Cascade(d, c), a) == Share(d, a)
  {
    hide MessagesIn, Consistent;
    CascadeRows(d, c, b);
    var p, q := Share(d, a), Share(Cascade(d, c), a);
    assert q.conversations == p.conversations;
    assert q.messages == p.messages;
    assert q.feedback == p.feedback;
  }

  lemma ShareCommit(d: Database, e: Call, head: Conversation, ms: seq<Message>, a: Subject)
    requires Unused(d, e.mint) && head.id == e.mint(0)
    ensures Share(BranchCommit(d, head, GraftRows(e, head, ms)), a) ==
      if head.sub == a then BranchCommit(Share(d, a), head, GraftRows(e, head, ms)) else Share(d, a)
  {
    var rows := GraftRows(e, head, ms);
    var d1 := d.(conversations := d.conversations[head.id := head]);
    ShareRow(d, head, a);
    ShareRows(d1, rows, head.sub, a);
    assert BranchCommit(d, head, rows) == d1.(messages := d1.messages + rows);
  }

  // --- One call

  lemma SameHead(d: Database, e: Call)
    requires e.op.BranchFromMessage? && JoinsSource(d, e.sub, e.op.messageId)
    ensures var p := Share(d, e.sub);
      && JoinsSource(p, e.sub, e.op.messageId) && BranchRow(p, e) == BranchRow(d, e)
      && p.messages[e.op.messageId] == d.messages[e.op.messageId]
  {
  }

  lemma SameGrafts(d: Database, e: Call, ms: seq<Message>, r: Reply, p': Database)
    requires Unused(d, e.mint) && e.op.BranchFromMessage? && JoinsSource(d, e.sub, e.op.messageId)
    ensures var p, d' := Share(d, e.sub), BranchCommit(d, BranchRow(d, e), GraftRows(e, BranchRow(d, e), ms));
      Grafts(p, p, p, e, ms, p', r) <==> Grafts(d, d, d, e, ms, d', r) && p' == Share(d', e.sub)
  {
    hide GraftRows, BranchCommit, Selected;
    SameHead(d, e);
    var row := d.messages[e.op.messageId];
    ShareSelects(d, e.sub, row.conversationId, Some(row.createdAt));
    ShareCommit(d, e, BranchRow(d, e), ms, e.sub);
  }

  lemma OwnBranch(d: Database, e: Call, d': Database, r: Reply)
    requires Unused(d, e.mint) && e.op.BranchFromMessage? && Steps(d, e, d', r)
    ensures Steps(Share(d, e.sub), e, Share(d', e.sub), r)
  {
    hide Grafts, Share;
    ShareChecks(d, e.sub);
    if e.sub != "" && JoinsSource(d, e.sub, e.op.messageId) {
      ShareUnused(d, e.sub, e.mint);
      UndisturbedBranch(d, e, d', r);
      UndisturbedBranch(Share(d, e.sub), e, Share(d', e.sub), r);
      var ms :| Grafts(d, d, d, e, ms, d', r);
      GraftsCommit(d, e, ms, d', r);
      SameGrafts(d, e, ms, r, Share(d', e.sub));
    }
  }

  lemma GraftsCommit(d: Database, e: Call, ms: seq<Message>, d': Database, r: Reply)
    requires Grafts(d, d, d, e, ms, d', r)
    ensures d' == BranchCommit(d, BranchRow(d, e), GraftRows(e, BranchRow(d, e), ms)) && r == OneConversation(BranchRow(d, e))
  {
  }

  lemma OwnRead(d: Database, e: Call, d': Database, r: Reply)
    requires Steps(d, e, d', r)
    requires e.op.ListConversations? || e.op.GetConversation? || e.op.ListMessages? || e.op.GetFeedback?
    ensures d' == d && Steps(Share(d, e.sub), e, Share(d, e.sub), r)
  {
    hide Share, Owned, Selected, Enumerates;
    var a := e.sub;
    ShareChecks(d, a);
    ShareFinds(d, a);
    match e.op
    case ListConversations => ShareLists(d, a);
    case ListMessages(c) => ShareSelects(d, a, c, None);
    case _ =>
  }

  lemma OwnRename(d: Database, e: Call, d': Database, r: Reply)
    requires Consistent(d) && Steps(d, e, d', r) && e.op.RenameConversation?
    ensures Steps(Share(d, e.sub), e, Share(d', e.sub), r)
  {
    hide Consistent, Share;
    ShareChecks(d, e.sub);
    ShareFinds(d, e.sub);
    if OwnsRow(d, e.sub, e.op.id) {
      IsOwned(d, e.sub, e.op.id);
      ShareRow(d, d.conversations[e.op.id].(title := e.op.title, updatedAt := e.now), e.sub);
    }
  }

  lemma OwnDelete(d: Database, e: Call, d': Database, r: Reply)
    requires Consistent(d) && Steps(d, e, d', r) && e.op.DeleteConversation?
    ensures Steps(Share(d, e.sub), e, Share(d', e.sub), r)
  {
    hide Consistent, Share, Cascade;
    ShareChecks(d, e.sub);
    if OwnsRow(d, e.sub, e.op.id) {
      ShareCascadeOwn(d, e.op.id, e.sub);
    }
  }

  lemma OwnAppend(d: Database, e: Call, d': Database, r: Reply)
    requires Consistent(d) && Unused(d, e.mint) && Steps(d, e, d', r) && e.op.AppendMessage?
    ensures Steps(Share(d, e.sub), e, Share(d', e.sub), r)
  {
    hide Consistent, Share;
    var a, id := e.sub, e.op.conversationId;
    ShareChecks(d, a);
    ShareFinds(d, a);
    ShareUnused(d, a, e.mint);
    if OwnsRow(d, a, id) {
      IsOwned(d, a, id);
      var d1 := d.(messages := d.messages[e.mint(0) := AppendRow(e)]);
      ShareMessage(d, e.mint(0), AppendRow(e), a);
      ShareRow(d1, d.conversations[id].(updatedAt := e.now), a);
    }
  }

  lemma OwnUpsert(d: Database, e: Call, d': Database, r: Reply)
    requires Steps(d, e, d', r) && e.op.UpsertFeedback?
    ensures Steps(Share(d, e.sub), e, Share(d', e.sub), r)
  {
    hide Share;
    ShareChecks(d, e.sub);
    ShareFeedback(d, FeedbackKey(e.sub, e.op.messageId), NewFeedback(e), e.sub);
  }

  lemma OwnCreate(d: Database, e: Call, d': Database, r: Reply)
    requires Unused(d, e.mint) && Steps(d, e, d', r) && e.op.CreateConversation?
    ensures Steps(Share(d, e.sub), e, Share(d', e.sub), r)
  {
    hide Share;
    ShareUnused(d, e.sub, e.mint);
    ShareRow(d, NewConversation(e, e.op.title), e.sub);
  }

  /** The subject's own call does to its rows alone what it does to the whole tables, with the same reply. */
  lemma OwnStep(d: Database, e: Call, d': Database, r: Reply)
    requires Consistent(d) && Unused(d, e.mint) && Steps(d, e, d', r)
    ensures Steps(Share(d, e.sub), e, Share(d', e.sub), r)
  {
    hide Consistent, Share, Steps, Unused;
    match e.op
    case CreateConversation(_) => OwnCreate(d, e, d', r);
    case RenameConversation(_, _) => OwnRename(d, e, d', r);
    case DeleteConversation(_) => OwnDelete(d, e, d', r);
    case AppendMessage(_, _, _) => OwnAppend(d, e, d', r);
    case BranchFromMessage(_, _) => OwnBranch(d, e, d', r);
    case UpsertFeedback(_, _, _) => OwnUpsert(d, e, d', r);
    case _ => OwnRead(d, e, d', r);
  }

  lemma ShareFinds(d: Database, a: Subject)
    ensures forall c :: OwnsRow(d, a, c) ==> Share(d, a).conversations[c] == d.conversations[c]
    ensures forall m :: FeedbackKey(a, m) in d.feedback <==> FeedbackKey(a, m) in Share(d, a).feedback
    ensures forall m :: FeedbackKey(a, m) in d.feedback ==> Share(d, a).feedback[FeedbackKey(a, m)] == d.feedback[FeedbackKey(a, m)]
  {
  }

  /** Another subject's call leaves the subject's rows as they are. */
  lemma OtherStep(d: Database, e: Call, d': Database, r: Reply, a: Subject)
    requires Consistent(d) && Unused(d, e.mint) && Steps(d, e, d', r) && e.sub != a
    ensures Share(d', a) == Share(d, a)
  {
    hide Consistent, Share, Steps, Unused, TablesAfter, JoinsSource, Grafts;
    if !e.op.BranchFromMessage? {
      StepsTo(d, e, d', r);
      OtherSimple(d, e, a);
    } else if e.sub != "" && JoinsSource(d, e.sub, e.op.messageId) {
      UndisturbedBranch(d, e, d', r);
      var ms :| Grafts(d, d, d, e, ms, d', r);
      GraftsCommit(d, e, ms, d', r);
      ShareCommit(d, e, BranchRow(d, e), ms, a);
    } else {
      BranchRefused(d, e, d', r);
    }
  }

  lemma OtherAppend(d: Database, e: Call, a: Subject)
    requires Consistent(d) && Unused(d, e.mint) && e.op.AppendMessage? && e.sub != a
    ensures Share(AppendStep(d, e).db, a) == Share(d, a)
  {
    hide Consistent, Share;
    var id := e.op.conversationId;
    if OwnsRow(d, e.sub, id) {
      IsOwned(d, e.sub, id);
      var d1 := d.(messages := d.messages[e.mint(0) := AppendRow(e)]);
      ShareMessage(d, e.mint(0), AppendRow(e), a);
      ShareRow(d1, d.conversations[id].(updatedAt := e.now), a);
    }
  }

  lemma OtherSimple(d: Database, e: Call, a: Subject)
    requires Consistent(d) && Unused(d, e.mint) && !e.op.BranchFromMessage? && e.sub != a
    ensures Share(TablesAfter(d, e), a) == Share(d, a)
  {
    hide Consistent, Share, Cascade, AppendStep;
    match e.op
    case CreateConversation(title) => ShareRow(d, NewConversation(e, title), a);
    case RenameConversation(id, title) =>
      if OwnsRow(d, e.sub, id) {
        IsOwned(d, e.sub, id);
        ShareRow(d, d.conversations[id].(title := title, updatedAt := e.now), a);
      }
    case DeleteConversation(id) =>
      if OwnsRow(d, e.sub, id) {
        ShareCascadeOther(d, id, e.sub, a);
      }
    case AppendMessage(_, _, _) => OtherAppend(d, e, a);
    case UpsertFeedback(m, _, _) => ShareFeedback(d, FeedbackKey(e.sub, m), NewFeedback(e), a);
    case _ =>
  }

  ghost predicate CanReply(d: Database, e: Call, r: Reply) {
    exists d' :: Steps(d, e, d', r)
  }

  /** The replies a call may get on the whole tables and on its subject's rows alone are the same ones: a row of
      another subject is indistinguishable from a missing one. */
  lemma SameReplies(d: Database, e: Call, r: Reply)
    requires Consistent(d) && Unused(d, e.mint)
    ensures CanReply(d, e, r) <==> CanReply(Share(d, e.sub), e, r)
  {
    hide Consistent, Share, Steps, Unused;
    if d' :| Steps(d, e, d', r) {
      OwnStep(d, e, d', r);
    }
    if p' :| Steps(Share(d, e.sub), e, p', r) {
      var d' := StepOnTheWhole(d, e, p', r);
    }
  }

  /** What a call does on its subject's rows alone it can do on the whole tables. */
  lemma StepOnTheWhole(d: Database, e: Call, p': Database, r: Reply) returns (d': Database)
    requires Consistent(d) && Unused(d, e.mint) && Steps(Share(d, e.sub), e, p', r)
    ensures Steps(d, e, d', r) && Share(d', e.sub) == p'
  {
    hide Consistent, Share, Cascade, Owned, Selected, Enumerates, Grafts;
    var a := e.sub;
    ShareChecks(d, a);
    match e.op
    case ListConversations =>
      ShareLists(d, a);
      d' := d;
    case ListMessages(c) =>
      ShareSelects(d, a, c, None);
      d' := d;
    case BranchFromMessage(m, _) =>
      if e.sub != "" && JoinsSource(d, a, m) {
        ShareUnused(d, a, e.mint);
        UndisturbedBranch(Share(d, a), e, p', r);
        var ms :| Grafts(Share(d, a), Share(d, a), Share(d, a), e, ms, p', r);
        SameGrafts(d, e, ms, r, p');
        d' := BranchCommit(d, BranchRow(d, e), GraftRows(e, BranchRow(d, e), ms));
        UndisturbedBranch(d, e, d', r);
      } else {
        d' := d;
      }
    case _ =>
      var o := Determined(d, e);
      d' := o.db;
      OwnStep(d, e, o.db, o.reply);
  }

  /** The outcome of the calls whose outcome the tables determine. */
  function Determined(d: Database, e: Call): Outcome
    requires !e.op.ListConversations? && !e.op.ListMessages? && !e.op.BranchFromMessage?
  {
    match e.op
    case CreateConversation(_) => CreateStep(d, e)
    case GetConversation(id) => Outcome(d, GetStep(d, e.sub, id))
    case RenameConversation(_, _) => RenameStep(d, e)
    case DeleteConversation(_) => DeleteStep(d, e)
    case AppendMessage(_, _, _) => AppendStep(d, e)
    case UpsertFeedback(_, _, _) => UpsertStep(d, e)
    case GetFeedback(m) => Outcome(d, FeedbackStep(d, e.sub, m))
  }

  // --- Whole runs

  /** What the subject's calls left behind, one table state per call of its own. */
  function OwnStates(tr: seq<Call>, ds: seq<Database>, a: Subject): (ps: seq<Database>)
    requires |ds| == |tr| + 1
    ensures |ps| == |Purge(tr, a)| + 1
  {
    if tr == [] then [Share(ds[0], a)]
    else
      var n := |tr| - 1;
      var rest := OwnStates(tr[..n], ds[..n + 1], a);
      if tr[n].sub == a then rest + [Share(ds[n + 1], a)] else rest
  }

  /** The replies the subject got. */
  function OwnReplies(tr: seq<Call>, rs: seq<Reply>, a: Subject): (qs: seq<Reply>)
    requires |rs| == |tr|
    ensures |qs| == |Purge(tr, a)|
  {
    if tr == [] then []
    else
      var n := |tr| - 1;
      var rest := OwnReplies(tr[..n], rs[..n], a);
      if tr[n].sub == a then rest + [rs[n]] else rest
  }

  lemma NothingShared(tr: seq<Call>, ds: seq<Database>, rs: seq<Reply>, a: Subject)
    requires Runs(tr, ds, rs) && tr == []
    ensures Runs([], OwnStates(tr, ds, a), []) && OwnStates(tr, ds, a) == [Share(ds[0], a)]
  {
    assert Share(NoRows, a) == NoRows;
  }

  /** Non-interference: take any run of any number of subjects and delete every other subject's calls; the
      replies the subject got, and its rows, are those of a run of its calls alone. */
  lemma {:induction false} OwnRun(tr: seq<Call>, ds: seq<Database>, rs: seq<Reply>, a: Subject)
    requires FreshTrace(tr) && Runs(tr, ds, rs)
    ensures Runs(Purge(tr, a), OwnStates(tr, ds, a), OwnReplies(tr, rs, a))
    ensures OwnStates(tr, ds, a)[|Purge(tr, a)|] == Share(ds[|tr|], a)
  {
    hide Steps, FreshTrace, Runs, Share, Consistent, Unused;
    SizesOf(tr, ds, rs);
    if tr == [] {
      NothingShared(tr, ds, rs, a);
    } else {
      var n := |tr| - 1;
      RunsPrefix(tr, ds, rs, n);
      FreshPrefix(tr, n);
      OwnRun(tr[..n], ds[..n + 1], rs[..n], a);
      RunsConsistent(tr, ds, rs, n);
      StepOf(tr, ds, rs, n);
      if tr[n].sub == a {
        OwnStep(ds[n], tr[n], ds[n + 1], rs[n]);
        RunsSnoc(Purge(tr[..n], a), OwnStates(tr[..n], ds[..n + 1], a), OwnReplies(tr[..n], rs[..n], a), tr[n], Share(ds[n + 1], a), rs[n]);
      } else {
        OtherStep(ds[n], tr[n], ds[n + 1], rs[n], a);
      }
    }
  }

  /** And back: every run of the subject's calls alone is what the subject sees of some run of all the calls. */
  lemma {:induction false} WholeRun(tr: seq<Call>, a: Subject, ps: seq<Database>, qs: seq<Reply>)
    returns (ds: seq<Database>, rs: seq<Reply>)
    requires FreshTrace(tr) && Runs(Purge(tr, a), ps, qs)
    ensures Runs(tr, ds, rs) && |ds| == |tr| + 1 && |rs| == |tr|
    ensures OwnStates(tr, ds, a) == ps && OwnReplies(tr, rs, a) == qs
  {
    hide Steps, FreshTrace, Runs, Share, Consistent, Unused;
    SizesOf(Purge(tr, a), ps, qs);
    if tr == [] {
      ds, rs := [NoRows], [];
      NoRun(ps, a);
    } else {
      var n, k := |tr| - 1, |Purge(tr[..|tr| - 1], a)|;
      RunsPrefix(Purge(tr, a), ps, qs, k);
      assert Purge(tr, a)[..k] == Purge(tr[..n], a);
      FreshPrefix(tr, n);
      var ds0, rs0 := WholeRun(tr[..n], a, ps[..k + 1], qs[..k]);
      OwnRun(tr[..n], ds0, rs0, a);
      assert ps[k] == Share(ds0[n], a);
      RunsReady(tr, ds0, rs0);
      var d, r;
      if tr[n].sub == a {
        StepOf(Purge(tr, a), ps, qs, k);
        r := qs[k];
        d := StepOnTheWhole(ds0[n], tr[n], ps[k + 1], r);
      } else {
        StepExists(ds0[n], tr[n]);
        d, r :| Steps(ds0[n], tr[n], d, r);
        OtherStep(ds0[n], tr[n], d, r, a);
      }
      ds, rs := ds0 + [d], rs0 + [r];
      RunsSnoc(tr[..n], ds0, rs0, tr[n], d, r);
      assert tr == tr[..n] + [tr[n]] && ds[..n + 1] == ds0 && rs[..n] == rs0;
    }
  }

  lemma NoRun(ps: seq<Database>, a: Subject)
    requires Runs([], ps, [])
    ensures Runs([], [NoRows], []) && ps == [Share(NoRows, a)]
  {
    assert Share(NoRows, a) == NoRows;
  }

  /** After a run of all but the last call the tables are consistent and the last call draws new identifiers. */
  lemma RunsReady(tr: seq<Call>, ds: seq<Database>, rs: seq<Reply>)
    requires FreshTrace(tr) && tr != [] && Runs(tr[..|tr| - 1], ds, rs)
    ensures |ds| == |tr| && Consistent(ds[|tr| - 1]) && Unused(ds[|tr| - 1], tr[|tr| - 1].mint)
  {
    hide Steps, Consistent, Unused, FreshTrace;
    var n := |tr| - 1;
    FreshPrefix(tr, n);
    RunsConsistent(tr[..n], ds, rs, n);
    assert tr[..n][..n] == tr[..n];
    DrawnUnused(tr, n, ds[n]);
  }

  lemma SizesOf(tr: seq<Call>, ds: seq<Database>, rs: seq<Reply>)
    requires Runs(tr, ds, rs)
    ensures |ds| == |tr| + 1 && |rs| == |tr|
  {
  }

  lemma StepOf(tr: seq<Call>, ds: seq<Database>, rs: seq<Reply>, n: nat)
    requires Runs(tr, ds, rs) && n < |tr|
    ensures Steps(ds[n], tr[n], ds[n + 1], rs[n])
  {
  }
}
