/** Feedback in the relational store over whole runs: last writer wins, until the message goes. */
module RelationalFeedback {
  import opened StoreTypes
  import opened Tables
  import opened RelationalSpec

  /** The call writes the feedback row under the key: the caller rates, as good or bad, a message it owns. */
  predicate Rates(d: Database, e: Call, k: FeedbackKey) {
    && e.op.UpsertFeedback? && e.sub == k.sub && e.op.messageId == k.messageId
    && (e.op.rating == "good" || e.op.rating == "bad") && OwnsMessage(d, e.sub, e.op.messageId)
  }

  /** What the last successful upsert under the key wrote; `ds` are the tables along the run. */
  function LastRating(tr: seq<Call>, ds: seq<Database>, k: FeedbackKey): Option<Feedback>
    requires |ds| >= |tr|
  {
    if tr == [] then None
    else
      var n := |tr| - 1;
      var e := tr[n];
      if Rates(ds[n], e, k) then Some(Feedback(k.messageId, k.sub, e.op.rating, e.op.comment, e.now))
      else LastRating(tr[..n], ds, k)
  }

  // --- One call

  lemma BranchKeepsFeedback(d: Database, e: Call, d': Database, r: Reply)
    requires Unused(d, e.mint) && Steps(d, e, d', r) && e.op.BranchFromMessage?
    ensures d'.feedback == d.feedback
    ensures forall x :: x in d.messages ==> x in d'.messages && d'.messages[x] == d.messages[x]
    ensures forall x :: x in d'.messages && x !in d.messages ==> Draws(e, x)
  {
    hide Steps, CopyQuery, JoinsSource;
    if e.sub != "" && JoinsSource(d, e.sub, e.op.messageId) {
      var ms := BranchDone(d, e, d', r);
    } else {
      BranchRefused(d, e, d', r);
    }
  }

  lemma SimpleMessages(d: Database, e: Call)
    requires Unused(d, e.mint) && !e.op.BranchFromMessage?
    ensures var d' := TablesAfter(d, e);
      && (forall x :: x in d.messages && x in d'.messages ==> d'.messages[x] == d.messages[x])
      && (forall x :: x in d'.messages && x !in d.messages ==> x == e.mint(0))
  {
    hide MessagesIn;
  }

  /** What one call does to message rows: it adds some under its own identifiers, or removes some; none changes. */
  lemma StepMessages(d: Database, e: Call, d': Database, r: Reply)
    requires Unused(d, e.mint) && Steps(d, e, d', r)
    ensures forall x :: x in d.messages && x in d'.messages ==> d'.messages[x] == d.messages[x]
    ensures forall x :: x in d'.messages && x !in d.messages ==> Draws(e, x)
  {
    hide Steps, Unused, TablesAfter;
    if e.op.BranchFromMessage? {
      BranchKeepsFeedback(d, e, d', r);
    } else {
      StepsTo(d, e, d', r);
      SimpleMessages(d, e);
      assert Draws(e, e.mint(0));
    }
  }

  lemma DeleteFeedback(d: Database, e: Call, k: FeedbackKey)
    requires Consistent(d) && e.op.DeleteConversation?
    ensures var d' := DeleteStep(d, e).db;
      && (k in d'.feedback <==> k.messageId in d'.messages && k in d.feedback)
      && (k in d'.feedback ==> d'.feedback[k] == d.feedback[k])
  {
  }

  lemma UpsertKeeps(d: Database, e: Call, k: FeedbackKey)
    requires Consistent(d) && e.op.UpsertFeedback?
    ensures var d' := UpsertStep(d, e).db;
      && (k in d'.feedback <==> k.messageId in d'.messages && (Rates(d, e, k) || k in d.feedback))
      && (k in d'.feedback ==> d'.feedback[k] == if Rates(d, e, k) then Feedback(k.messageId, k.sub, e.op.rating, e.op.comment, e.now) else d.feedback[k])
      && (Rates(d, e, k) ==> k.messageId in d'.messages)
  {
  }

  lemma OthersKeep(d: Database, e: Call, x: Id)
    requires !e.op.BranchFromMessage? && !e.op.DeleteConversation? && !e.op.UpsertFeedback?
    ensures var d' := TablesAfter(d, e); d'.feedback == d.feedback && (x in d.messages ==> x in d'.messages)
  {
    hide DeleteStep, UpsertStep;
  }

  lemma RatedIsThere(d: Database, k: FeedbackKey)
    requires Consistent(d) && k in d.feedback
    ensures k.messageId in d.messages
  {
  }

  lemma SimpleFeedback(d: Database, e: Call, k: FeedbackKey)
    requires Consistent(d) && !e.op.BranchFromMessage?
    ensures var d' := TablesAfter(d, e);
      && (k in d'.feedback <==> k.messageId in d'.messages && (Rates(d, e, k) || k in d.feedback))
      && (k in d'.feedback ==> d'.feedback[k] == if Rates(d, e, k) then Feedback(k.messageId, k.sub, e.op.rating, e.op.comment, e.now) else d.feedback[k])
      && (Rates(d, e, k) ==> k.messageId in d'.messages)
  {
    hide Consistent, CreateStep, RenameStep, DeleteStep, AppendStep, UpsertStep;
    if e.op.DeleteConversation? {
      DeleteFeedback(d, e, k);
    } else if e.op.UpsertFeedback? {
      UpsertKeeps(d, e, k);
    } else {
      OthersKeep(d, e, k.messageId);
      if k in d.feedback {
        RatedIsThere(d, k);
      }
    }
  }

  /** What one call does to a feedback row: it writes it, or leaves it while its message stays. */
  lemma StepFeedback(d: Database, e: Call, d': Database, r: Reply, k: FeedbackKey)
    requires Consistent(d) && Unused(d, e.mint) && Steps(d, e, d', r)
    ensures k in d'.feedback <==> k.messageId in d'.messages && (Rates(d, e, k) || k in d.feedback)
    ensures k in d'.feedback ==> d'.feedback[k] == if Rates(d, e, k) then Feedback(k.messageId, k.sub, e.op.rating, e.op.comment, e.now) else d.feedback[k]
    ensures Rates(d, e, k) ==> k.messageId in d'.messages
  {
    hide Steps, Unused, TablesAfter;
    if e.op.BranchFromMessage? {
      BranchKeepsFeedback(d, e, d', r);
    } else {
      StepsTo(d, e, d', r);
      SimpleFeedback(d, e, k);
    }
  }

  lemma GetSteps(d: Database, e: Call, d': Database, r: Reply)
    requires e.op.GetFeedback?
    ensures Steps(d, e, d', r) <==> d' == d && r == FeedbackStep(d, e.sub, e.op.messageId)
  {
    hide IsResult, IsListing, BranchSteps, CreateStep, RenameStep, DeleteStep, AppendStep, UpsertStep, FeedbackStep;
  }

  // --- Whole runs

  /** A message that was there and is there again was there all along. */
  lemma {:induction false} NoReturn(tr: seq<Call>, ds: seq<Database>, rs: seq<Reply>, i: nat, j: nat, x: Id)
    requires FreshTrace(tr) && Runs(tr, ds, rs) && i <= j < |tr|
    requires x in ds[i].messages && x in ds[j + 1].messages
    ensures x in ds[j].messages
  {
    hide FreshTrace, Steps, Unused, Consistent;
    RunsConsistent(tr, ds, rs, i);
    RunsConsistent(tr, ds, rs, j);
    StepMessages(ds[j], tr[j], ds[j + 1], rs[j]);
    if x !in ds[j].messages {
      var h :| 0 <= h < i && Draws(tr[..i][h], x);
      DrawnOnce(tr, h, j, x);
    }
  }

  lemma DrawnOnce(tr: seq<Call>, h: nat, j: nat, x: Id)
    requires FreshTrace(tr) && h < j < |tr|
    ensures !(Draws(tr[h], x) && Draws(tr[j], x))
  {
  }

  /** A message row is the same at any two points of a run. */
  lemma {:induction false} RowStays(tr: seq<Call>, ds: seq<Database>, rs: seq<Reply>, i: nat, j: nat, x: Id)
    requires FreshTrace(tr) && Runs(tr, ds, rs) && i <= j <= |tr|
    requires x in ds[i].messages && x in ds[j].messages
    ensures ds[i].messages[x] == ds[j].messages[x]
    decreases j
  {
    hide FreshTrace, Steps, Unused, Consistent;
    if i < j {
      NoReturn(tr, ds, rs, i, j - 1, x);
      RowStays(tr, ds, rs, i, j - 1, x);
      RunsConsistent(tr, ds, rs, j - 1);
      StepMessages(ds[j - 1], tr[j - 1], ds[j], rs[j - 1]);
    }
  }

  lemma {:induction false} RatedSometime(tr: seq<Call>, ds: seq<Database>, k: FeedbackKey) returns (i: nat)
    requires |ds| >= |tr| && LastRating(tr, ds, k).Some?
    ensures i < |tr| && Rates(ds[i], tr[i], k)
  {
    i := |tr| - 1;
    if !Rates(ds[i], tr[i], k) {
      i := RatedSometime(tr[..i], ds, k);
    }
  }

  /** In every run, under any clock and any branches, a feedback row is there exactly when its message is still there
      and somebody rated it, and it is what the last successful upsert under its key wrote. */
  lemma {:induction false} StoredIsLastRating(tr: seq<Call>, ds: seq<Database>, rs: seq<Reply>, n: nat, k: FeedbackKey)
    requires FreshTrace(tr) && Runs(tr, ds, rs) && n <= |tr|
    ensures k in ds[n].feedback <==> LastRating(tr[..n], ds, k).Some? && k.messageId in ds[n].messages
    ensures k in ds[n].feedback ==> LastRating(tr[..n], ds, k) == Some(ds[n].feedback[k])
  {
    hide FreshTrace, Steps, Unused, Consistent;
    if n > 0 {
      StoredIsLastRating(tr, ds, rs, n - 1, k);
      RunsConsistent(tr, ds, rs, n - 1);
      StepFeedback(ds[n - 1], tr[n - 1], ds[n], rs[n - 1], k);
      assert tr[..n][..n - 1] == tr[..n - 1];
      if LastRating(tr[..n - 1], ds, k).Some? && k.messageId in ds[n].messages {
        var i := RatedSometime(tr[..n - 1], ds, k);
        NoReturn(tr, ds, rs, i, n - 1, k.messageId);
      }
    }
  }

  /** GetFeedback returns exactly what the caller last wrote for the message while the message lives, and NotFound
      when it never did or the message is gone. */
  lemma LastWriterWins(tr: seq<Call>, ds: seq<Database>, rs: seq<Reply>, n: nat, e: Call, d': Database, r: Reply)
    requires FreshTrace(tr) && Runs(tr, ds, rs) && n <= |tr| && e.op.GetFeedback?
    ensures Steps(ds[n], e, d', r) <==>
      && d' == ds[n]
      && r == match LastRating(tr[..n], ds, FeedbackKey(e.sub, e.op.messageId))
              case Some(f) => if e.op.messageId in ds[n].messages then OneFeedback(f) else Failed(NotFound)
              case None => Failed(NotFound)
  {
    hide FreshTrace, Steps, LastRating;
    GetSteps(ds[n], e, d', r);
    StoredIsLastRating(tr, ds, rs, n, FeedbackKey(e.sub, e.op.messageId));
  }

  /** In any run at most one subject ever rates a message. */
  lemma OneRaterPerMessage(tr: seq<Call>, ds: seq<Database>, rs: seq<Reply>, i: nat, j: nat, k: FeedbackKey, l: FeedbackKey)
    requires FreshTrace(tr) && Runs(tr, ds, rs) && i < |tr| && j < |tr| && k.messageId == l.messageId
    requires Rates(ds[i], tr[i], k) && Rates(ds[j], tr[j], l)
    ensures k.sub == l.sub
  {
    hide FreshTrace, Runs;
    if i <= j {
      RowStays(tr, ds, rs, i, j, k.messageId);
    } else {
      RowStays(tr, ds, rs, j, i, k.messageId);
    }
  }
}
