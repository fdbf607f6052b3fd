/** Feedback is last-writer-wins over whole runs. */
module FeedbackHistory {
  import opened StoreTypes
  import opened MemorySpec
  import opened MemoryInvariants

  /** The call writes the entry under the key: the caller rates, as good or bad, a message it owns. */
  predicate Rates(s: State, e: Call, k: FeedbackKey) {
    && e.op.UpsertFeedback? && e.sub == k.sub && e.op.messageId == k.messageId
    && (e.op.rating == "good" || e.op.rating == "bad") && Visible(s, e.sub, e.op.messageId)
  }

  /** What the last successful upsert under the key wrote. */
  function LastRating(tr: seq<Call>, k: FeedbackKey): Option<Feedback> {
    if tr == [] then None
    else
      var e := tr[|tr| - 1];
      if Rates(Run(tr[..|tr| - 1]), e, k) then Some(Feedback(k.messageId, k.sub, e.op.rating, e.op.comment, e.now))
      else LastRating(tr[..|tr| - 1], k)
  }

  lemma {:induction false} StoredIsLastRating(tr: seq<Call>, k: FeedbackKey)
    ensures if k in Run(tr).fb then LastRating(tr, k) == Some(Run(tr).fb[k]) else LastRating(tr, k) == None
  {
    if tr != [] {
      StoredIsLastRating(tr[..|tr| - 1], k);
    }
  }

  /** GetFeedback returns exactly what the caller last wrote for the message, and NotFound if it never did;
      deleting the conversation does not change that. */
  lemma LastWriterWins(tr: seq<Call>, e: Call, r: Reply)
    requires e.op.GetFeedback?
    ensures Allows(Run(tr), e, r) <==>
      r == match LastRating(tr, FeedbackKey(e.sub, e.op.messageId))
           case Some(f) => OneFeedback(f)
           case None => Failed(NotFound)
  {
    StoredIsLastRating(tr, FeedbackKey(e.sub, e.op.messageId));
  }

  lemma {:induction false} RatingIsKept(tr: seq<Call>, i: nat, k: FeedbackKey)
    requires i < |tr| && Rates(Run(tr[..i]), tr[i], k)
    ensures LastRating(tr, k).Some?
  {
    var n := |tr| - 1;
    if i < n {
      assert tr[..n][..i] == tr[..i];
      RatingIsKept(tr[..n], i, k);
    }
  }

  /** For every message at most one subject ever gets feedback stored in a run. */
  lemma OneRaterPerMessage(tr: seq<Call>, i: nat, j: nat, k: FeedbackKey, l: FeedbackKey)
    requires FreshTrace(tr) && i < |tr| && j < |tr| && k.messageId == l.messageId
    requires Rates(Run(tr[..i]), tr[i], k) && Rates(Run(tr[..j]), tr[j], l)
    ensures k.sub == l.sub
  {
    Reachable(tr);
    RatingIsKept(tr, i, k);
    RatingIsKept(tr, j, l);
    StoredIsLastRating(tr, k);
    StoredIsLastRating(tr, l);
  }
}
