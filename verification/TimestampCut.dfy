/** What a cut by `created_at <= t` selects from a conversation whose messages are in time order. */
module TimestampCut {
  import opened StoreTypes

  /** The end of the block of equal times that position p lies in. */
  function TieEnd(ms: seq<Message>, p: nat): (n: nat)
    requires p < |ms|
    ensures p < n <= |ms|
    ensures forall i :: p <= i < n ==> ms[i].createdAt == ms[p].createdAt
    ensures n < |ms| ==> ms[n].createdAt != ms[p].createdAt
    decreases |ms| - p
  {
    if p + 1 < |ms| && ms[p + 1].createdAt == ms[p].createdAt then TieEnd(ms, p + 1) else p + 1
  }

  /** The next message, if any, is strictly later. */
  predicate CleanCut(ms: seq<Message>, p: nat)
    requires p < |ms|
  {
    p + 1 < |ms| ==> ms[p].createdAt < ms[p + 1].createdAt
  }

  /** No message after the first n shares its time with one of them. */
  ghost predicate TieClosed(ms: seq<Message>, n: nat) {
    n <= |ms| && forall i, j :: 0 <= i < n <= j < |ms| ==> ms[i].createdAt != ms[j].createdAt
  }

  lemma {:induction false} ReachesTieEnd(ms: seq<Message>, p: nat, n: nat)
    requires p < n <= |ms| && TieClosed(ms, n)
    ensures TieEnd(ms, p) <= n
    decreases |ms| - p
  {
    if p + 1 < |ms| && ms[p + 1].createdAt == ms[p].createdAt {
      ReachesTieEnd(ms, p + 1, n);
    }
  }

  /** On messages in time order the timestamp cut at position p selects exactly the shortest prefix that
      contains p and is closed under equal times. */
  lemma CutIsShortestTieClosedPrefix(ms: seq<Message>, p: nat)
    requires OldestFirst(ms) && p < |ms|
    ensures forall i :: 0 <= i < |ms| ==> (ms[i].createdAt <= ms[p].createdAt <==> i < TieEnd(ms, p))
    ensures TieClosed(ms, TieEnd(ms, p))
    ensures forall n: nat :: p < n && TieClosed(ms, n) ==> TieEnd(ms, p) <= n
  {
    var n := TieEnd(ms, p);
    if n < |ms| {
      assert ms[p].createdAt < ms[n].createdAt;
    }
    forall i | n <= i < |ms| ensures ms[n].createdAt <= ms[i].createdAt {
    }
    forall k: nat | p < k && TieClosed(ms, k) ensures n <= k {
      ReachesTieEnd(ms, p, k);
    }
  }

  /** So it agrees with the positional prefix of p + 1 messages exactly when the next message is strictly later. */
  lemma CutIsPositionalIffClean(ms: seq<Message>, p: nat)
    requires OldestFirst(ms) && p < |ms|
    ensures TieEnd(ms, p) == p + 1 <==> CleanCut(ms, p)
  {
  }
}
