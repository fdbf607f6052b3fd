/** The order of ListConversations, read off the trace. */
module Recency {
  import opened StoreTypes
  import opened MemorySpec
  import opened MemoryInvariants

  /** The call creates, renames, appends to, or branches into conversation `c`. */
  predicate Touches(s: State, e: Call, c: Id) {
    && Succeeds(s, e)
    && match e.op
       case CreateConversation(_) => e.mint(0) == c
       case BranchFromMessage(_, _) => e.mint(0) == c
       case RenameConversation(d, _) => d == c
       case AppendMessage(d, _, _) => d == c
       case _ => false
  }

  /** The position of the last call that touched `c`, or -1. */
  function LastTouch(tr: seq<Call>, c: Id): (t: int)
    ensures -1 <= t < |tr|
  {
    if tr == [] then -1
    else if Touches(Run(tr[..|tr| - 1]), tr[|tr| - 1], c) then |tr| - 1
    else LastTouch(tr[..|tr| - 1], c)
  }

  lemma StepTouch(s: State, e: Call, c: Id)
    requires Inv(s) && FreshFor(s, e.mint) && c in Next(s, e).convs
    ensures if Touches(s, e, c) then Next(s, e).convs[c].updatedAt == e.now
            else c in s.convs && Next(s, e).convs[c].updatedAt == s.convs[c].updatedAt
  {
    assert !Known(s, e.mint(0));
  }

  /** The update time of a live conversation is the clock reading of the last call that touched it. */
  lemma {:induction false} UpdatedAtIsLastTouch(tr: seq<Call>, c: Id)
    requires FreshTrace(tr) && c in Run(tr).convs
    ensures LastTouch(tr, c) >= 0 && Run(tr).convs[c].updatedAt == tr[LastTouch(tr, c)].now
  {
    if tr != [] {
      var n := |tr| - 1;
      FreshPrefix(tr, n);
      At(tr, n);
      assert tr[..n + 1] == tr;
      StepTouch(Run(tr[..n]), tr[n], c);
      if !Touches(Run(tr[..n]), tr[n], c) {
        UpdatedAtIsLastTouch(tr[..n], c);
      }
    }
  }

  /** Whatever the map iteration order, a listing names each of the caller's live conversations once,
      and under a strict clock it runs from the most recently touched to the least. */
  lemma ListingIsByLastTouch(tr: seq<Call>, sub: Subject, cs: seq<Conversation>)
    requires FreshTrace(tr) && StrictClock(tr) && IsListing(Run(tr).convs, sub, cs)
    ensures forall i :: 0 <= i < |cs| ==> Owns(Run(tr), sub, cs[i].id) && cs[i] == Run(tr).convs[cs[i].id]
    ensures forall c :: Owns(Run(tr), sub, c) ==> exists i :: 0 <= i < |cs| && cs[i].id == c
    ensures forall i, j :: 0 <= i < j < |cs| ==> LastTouch(tr, cs[i].id) > LastTouch(tr, cs[j].id)
  {
    Reachable(tr);
    var s := Run(tr);
    forall i | 0 <= i < |cs| ensures Owns(s, sub, cs[i].id) && cs[i] == s.convs[cs[i].id] {
      assert cs[i] in Owned(s.convs, sub);
    }
    forall c | Owns(s, sub, c) ensures exists i :: 0 <= i < |cs| && cs[i].id == c {
      assert s.convs[c] in Owned(s.convs, sub);
    }
    forall i, j | 0 <= i < j < |cs| ensures LastTouch(tr, cs[i].id) > LastTouch(tr, cs[j].id) {
      UpdatedAtIsLastTouch(tr, cs[i].id);
      UpdatedAtIsLastTouch(tr, cs[j].id);
      if LastTouch(tr, cs[i].id) == LastTouch(tr, cs[j].id) {
        OneTouched(tr, LastTouch(tr, cs[i].id), cs[i].id, cs[j].id);
      }
    }
  }

  lemma {:induction false} TouchedAt(tr: seq<Call>, c: Id)
    ensures var t := LastTouch(tr, c); t >= 0 ==> Touches(Run(tr[..t]), tr[t], c)
  {
    if tr != [] && !Touches(Run(tr[..|tr| - 1]), tr[|tr| - 1], c) {
      TouchedAt(tr[..|tr| - 1], c);
      var t := LastTouch(tr, c);
      if t >= 0 {
        assert tr[..|tr| - 1][..t] == tr[..t];
      }
    }
  }

  /** One call touches one conversation. */
  lemma OneTouched(tr: seq<Call>, t: int, c: Id, d: Id)
    requires t == LastTouch(tr, c) == LastTouch(tr, d) && t >= 0
    ensures c == d
  {
    TouchedAt(tr, c);
    TouchedAt(tr, d);
  }

  /** Under a strict clock the listing is fully determined. */
  lemma ListingIsUnique(tr: seq<Call>, sub: Subject, cs: seq<Conversation>, ds: seq<Conversation>)
    requires FreshTrace(tr) && StrictClock(tr)
    requires IsListing(Run(tr).convs, sub, cs) && IsListing(Run(tr).convs, sub, ds)
    ensures cs == ds
  {
    StrictlyNewestFirst(tr, sub, cs);
    StrictlyNewestFirst(tr, sub, ds);
    SortedEnumerationIsUnique(cs, ds, Owned(Run(tr).convs, sub));
  }

  ghost predicate StrictlySorted(cs: seq<Conversation>) {
    forall i, j :: 0 <= i < j < |cs| ==> cs[i].updatedAt > cs[j].updatedAt
  }

  lemma StrictlyNewestFirst(tr: seq<Call>, sub: Subject, cs: seq<Conversation>)
    requires FreshTrace(tr) && StrictClock(tr) && IsListing(Run(tr).convs, sub, cs)
    ensures StrictlySorted(cs)
  {
    ListingIsByLastTouch(tr, sub, cs);
    forall i, j | 0 <= i < j < |cs| ensures cs[i].updatedAt > cs[j].updatedAt {
      UpdatedAtIsLastTouch(tr, cs[i].id);
      UpdatedAtIsLastTouch(tr, cs[j].id);
    }
  }

  lemma {:induction false} SortedEnumerationIsUnique(cs: seq<Conversation>, ds: seq<Conversation>, s: set<Conversation>)
    requires Enumerates(cs, s) && Enumerates(ds, s) && StrictlySorted(cs) && StrictlySorted(ds)
    ensures cs == ds
  {
    if cs == [] {
      assert s == {};
    } else {
      assert cs[0] in s;
      assert cs[0] in ds && ds[0] in cs;
      assert cs[0] == ds[0];
      var rest := s - {cs[0]};
      assert Enumerates(cs[1..], rest) by { TailEnumerates(cs, s); }
      assert Enumerates(ds[1..], rest) by { TailEnumerates(ds, s); }
      SortedEnumerationIsUnique(cs[1..], ds[1..], rest);
    }
  }

  lemma TailEnumerates<T>(xs: seq<T>, s: set<T>)
    requires xs != [] && Enumerates(xs, s)
    ensures Enumerates(xs[1..], s - {xs[0]})
  {
    forall x | x in s - {xs[0]} ensures x in xs[1..] {
      var i :| 0 <= i < |xs| && xs[i] == x;
      assert xs[1..][i - 1] == x;
    }
  }
}
