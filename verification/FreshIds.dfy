/** Fresh identifiers exist: the traces the theorems speak of can be drawn. */
module FreshIds {
  import opened StoreTypes

  function Tally(n: nat): Id {
    seq(n, _ => 'i')
  }

  /** The i-th of n calls draws every n-th identifier. */
  function MintOf(i: nat, n: nat): Mint {
    (k: nat) => Tally(k * n + i)
  }

  lemma {:induction false} NextRow(k: nat, l: nat, n: nat)
    requires k < l
    ensures l * n >= k * n + n
  {
    assert l * n == (l - 1) * n + n;
    if k + 1 < l {
      NextRow(k, l - 1, n);
    }
  }

  lemma OneSlot(i: nat, j: nat, k: nat, l: nat, n: nat)
    requires i < n && j < n && k * n + i == l * n + j
    ensures i == j && k == l
  {
    if k < l {
      NextRow(k, l, n);
    } else if l < k {
      NextRow(l, k, n);
    }
  }

  /** There are n calls' worth of identifiers, none drawn twice. */
  lemma FreshMints(n: nat) returns (mints: seq<Mint>)
    ensures |mints| == n
    ensures forall i :: 0 <= i < n ==> Injective(mints[i])
    ensures forall i, j, k: nat, l: nat :: 0 <= i < j < n ==> mints[i](k) != mints[j](l)
  {
    mints := seq(n, i requires 0 <= i < n => MintOf(i, n));
    forall i, k: nat, l: nat | 0 <= i < n && mints[i](k) == mints[i](l) ensures k == l {
      assert |Tally(k * n + i)| == |Tally(l * n + i)|;
      OneSlot(i, i, k, l, n);
    }
    forall i, j, k: nat, l: nat | 0 <= i < j < n ensures mints[i](k) != mints[j](l) {
      if mints[i](k) == mints[j](l) {
        assert |Tally(k * n + i)| == |Tally(l * n + j)|;
        OneSlot(i, j, k, l, n);
      }
    }
  }

  /** Calls drawing from such mints are a fresh trace. */
  lemma FreshCalls(mints: seq<Mint>, tr: seq<Call>)
    requires |tr| == |mints| && forall i :: 0 <= i < |tr| ==> tr[i].mint == mints[i]
    requires forall i :: 0 <= i < |mints| ==> Injective(mints[i])
    requires forall i, j, k: nat, l: nat :: 0 <= i < j < |mints| ==> mints[i](k) != mints[j](l)
    ensures FreshTrace(tr)
  {
    forall i, j, k: nat, l: nat | 0 <= i < j < |tr| ensures tr[i].mint(k) != tr[j].mint(l) {
      assert mints[i](k) != mints[j](l);
    }
  }
}
