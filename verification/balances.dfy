/** Holder balances of one share ledger and their total. */
module Balances {
  import opened Types

  type BalanceMap = map<Principal, nat>

  /** A holder's balance; a holder never seen holds zero. */
  function BalanceOf(m: BalanceMap, h: Principal): nat
  {
    if h in m then m[h] else 0
  }

  /** Some holder of a non-empty map, chosen once so that `Total` and the
      lemmas about it make the same choice. */
  ghost function SomeHolder(m: BalanceMap): (h: Principal)
    requires m != map[]
    ensures h in m
  {
    var h :| h in m; h
  }

  /** The sum of all balances in the map. */
  ghost function Total(m: BalanceMap): nat
    decreases |m|
  {
    if m == map[] then 0
    else
      var h := SomeHolder(m);
      assert |m - {h}| < |m| by { assert (m - {h}).Keys == m.Keys - {h}; }
      m[h] + Total(m - {h})
  }

  /** Any holder's balance can be split off the total, not only the one
      `Total` happens to pick. */
  lemma {:induction false} TotalSplit(m: BalanceMap, h: Principal)
    requires h in m
    ensures Total(m) == m[h] + Total(m - {h})
    decreases |m|
  {
    var g := SomeHolder(m);
    assert |m - {g}| < |m| by { assert (m - {g}).Keys == m.Keys - {g}; }
    if g != h {
      var mg := m - {g};
      var mh := m - {h};
      assert h in mg && g in mh;
      assert |mg| < |m|;
      assert |mh| < |m| by { assert mh.Keys == m.Keys - {h}; }
      TotalSplit(mg, h);
      TotalSplit(mh, g);
      assert mg - {h} == mh - {g};
    }
  }

  /** Overwriting one balance changes the total by exactly the difference. */
  lemma TotalUpdate(m: BalanceMap, h: Principal, v: nat)
    ensures Total(m[h := v]) + BalanceOf(m, h) == Total(m) + v
  {
    var m' := m[h := v];
    TotalSplit(m', h);
    if h in m {
      TotalSplit(m, h);
      assert m' - {h} == m - {h};
    } else {
      assert m' - {h} == m;
    }
  }

  /** Crediting `k` shares to a holder. */
  function Credit(m: BalanceMap, h: Principal, k: nat): (m': BalanceMap)
    ensures BalanceOf(m', h) == BalanceOf(m, h) + k
    ensures forall g :: g != h ==> BalanceOf(m', g) == BalanceOf(m, g)
  {
    m[h := BalanceOf(m, h) + k]
  }

  /** Debiting `k` shares from a holder who has at least `k`. */
  function Debit(m: BalanceMap, h: Principal, k: nat): (m': BalanceMap)
    requires k <= BalanceOf(m, h)
    ensures BalanceOf(m', h) + k == BalanceOf(m, h)
    ensures forall g :: g != h ==> BalanceOf(m', g) == BalanceOf(m, g)
  {
    m[h := BalanceOf(m, h) - k]
  }

  /** A credit adds exactly `k` to the total. */
  lemma {:induction false} CreditTotal(m: BalanceMap, h: Principal, k: nat)
    ensures Total(Credit(m, h, k)) == Total(m) + k
  {
    TotalUpdate(m, h, BalanceOf(m, h) + k);
  }

  /** A debit removes exactly `k` from the total. */
  lemma {:induction false} DebitTotal(m: BalanceMap, h: Principal, k: nat)
    requires k <= BalanceOf(m, h)
    ensures Total(Debit(m, h, k)) + k == Total(m)
  {
    TotalUpdate(m, h, BalanceOf(m, h) - k);
  }

  /** No single balance exceeds the total. */
  lemma {:induction false} BalanceBelowTotal(m: BalanceMap, h: Principal)
    ensures BalanceOf(m, h) <= Total(m)
  {
    if h in m {
      TotalSplit(m, h);
    }
  }
}
