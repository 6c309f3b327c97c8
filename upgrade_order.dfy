/** The per-frame ordering of the upgrade list: sorted by ascending price,
    and each visible upgrade ranked by its position among the visible ones. */
module UpgradeOrder {
  import opened Entities

  predicate SortedByPrice(us: seq<Upgrade>) {
    forall i, j :: 0 <= i < j < |us| ==> us[i].price <= us[j].price
  }

  /** An upgrade no dearer than the head of a sorted list can go in front of it. */
  lemma SortedCons(x: Upgrade, s: seq<Upgrade>)
    requires SortedByPrice(s)
    requires |s| > 0 ==> x.price <= s[0].price
    ensures SortedByPrice([x] + s)
  {
  }

  /** Inserts `u` before the first upgrade that is at least as expensive. */
  function InsertByPrice(u: Upgrade, us: seq<Upgrade>): (r: seq<Upgrade>)
    requires SortedByPrice(us)
    ensures SortedByPrice(r)
    ensures multiset(r) == multiset(us) + multiset{u}
    ensures |r| > 0 && (r[0] == u || (|us| > 0 && r[0] == us[0]))
  {
    if us == [] || u.price <= us[0].price then
      [u] + us
    else
      var rest := InsertByPrice(u, us[1..]);
      SortedCons(us[0], rest);
      assert us == [us[0]] + us[1..];
      [us[0]] + rest
  }

  /** A reference sort by ascending price, standing for the host's
      `Array.prototype.sort` with the comparator `u1.price - u2.price`. */
  function SortByPrice(us: seq<Upgrade>): (r: seq<Upgrade>)
    ensures SortedByPrice(r)
    ensures multiset(r) == multiset(us)
  {
    if us == [] then []
    else
      assert us == [us[0]] + us[1..];
      InsertByPrice(us[0], SortByPrice(us[1..]))
  }

  /** `us.filter(u => u.unlocked && !u.owned)`. */
  function VisibleUpgrades(us: seq<Upgrade>): (r: seq<Upgrade>)
  {
    if us == [] then []
    else VisibleUpgrades(us[..|us| - 1]) + (if Visible(us[|us| - 1]) then [us[|us| - 1]] else [])
  }

  /** The index the display gives the upgrade at position `i`: its position
      among the visible upgrades, or -1 (what `indexOf` answers) when hidden. */
  function Rank(us: seq<Upgrade>, i: int): int
    requires 0 <= i < |us|
  {
    if Visible(us[i]) then |VisibleUpgrades(us[..i])| else -1
  }

  /** The ranking pass of the frame: one rank per upgrade, in list order. */
  method RankUpgrades(us: seq<Upgrade>) returns (ranks: seq<int>)
    ensures |ranks| == |us|
    ensures forall i :: 0 <= i < |us| ==> ranks[i] == Rank(us, i)
    ensures forall i :: 0 <= i < |us| ==> (0 <= ranks[i] <==> Visible(us[i]))
    ensures forall i :: 0 <= i < |us| ==> ranks[i] < |VisibleUpgrades(us)|
  {
    ranks := [];
    var shown := 0;
    var i := 0;
    while i < |us|
      invariant 0 <= i <= |us|
      invariant |ranks| == i
      invariant shown == |VisibleUpgrades(us[..i])|
      invariant forall k :: 0 <= k < i ==> ranks[k] == Rank(us, k)
    {
      assert us[..i + 1][..i] == us[..i];
      if Visible(us[i]) {
        ranks := ranks + [shown];
        shown := shown + 1;
      } else {
        ranks := ranks + [-1];
      }
      i := i + 1;
    }
    assert us[..|us|] == us;
    forall k | 0 <= k < |us| ensures ranks[k] < |VisibleUpgrades(us)| {
      if Visible(us[k]) {
        RankIndexesVisible(us, k);
      }
    }
  }

  /** Filtering a prefix gives a prefix of the filtered list. */
  lemma {:induction false} VisiblePrefix(us: seq<Upgrade>, n: nat)
    requires n <= |us|
    ensures VisibleUpgrades(us[..n]) <= VisibleUpgrades(us)
    decreases |us|
  {
    if n < |us| {
      var init := us[..|us| - 1];
      assert init[..n] == us[..n];
      VisiblePrefix(init, n);
    } else {
      assert us[..n] == us;
    }
  }

  /** The rank of a visible upgrade is its index in the filtered list, which is
      what `filter(...).indexOf(upgrade)` returns for a distinct object. */
  lemma RankIndexesVisible(us: seq<Upgrade>, i: int)
    requires 0 <= i < |us| && Visible(us[i])
    ensures 0 <= Rank(us, i) < |VisibleUpgrades(us)|
    ensures VisibleUpgrades(us)[Rank(us, i)] == us[i]
  {
    var pre := us[..i + 1];
    assert pre[..i] == us[..i];
    assert VisibleUpgrades(pre) == VisibleUpgrades(us[..i]) + [us[i]];
    VisiblePrefix(us, i + 1);
  }

  /** Rank grows by one at each visible upgrade and not at a hidden one. */
  lemma VisibleCountStep(us: seq<Upgrade>, i: int)
    requires 0 <= i < |us|
    ensures |VisibleUpgrades(us[..i + 1])| == |VisibleUpgrades(us[..i])| + (if Visible(us[i]) then 1 else 0)
  {
    assert us[..i + 1][..i] == us[..i];
  }

  lemma {:induction false} VisibleCountMonotone(us: seq<Upgrade>, i: int, j: int)
    requires 0 <= i <= j <= |us|
    ensures |VisibleUpgrades(us[..i])| <= |VisibleUpgrades(us[..j])|
    decreases j - i
  {
    if i < j {
      VisibleCountStep(us, j - 1);
      VisibleCountMonotone(us, i, j - 1);
    }
  }

  /** Later visible upgrades have strictly larger ranks, so visible ranks are distinct. */
  lemma RankStrictlyIncreasing(us: seq<Upgrade>, i: int, j: int)
    requires 0 <= i < j < |us| && Visible(us[i]) && Visible(us[j])
    ensures 0 <= Rank(us, i) < Rank(us, j)
  {
    VisibleCountStep(us, i);
    VisibleCountMonotone(us, i + 1, j);
  }

  /** Every rank 0..k-1, for k visible upgrades, is taken by some upgrade. */
  lemma {:induction false} RanksCover(us: seq<Upgrade>, r: int)
    requires 0 <= r < |VisibleUpgrades(us)|
    ensures exists i :: 0 <= i < |us| && Rank(us, i) == r
    decreases |us|
  {
    var n := |us| - 1;
    var init := us[..n];
    assert us[..n] == init;
    if r < |VisibleUpgrades(init)| {
      RanksCover(init, r);
      var i :| 0 <= i < |init| && Rank(init, i) == r;
      assert us[..i] == init[..i];
      assert Rank(us, i) == r;
    } else {
      assert Visible(us[n]) && r == |VisibleUpgrades(init)|;
      assert Rank(us, n) == r;
    }
  }

  /** On a list sorted by price, a lower rank never has a higher price:
      the visible upgrades are ranked 0..k-1 in ascending price. */
  lemma RankFollowsPrice(us: seq<Upgrade>, i: int, j: int)
    requires SortedByPrice(us)
    requires 0 <= i < |us| && 0 <= j < |us| && Visible(us[i]) && Visible(us[j])
    requires Rank(us, i) < Rank(us, j)
    ensures us[i].price <= us[j].price
  {
    if j < i {
      RankStrictlyIncreasing(us, j, i);
    }
  }
}
