/** Walking an ordered map: `std::map` iterates in ascending key order, here the keys below a bound. */
module OrderedKeys {
  /** One more than the largest key, zero for no keys. */
  ghost function Bound(keys: set<nat>): (n: nat)
    ensures forall k :: k in keys ==> k < n
  {
    if keys == {} then 0
    else
      var k :| k in keys;
      var rest := Bound(keys - {k});
      assert forall j :: j in keys ==> j == k || j in keys - {k};
      if k < rest then rest else k + 1
  }

  method ComputeBound(keys: set<nat>) returns (n: nat)
    ensures n >= Bound(keys) && forall k :: k in keys ==> k < n
  {
    n := 0;
    var todo := keys;
    while todo != {}
      invariant todo <= keys
      invariant forall k :: k in keys && k !in todo ==> k < n
      decreases todo
    {
      var k :| k in todo;
      if k >= n { n := k + 1; }
      todo := todo - {k};
    }
    BoundLeast(keys, n);
  }

  lemma {:induction false} BoundLeast(keys: set<nat>, n: nat)
    requires forall k :: k in keys ==> k < n
    ensures Bound(keys) <= n
    decreases |keys|
  {
    if keys != {} {
      var k :| k in keys && Bound(keys) == (var rest := Bound(keys - {k}); if k < rest then rest else k + 1);
      BoundLeast(keys - {k}, n);
    }
  }

  // The keys below n in ascending order.
  function Ascending(keys: set<nat>, n: nat): seq<nat> {
    if n == 0 then [] else if n - 1 in keys then Ascending(keys, n - 1) + [n - 1] else Ascending(keys, n - 1)
  }

  ghost predicate StrictlyAscending(s: seq<nat>) {
    forall i, j :: 0 <= i < j < |s| ==> s[i] < s[j]
  }

  lemma {:induction false} AscendingKeys(keys: set<nat>, n: nat)
    ensures StrictlyAscending(Ascending(keys, n))
    ensures forall k :: k in Ascending(keys, n) <==> k in keys && k < n
  {
    if n > 0 {
      var front := Ascending(keys, n - 1);
      AscendingKeys(keys, n - 1);
      assert forall i :: 0 <= i < |front| ==> front[i] in front;
    }
  }

  lemma {:induction false} AscendingStable(keys: set<nat>, n: nat, m: nat)
    requires n <= m && forall k :: k in keys ==> k < n
    ensures Ascending(keys, n) == Ascending(keys, m)
  {
    if n < m { AscendingStable(keys, n, m - 1); }
  }
}
