/** The sort of the ranked survivors.  Sort is a stable insertion sort.  Under a strict total order any sorted
    permutation is the same one, so neither the algorithm nor the order of the input matters; without one, elements
    that the order does not compare keep here the order they came in. */
module Sorting {
  import opened Sequences

  // Moves x left past every element it precedes.
  function Insert<T>(less: (T, T) -> bool, x: T, s: seq<T>): seq<T> {
    if s == [] then [x]
    else if less(x, s[|s| - 1]) then Insert(less, x, s[..|s| - 1]) + [s[|s| - 1]]
    else s + [x]
  }

  function Sort<T>(less: (T, T) -> bool, xs: seq<T>): seq<T> {
    if xs == [] then [] else Insert(less, xs[|xs| - 1], Sort(less, xs[..|xs| - 1]))
  }

  ghost predicate Sorted<T>(less: (T, T) -> bool, s: seq<T>) {
    forall i, j :: 0 <= i < j < |s| ==> less(s[i], s[j])
  }

  ghost predicate StrictTotalOn<T(!new)>(less: (T, T) -> bool, dom: iset<T>) {
    && (forall a :: a in dom ==> !less(a, a))
    && (forall a, b, c :: a in dom && b in dom && c in dom && less(a, b) && less(b, c) ==> less(a, c))
    && (forall a, b :: a in dom && b in dom && a != b ==> less(a, b) || less(b, a))
  }

  lemma {:induction false} InsertPermutes<T>(less: (T, T) -> bool, x: T, s: seq<T>)
    ensures multiset(Insert(less, x, s)) == multiset(s) + multiset{x}
  {
    if s != [] && less(x, s[|s| - 1]) {
      InsertPermutes(less, x, s[..|s| - 1]);
      FrontMultiset(s);
    }
  }

  lemma {:induction false} SortPermutes<T>(less: (T, T) -> bool, xs: seq<T>)
    ensures multiset(Sort(less, xs)) == multiset(xs)
  {
    if xs != [] {
      SortPermutes(less, xs[..|xs| - 1]);
      InsertPermutes(less, xs[|xs| - 1], Sort(less, xs[..|xs| - 1]));
      FrontMultiset(xs);
    }
  }

  lemma {:induction false} InsertMembers<T>(less: (T, T) -> bool, x: T, s: seq<T>, y: T)
    ensures y in Insert(less, x, s) <==> y == x || y in s
  {
    if s != [] && less(x, s[|s| - 1]) { InsertMembers(less, x, s[..|s| - 1], y); }
  }

  lemma SnocSorts<T>(less: (T, T) -> bool, t: seq<T>, l: T)
    requires Sorted(less, t) && forall y :: y in t ==> less(y, l)
    ensures Sorted(less, t + [l])
  {}

  lemma LastIsGreatest<T>(less: (T, T) -> bool, s: seq<T>, y: T)
    requires Sorted(less, s) && y in s
    ensures y == s[|s| - 1] || less(y, s[|s| - 1])
  {
    var k :| 0 <= k < |s| && s[k] == y;
  }

  lemma HeadIsLeast<T>(less: (T, T) -> bool, s: seq<T>, y: T)
    requires Sorted(less, s) && y in s
    ensures y == s[0] || less(s[0], y)
  {
    var k :| 0 <= k < |s| && s[k] == y;
  }

  lemma {:induction false} InsertSorts<T(!new)>(less: (T, T) -> bool, dom: iset<T>, x: T, s: seq<T>)
    requires StrictTotalOn(less, dom) && x in dom && Sorted(less, s)
    requires forall y :: y in s ==> y in dom && y != x
    ensures Sorted(less, Insert(less, x, s))
  {
    if s != [] {
      var front, last := s[..|s| - 1], s[|s| - 1];
      assert last in s;
      if less(x, last) {
        assert forall y :: y in front ==> y in s;
        InsertSorts(less, dom, x, front);
        forall y | y in Insert(less, x, front) ensures less(y, last) {
          InsertMembers(less, x, front, y);
          if y != x {
            var k :| 0 <= k < |front| && front[k] == y;
            assert less(s[k], s[|s| - 1]);
          }
        }
        SnocSorts(less, Insert(less, x, front), last);
      } else {
        forall y | y in s ensures less(y, x) { LastIsGreatest(less, s, y); }
        SnocSorts(less, s, x);
      }
    }
  }

  lemma {:induction false} SortSorts<T(!new)>(less: (T, T) -> bool, dom: iset<T>, xs: seq<T>)
    requires StrictTotalOn(less, dom) && NoDuplicates(xs)
    requires forall x :: x in xs ==> x in dom
    ensures Sorted(less, Sort(less, xs))
  {
    if xs != [] {
      var front, last := xs[..|xs| - 1], xs[|xs| - 1];
      assert forall x :: x in front ==> x in xs;
      SortSorts(less, dom, front);
      SortPermutes(less, front);
      forall y | y in Sort(less, front) ensures y in dom && y != last {
        SameMembers(Sort(less, front), front, y);
        var k :| 0 <= k < |front| && front[k] == y;
        assert xs[k] == y;
      }
      assert last in xs;
      InsertSorts(less, dom, last, Sort(less, front));
    }
  }

  ghost predicate AsymmetricOn<T(!new)>(less: (T, T) -> bool, dom: iset<T>) {
    forall a, b :: a in dom && b in dom && less(a, b) ==> !less(b, a)
  }

  lemma StrictIsAsymmetric<T(!new)>(less: (T, T) -> bool, dom: iset<T>)
    requires StrictTotalOn(less, dom)
    ensures AsymmetricOn(less, dom)
  {
    forall a, b | a in dom && b in dom && less(a, b) ensures !less(b, a) {
      assert !less(a, a);
    }
  }

  lemma SameHead<T(!new)>(less: (T, T) -> bool, dom: iset<T>, s: seq<T>, t: seq<T>)
    requires AsymmetricOn(less, dom) && Sorted(less, s) && Sorted(less, t) && s != [] && t != []
    requires s[0] in t && t[0] in s && s[0] in dom && t[0] in dom
    ensures s[0] == t[0]
  {
    HeadIsLeast(less, s, t[0]);
    HeadIsLeast(less, t, s[0]);
  }

  /** A sorted sequence is determined by its elements. */
  lemma {:induction false} SortedUnique<T(!new)>(less: (T, T) -> bool, dom: iset<T>, s: seq<T>, t: seq<T>)
    requires AsymmetricOn(less, dom) && Sorted(less, s) && Sorted(less, t)
    requires multiset(s) == multiset(t) && forall x :: x in s ==> x in dom
    ensures s == t
  {
    assert |multiset(s)| == |s| && |multiset(t)| == |t|;
    if s != [] {
      SameMembers(s, t, s[0]);
      SameMembers(s, t, t[0]);
      SameHead(less, dom, s, t);
      TailMultiset(s);
      TailMultiset(t);
      assert forall x :: x in s[1..] ==> x in s;
      SortedUnique(less, dom, s[1..], t[1..]);
      Rejoin(s, t);
    }
  }

  // --- elements the order does not compare ----------------------------------------------------

  /** Inserting moves no other element past another. */
  lemma {:induction false} InsertKeepsTurns<T>(less: (T, T) -> bool, z: T, s: seq<T>, x: T, y: T)
    requires InTurn(s, x, y)
    ensures InTurn(Insert(less, z, s), x, y)
  {
    var i, j :| 0 <= i < j < |s| && s[i] == x && s[j] == y;
    var front, r := s[..|s| - 1], Insert(less, z, s);
    if !less(z, s[|s| - 1]) {
      assert r[i] == x && r[j] == y;
    } else if j < |s| - 1 {
      assert front[i] == x && front[j] == y;
      InsertKeepsTurns(less, z, front, x, y);
      var k, l :| 0 <= k < l < |Insert(less, z, front)| && Insert(less, z, front)[k] == x && Insert(less, z, front)[l] == y;
      assert r[k] == x && r[l] == y;
    } else {
      assert front[i] == x;
      InsertMembers(less, z, front, x);
      var k :| 0 <= k < |Insert(less, z, front)| && Insert(less, z, front)[k] == x;
      assert r[k] == x && r[|r| - 1] == y;
    }
  }

  lemma {:induction false} InsertStopsAfter<T>(less: (T, T) -> bool, y: T, s: seq<T>, x: T)
    requires x in s && !less(y, x)
    ensures InTurn(Insert(less, y, s), x, y)
  {
    var i :| 0 <= i < |s| && s[i] == x;
    var r := Insert(less, y, s);
    if less(y, s[|s| - 1]) {
      var front := s[..|s| - 1];
      assert front[i] == x;
      InsertStopsAfter(less, y, front, x);
      var k, l :| 0 <= k < l < |Insert(less, y, front)| && Insert(less, y, front)[k] == x && Insert(less, y, front)[l] == y;
      assert r[k] == x && r[l] == y;
    } else {
      assert r[i] == x && r[|s|] == y;
    }
  }

  /** An element that comes before another one, which the order does not put ahead of it, comes out before it. */
  lemma {:induction false} SortKeepsTurns<T>(less: (T, T) -> bool, xs: seq<T>, x: T, y: T)
    requires InTurn(xs, x, y) && !less(y, x)
    ensures InTurn(Sort(less, xs), x, y)
  {
    var i, j :| 0 <= i < j < |xs| && xs[i] == x && xs[j] == y;
    var front, last := xs[..|xs| - 1], xs[|xs| - 1];
    assert front[i] == x;
    if j < |xs| - 1 {
      assert front[j] == y;
      SortKeepsTurns(less, front, x, y);
      InsertKeepsTurns(less, last, Sort(less, front), x, y);
    } else {
      SortPermutes(less, front);
      SameMembers(Sort(less, front), front, x);
      InsertStopsAfter(less, y, Sort(less, front), x);
    }
  }

  lemma OneSorts<T>(less: (T, T) -> bool, x: T)
    ensures Sort(less, [x]) == [x]
  {
    assert [x][..0] == [];
  }

  lemma PairSorts<T>(less: (T, T) -> bool, x: T, y: T)
    requires !less(y, x)
    ensures Sort(less, [x, y]) == [x, y]
  {
    OneSorts(less, x);
    assert [x, y][..1] == [x];
  }
}
