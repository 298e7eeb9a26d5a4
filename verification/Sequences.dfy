/** Facts about sequences and the elements they hold. */
module Sequences {
  ghost predicate NoDuplicates<T>(s: seq<T>) {
    forall i, j :: 0 <= i < j < |s| ==> s[i] != s[j]
  }

  lemma Associative<T>(a: seq<T>, b: seq<T>, c: seq<T>)
    ensures a + b + c == a + (b + c)
  {}

  lemma SameMembers<T>(s: seq<T>, t: seq<T>, x: T)
    requires multiset(s) == multiset(t)
    ensures x in s <==> x in t
  {
    assert x in s <==> x in multiset(s);
  }

  lemma FrontMultiset<T>(s: seq<T>)
    requires s != []
    ensures multiset(s) == multiset(s[..|s| - 1]) + multiset{s[|s| - 1]}
  {
    assert s == s[..|s| - 1] + [s[|s| - 1]];
  }

  lemma TailMultiset<T>(s: seq<T>)
    requires s != []
    ensures multiset(s[1..]) == multiset(s) - multiset{s[0]}
  {
    assert s == [s[0]] + s[1..];
  }

  lemma Rejoin<T>(s: seq<T>, t: seq<T>)
    requires s != [] && t != [] && s[0] == t[0] && s[1..] == t[1..]
    ensures s == t
  {
    assert s == [s[0]] + s[1..] && t == [t[0]] + t[1..];
  }

  lemma TwiceIn<T>(t: seq<T>, i: nat, j: nat)
    requires i < j < |t| && t[i] == t[j]
    ensures multiset(t)[t[i]] >= 2
  {
    assert t == t[..i] + [t[i]] + t[i + 1..j] + [t[j]] + t[j + 1..];
  }

  lemma {:induction false} UniqueCount<T>(s: seq<T>, x: T)
    requires NoDuplicates(s)
    ensures multiset(s)[x] <= 1
  {
    if s != [] {
      UniqueCount(s[1..], x);
      assert s == [s[0]] + s[1..];
      if s[0] == x {
        assert x !in s[1..];
      }
    }
  }

  // The elements that pass a test, in order.
  function Keep<T>(p: T -> bool, xs: seq<T>): seq<T> {
    if xs == [] then []
    else if p(xs[|xs| - 1]) then Keep(p, xs[..|xs| - 1]) + [xs[|xs| - 1]]
    else Keep(p, xs[..|xs| - 1])
  }

  lemma {:induction false} KeepCounts<T(!new)>(p: T -> bool, xs: seq<T>)
    ensures forall x :: multiset(Keep(p, xs))[x] == if p(x) then multiset(xs)[x] else 0
  {
    if xs != [] {
      KeepCounts(p, xs[..|xs| - 1]);
      assert xs == xs[..|xs| - 1] + [xs[|xs| - 1]];
    }
  }

  lemma KeepMembers<T(!new)>(p: T -> bool, xs: seq<T>, x: T)
    ensures x in Keep(p, xs) <==> x in xs && p(x)
  {
    KeepCounts(p, xs);
    assert x in xs <==> multiset(xs)[x] > 0;
    assert x in Keep(p, xs) <==> multiset(Keep(p, xs))[x] > 0;
  }

  lemma {:induction false} KeepSplits<T>(p: T -> bool, xs: seq<T>, ys: seq<T>)
    ensures Keep(p, xs + ys) == Keep(p, xs) + Keep(p, ys)
  {
    if ys == [] {
      assert xs + ys == xs;
    } else {
      var front := ys[..|ys| - 1];
      KeepSplits(p, xs, front);
      assert (xs + ys)[..|xs + ys| - 1] == xs + front;
    }
  }

  // x stands somewhere before y.
  ghost predicate InTurn<T>(s: seq<T>, x: T, y: T) {
    exists i, j :: 0 <= i < j < |s| && s[i] == x && s[j] == y
  }

  lemma InTurnOneWay<T>(s: seq<T>, x: T, y: T)
    requires NoDuplicates(s) && InTurn(s, x, y)
    ensures !InTurn(s, y, x)
  {}

  lemma RemoveOne<T(!new)>(more: seq<T>, i: nat, front: seq<T>, x: T)
    requires i < |more| && more[i] == x && multiset(front + [x]) <= multiset(more)
    ensures multiset(front) <= multiset(more[..i] + more[i + 1..])
  {
    assert more == more[..i] + [x] + more[i + 1..];
    assert multiset(more) == multiset(more[..i] + more[i + 1..]) + multiset{x};
    forall y ensures multiset(front)[y] <= multiset(more[..i] + more[i + 1..])[y] {
      assert multiset(front + [x])[y] <= multiset(more)[y];
    }
  }

  lemma InTurnNotHead<T>(s: seq<T>, x: T, y: T)
    requires NoDuplicates(s) && InTurn(s, x, y)
    ensures s != [] && s[0] != y
  {}

  lemma {:induction false} KeepKeepsTurns<T(!new)>(p: T -> bool, xs: seq<T>, x: T, y: T)
    requires InTurn(xs, x, y) && p(x) && p(y)
    ensures InTurn(Keep(p, xs), x, y)
  {
    var i, j :| 0 <= i < j < |xs| && xs[i] == x && xs[j] == y;
    var head, tail := xs[..j], xs[j..];
    assert xs == head + tail && head[i] == x && tail[0] == y;
    KeepSplits(p, head, tail);
    KeepMembers(p, head, x);
    KeepMembers(p, tail, y);
    var k :| 0 <= k < |Keep(p, head)| && Keep(p, head)[k] == x;
    var l :| 0 <= l < |Keep(p, tail)| && Keep(p, tail)[l] == y;
    assert Keep(p, xs)[k] == x && Keep(p, xs)[|Keep(p, head)| + l] == y;
  }

  // One occurrence of x taken out.
  lemma Extract<T>(s: seq<T>, x: T) returns (rest: seq<T>)
    requires x in s
    ensures multiset([x] + rest) == multiset(s)
  {
    var i :| 0 <= i < |s| && s[i] == x;
    rest := s[..i] + s[i + 1..];
    assert s == s[..i] + [x] + s[i + 1..];
  }

  lemma ExtractTwo<T>(s: seq<T>, x: T, y: T) returns (rest: seq<T>)
    requires x in s && y in s && x != y
    ensures multiset([x, y] + rest) == multiset(s)
  {
    var without := Extract(s, x);
    SameMembers([x] + without, s, y);
    rest := Extract(without, y);
    assert [x, y] + rest == [x] + ([y] + rest);
  }
}
