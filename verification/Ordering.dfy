/** ORDER BY, and the counting arguments behind the scan's cardinality checks. */
module Ordering {

  predicate Sorted<T>(s: seq<T>, rank: T -> nat) {
    forall i, j :: 0 <= i < j < |s| ==> rank(s[i]) <= rank(s[j])
  }

  predicate Distinct<T(==)>(s: seq<T>) {
    forall i, j :: 0 <= i < j < |s| ==> s[i] != s[j]
  }

  /** `s` lists the keys once each, by rank. */
  predicate Lists<T>(s: seq<T>, keys: set<T>, rank: T -> nat) {
    && Sorted(s, rank) && Distinct(s) && |s| == |keys|
    && (forall i :: 0 <= i < |s| ==> s[i] in keys)
    && (forall k :: k in keys ==> k in s)
  }

  /** A key of least rank. */
  method Least<T(==)>(keys: set<T>, rank: T -> nat) returns (least: T)
    requires keys != {}
    ensures least in keys && forall k :: k in keys ==> rank(least) <= rank(k)
  {
    least :| least in keys;
    var todo := keys - {least};
    while todo != {}
      invariant todo <= keys && least in keys
      invariant forall k :: k in keys - todo ==> rank(least) <= rank(k)
      decreases |todo|
    {
      var k :| k in todo;
      if rank(k) < rank(least) { least := k; }
      todo := todo - {k};
    }
  }

  /** SELECT ... ORDER BY rank. */
  method OrderBy<T(==)>(keys: set<T>, rank: T -> nat) returns (s: seq<T>)
    ensures Lists(s, keys, rank)
  {
    s := [];
    var todo := keys;
    while todo != {}
      invariant todo <= keys && |s| + |todo| == |keys|
      invariant Sorted(s, rank) && Distinct(s)
      invariant forall k :: k in keys ==> k in s || k in todo
      invariant forall i :: 0 <= i < |s| ==> s[i] in keys && s[i] !in todo
      invariant forall i, k :: 0 <= i < |s| && k in todo ==> rank(s[i]) <= rank(k)
      decreases |todo|
    {
      var k := Least(todo, rank);
      s := s + [k];
      todo := todo - {k};
    }
  }

  predicate Increasing<T>(s: seq<T>, rank: T -> nat) {
    forall i, j :: 0 <= i < j < |s| ==> rank(s[i]) < rank(s[j])
  }

  lemma {:induction false} AtLeastPosition<T>(s: seq<T>, rank: T -> nat, i: nat)
    requires Increasing(s, rank) && i < |s|
    ensures i <= rank(s[i])
  {
    if i > 0 { AtLeastPosition(s, rank, i - 1); }
  }

  lemma {:induction false} AtMostPosition<T>(s: seq<T>, rank: T -> nat, i: nat)
    requires Increasing(s, rank) && i < |s| && rank(s[|s| - 1]) < |s|
    ensures rank(s[i]) <= i
    decreases |s| - i
  {
    if i < |s| - 1 { AtMostPosition(s, rank, i + 1); }
  }

  /** Sorted keys whose ranks are distinct and below their number are at their ranks. */
  lemma RankIsPosition<T>(s: seq<T>, rank: T -> nat, i: nat)
    requires Sorted(s, rank) && i < |s|
    requires forall j, k :: 0 <= j < k < |s| ==> rank(s[j]) != rank(s[k])
    requires forall j :: 0 <= j < |s| ==> rank(s[j]) < |s|
    ensures rank(s[i]) == i
  {
    assert Increasing(s, rank);
    AtLeastPosition(s, rank, i);
    AtMostPosition(s, rank, i);
  }

  function Elements<T>(s: seq<T>): set<T> {
    set i | 0 <= i < |s| :: s[i]
  }

  lemma {:induction false} CountOfDistinct<T>(s: seq<T>)
    requires Distinct(s)
    ensures |Elements(s)| == |s|
  {
    if s == [] { return; }
    var init, last := s[..|s| - 1], s[|s| - 1];
    CountOfDistinct(init);
    assert Elements(s) == Elements(init) + {last} by {
      forall x | x in Elements(s) ensures x in Elements(init) + {last} {
        var i :| 0 <= i < |s| && s[i] == x;
        if i < |s| - 1 { assert init[i] == x; }
      }
      forall x | x in Elements(init) ensures x in Elements(s) {
        var i :| 0 <= i < |init| && init[i] == x;
        assert s[i] == x;
      }
    }
    assert last !in Elements(init);
  }

  lemma SubsetOfSameSize<T>(a: set<T>, b: set<T>)
    requires a <= b && |a| == |b|
    ensures a == b
  {
    assert b == a + (b - a);
    assert |b - a| == 0;
  }

  /** Distinct listed keys cover a set that contains them exactly when the counts agree. */
  lemma CoversByCount<T>(keys: set<T>, listed: seq<T>)
    requires Distinct(listed) && forall i :: 0 <= i < |listed| ==> listed[i] in keys
    ensures |keys| == |listed| <==> forall k :: k in keys ==> k in listed
  {
    CountOfDistinct(listed);
    assert Elements(listed) <= keys;
    if |keys| == |listed| {
      SubsetOfSameSize(Elements(listed), keys);
    }
    if forall k :: k in keys ==> k in listed {
      assert keys == Elements(listed);
    }
  }
}
