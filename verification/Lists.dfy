/** Lists used as sets: what a list without repetitions guarantees, and ascending order. */
module Lists {

  ghost predicate NoDuplicates<T(!new)>(q: seq<T>) {
    forall i, j :: 0 <= i < j < |q| ==> q[i] != q[j]
  }

  function Elements<T(==, !new)>(q: seq<T>): set<T> {
    set x | x in q
  }

  lemma ElementsOfConcat<T(!new)>(p: seq<T>, q: seq<T>)
    ensures Elements(p + q) == Elements(p) + Elements(q)
  {
  }

  lemma {:induction false} CountOfElements<T(!new)>(q: seq<T>)
    ensures |Elements(q)| <= |q|
    ensures NoDuplicates(q) <==> |Elements(q)| == |q|
  {
    if q == [] {
      assert Elements(q) == {};
    } else {
      var last, rest := q[|q| - 1], q[..|q| - 1];
      CountOfElements(rest);
      assert q == rest + [last];
      assert Elements(q) == Elements(rest) + {last};
      if last in rest {
        assert Elements(q) == Elements(rest);
        assert !NoDuplicates(q);
      } else {
        assert NoDuplicates(q) <==> NoDuplicates(rest);
      }
    }
  }

  lemma SameCountsSameDuplicates<T(!new)>(p: seq<T>, q: seq<T>)
    requires multiset(p) == multiset(q) && NoDuplicates(q)
    ensures NoDuplicates(p)
  {
    CountOfElements(p);
    CountOfElements(q);
    assert |p| == |multiset(p)| == |q|;
    forall x ensures x in p <==> x in q {
      assert x in multiset(p) <==> x in multiset(q);
    }
    assert Elements(p) == Elements(q);
  }

  /** A subset that is as large as the whole is the whole. */
  lemma {:induction false} FullSubset<T>(a: set<T>, b: set<T>)
    requires a <= b && |a| >= |b|
    ensures a == b
  {
    if a != b {
      var x :| x in b && x !in a;
      SubsetIsSmaller(a, b - {x});
    }
  }

  lemma {:induction false} SubsetIsSmaller<T>(a: set<T>, b: set<T>)
    requires a <= b
    ensures |a| <= |b|
  {
    if a != {} {
      var x :| x in a;
      SubsetIsSmaller(a - {x}, b - {x});
    }
  }

  // ----- the comparison that decides whether a report may skip the transaction

  predicate Differs(current: seq<nat>, previous: seq<nat>) {
    |current| != |previous| || exists a :: a in current && a !in previous
  }

  /** When the lists are said not to differ, every current area was in the hint, repetitions or not. */
  lemma SameListsCoverCurrent(current: seq<nat>, previous: seq<nat>)
    requires !Differs(current, previous)
    ensures Elements(current) <= Elements(previous)
    ensures previous == [] ==> current == []
  {
  }

  /** For a current list without repetitions the comparison is exact: "no difference" means equal
      sets and a previous list without repetitions. */
  lemma DiffersIsSetInequality(current: seq<nat>, previous: seq<nat>)
    requires NoDuplicates(current)
    ensures !Differs(current, previous) <==> Elements(current) == Elements(previous) && NoDuplicates(previous)
  {
    CountOfElements(current);
    CountOfElements(previous);
    if !Differs(current, previous) {
      SameListsCoverCurrent(current, previous);
      SubsetIsSmaller(Elements(current), Elements(previous));
      FullSubset(Elements(current), Elements(previous));
    } else if |current| == |previous| {
      var a :| a in current && a !in previous;
      assert a in Elements(current) && a !in Elements(previous);
    }
  }

  /** With repetitions it can miss an exit. */
  lemma RepetitionsHideAnExit()
    ensures !Differs([1, 1], [1, 2]) && Elements([1, 1]) != Elements([1, 2])
  {
    assert 2 in Elements([1, 2]) && 2 !in Elements([1, 1]);
  }

  // ----- ascending order

  ghost predicate Ascending(q: seq<nat>) {
    forall i, j :: 0 <= i < j < |q| ==> q[i] <= q[j]
  }

  ghost predicate StrictlyAscending(q: seq<nat>) {
    forall i, j :: 0 <= i < j < |q| ==> q[i] < q[j]
  }

  function Insert(x: nat, q: seq<nat>): seq<nat> {
    if q == [] || x <= q[0] then [x] + q else [q[0]] + Insert(x, q[1..])
  }

  /** The library's sort. */
  function Sort(q: seq<nat>): seq<nat> {
    if q == [] then [] else Insert(q[0], Sort(q[1..]))
  }

  lemma {:induction false} InsertKeepsAll(x: nat, q: seq<nat>)
    ensures multiset(Insert(x, q)) == multiset(q) + multiset{x}
  {
    if q != [] {
      InsertKeepsAll(x, q[1..]);
      assert q == [q[0]] + q[1..];
    }
  }

  lemma {:induction false} InsertKeepsOrder(x: nat, q: seq<nat>)
    requires Ascending(q)
    ensures Ascending(Insert(x, q))
  {
    if q != [] && x > q[0] {
      var r := Insert(x, q[1..]);
      InsertKeepsOrder(x, q[1..]);
      InsertKeepsAll(x, q[1..]);
      forall i | 0 <= i < |r| ensures q[0] <= r[i] {
        assert r[i] in multiset(r);
        assert r[i] in q[1..] || r[i] == x;
      }
    }
  }

  lemma {:induction false} SortFacts(q: seq<nat>)
    ensures multiset(Sort(q)) == multiset(q)
    ensures Ascending(Sort(q))
    ensures Elements(Sort(q)) == Elements(q)
  {
    if q != [] {
      SortFacts(q[1..]);
      InsertKeepsAll(q[0], Sort(q[1..]));
      InsertKeepsOrder(q[0], Sort(q[1..]));
      assert q == [q[0]] + q[1..];
    }
    forall x ensures x in Sort(q) <==> x in q {
      assert x in multiset(Sort(q)) <==> x in multiset(q);
    }
  }

  lemma {:induction false} SortOfDistinct(q: seq<nat>)
    requires NoDuplicates(q)
    ensures StrictlyAscending(Sort(q))
  {
    SortFacts(q);
    CountOfElements(q);
    var r := Sort(q);
    assert |r| == |multiset(r)| == |multiset(q)| == |q|;
    CountOfElements(r);
  }

  /** A strictly ascending list is determined by its elements. */
  lemma {:induction false} AscendingListIsUnique(p: seq<nat>, q: seq<nat>)
    requires StrictlyAscending(p) && StrictlyAscending(q) && Elements(p) == Elements(q)
    ensures p == q
  {
    CountOfElements(p);
    CountOfElements(q);
    if p != [] {
      var k := |p| - 1;
      assert p[k] in Elements(q) && q[k] in Elements(p);
      assert p[k] == q[k];
      forall x ensures x in Elements(p[..k]) <==> x in Elements(q[..k]) {
        assert x in Elements(p) <==> x in p[..k] || x == p[k];
        assert x in Elements(q) <==> x in q[..k] || x == q[k];
      }
      AscendingListIsUnique(p[..k], q[..k]);
    }
  }
}
