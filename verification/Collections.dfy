/** Facts about the sizes of sets and the elements of sequences. */
module Collections {

  function Elements<T>(q: seq<T>): set<T> {
    set x | x in q
  }

  lemma ElementsGrow<T>(q: seq<T>, x: T)
    ensures Elements<T>([]) == {}
    ensures Elements(q + [x]) == Elements(q) + {x}
  {
  }

  lemma {:induction false} DistinctSize<T>(s: seq<T>)
    requires forall i, j :: 0 <= i < j < |s| ==> s[i] != s[j]
    ensures |Elements(s)| == |s|
  {
    if s != [] {
      var init := s[..|s| - 1];
      DistinctSize(init);
      assert Elements(s) == Elements(init) + {s[|s| - 1]};
    }
  }

  lemma {:induction false} SubsetSize<T>(a: set<T>, b: set<T>)
    requires a <= b
    ensures |a| <= |b|
    decreases a
  {
    if a != {} {
      var x :| x in a;
      SubsetSize(a - {x}, b - {x});
    }
  }

  /** A sequence as long as its set of elements holds each once. */
  lemma {:induction false} OnceEach<T>(q: seq<T>)
    requires |Elements(q)| == |q|
    ensures forall x :: multiset(q)[x] == if x in q then 1 else 0
  {
    if q != [] {
      var last, init := q[|q| - 1], q[..|q| - 1];
      assert q == init + [last];
      var mine, rest := Elements(q), Elements(init);
      SetNoLarger(init);
      assert mine == rest + {last};
      assert last !in rest;
      OnceEach(init);
      forall x ensures multiset(q)[x] == if x in q then 1 else 0 {
        assert x in q <==> x in init || x == last;
      }
    }
  }

  lemma {:induction false} SetNoLarger<T>(q: seq<T>)
    ensures |Elements(q)| <= |q|
  {
    if q != [] {
      var last, init := q[|q| - 1], q[..|q| - 1];
      assert q == init + [last];
      SetNoLarger(init);
      assert Elements(q) == Elements(init) + {last};
    }
  }

  lemma SizeOne<T>(s: set<T>)
    ensures |s| == 1 <==> exists x :: s == {x}
    ensures |s| > 1 ==> forall x :: s != {x}
    ensures |s| == 1 ==> forall x :: x in s ==> s == {x}
  {
    if |s| == 1 {
      var x :| x in s;
      assert |s - {x}| == 0;
      assert s == {x} + (s - {x});
    }
  }
}
