/**
 * The ready-queue operations the scheduler uses: append (List::Append),
 * removal of given threads (List::Remove) and sorted insertion
 * (SortedList::Insert) on a sort key. The list classes and the comparators
 * Thread::compBurst and Thread::compPriority are not part of this model:
 * a sorted insertion here keeps a sorted queue sorted and changes the
 * relative order of nothing else, and its contract leaves open where a
 * thread goes among others with an equal key.
 */
module Queues {
  import opened Threads

  function Elems<T>(q: seq<T>): set<T> {
    set x | x in q
  }

  /** No element occurs twice. */
  ghost predicate NoDup<T>(q: seq<T>) {
    forall i, j :: 0 <= i < j < |q| ==> q[i] != q[j]
  }

  /** Putting a new element in front keeps a queue free of repeats. */
  lemma NoDupCons<T>(x: T, q: seq<T>)
    requires NoDup(q) && x !in q
    ensures NoDup([x] + q)
  {
    var r := [x] + q;
    forall i, j | 0 <= i < j < |r|
      ensures r[i] != r[j]
    {
      assert r[j] == q[j - 1];
      if i > 0 {
        assert r[i] == q[i - 1];
      }
    }
  }

  /** Appending a new element keeps a queue free of repeats. */
  lemma NoDupAppend<T>(q: seq<T>, x: T)
    requires NoDup(q) && x !in q
    ensures NoDup(q + [x])
  {
    var r := q + [x];
    forall i, j | 0 <= i < j < |r|
      ensures r[i] != r[j]
    {
      assert r[i] == q[i];
      if j < |q| {
        assert r[j] == q[j];
      }
    }
  }

  /** In a queue free of repeats, every element occurs exactly once. */
  lemma {:induction false} NoDupCount<T>(q: seq<T>)
    requires NoDup(q)
    ensures forall x :: x in q ==> multiset(q)[x] == 1
    decreases |q|
  {
    if q != [] {
      var rest := q[1..];
      assert NoDup(rest) by {
        forall i, j | 0 <= i < j < |rest|
          ensures rest[i] != rest[j]
        {
          assert rest[i] == q[i + 1] && rest[j] == q[j + 1];
        }
      }
      NoDupCount(rest);
      assert q == [q[0]] + rest;
      assert q[0] !in rest by {
        forall j | 0 <= j < |rest|
          ensures rest[j] != q[0]
        {
          assert rest[j] == q[j + 1];
        }
      }
    }
  }

  /** Joining two queues free of repeats with no element in common gives a queue free of repeats. */
  lemma NoDupConcat<T>(a: seq<T>, b: seq<T>)
    requires NoDup(a) && NoDup(b)
    requires forall x :: x in a ==> x !in b
    ensures NoDup(a + b)
  {
    var r := a + b;
    forall i, j | 0 <= i < j < |r|
      ensures r[i] != r[j]
    {
      if j < |a| {
        assert r[i] == a[i] && r[j] == a[j];
      } else if i >= |a| {
        assert r[i] == b[i - |a|] && r[j] == b[j - |a|];
      } else {
        assert r[i] == a[i] && r[j] == b[j - |a|];
        assert a[i] in a && b[j - |a|] in b;
      }
    }
  }

  /** A queue free of repeats holds each of its elements exactly once. */
  lemma NoDupMultiset<T>(q: seq<T>)
    requires NoDup(q)
    ensures multiset(q) == multiset(Elems(q))
  {
    NoDupCount(q);
    forall x
      ensures multiset(q)[x] == multiset(Elems(q))[x]
    {
      if x in q {
        assert x in Elems(q);
      }
    }
  }

  /** `q` with `x` placed at index `i`. */
  function InsertAt<T>(q: seq<T>, i: nat, x: T): seq<T>
    requires i <= |q|
  {
    q[..i] + [x] + q[i..]
  }

  /** `q` is `before` with `x` placed at some position, all else in order. */
  ghost predicate Inserted<T>(q: seq<T>, before: seq<T>, x: T) {
    exists i :: 0 <= i <= |before| && q == InsertAt(before, i, x)
  }

  /** `q` with every element of `s` taken out, the rest in their order. */
  function Without<T(==)>(q: seq<T>, s: set<T>): (r: seq<T>)
    ensures |r| <= |q|
    decreases |q|
  {
    if q == [] then []
    else (if q[0] in s then [] else [q[0]]) + Without(q[1..], s)
  }

  /** What is left after removal: exactly the elements of `q` outside `s`. */
  lemma {:induction false} WithoutMembers<T>(q: seq<T>, s: set<T>)
    ensures forall x :: x in Without(q, s) <==> x in q && x !in s
    decreases |q|
  {
    if q != [] {
      WithoutMembers(q[1..], s);
      assert q == [q[0]] + q[1..];
    }
  }

  /** Removal distributes over concatenation. */
  lemma {:induction false} WithoutConcat<T>(a: seq<T>, b: seq<T>, s: set<T>)
    ensures Without(a + b, s) == Without(a, s) + Without(b, s)
    decreases |a|
  {
    if a == [] {
      assert a + b == b;
    } else {
      assert (a + b)[0] == a[0];
      assert (a + b)[1..] == a[1..] + b;
      WithoutConcat(a[1..], b, s);
    }
  }

  lemma {:induction false} WithoutWithout<T>(q: seq<T>, a: set<T>, b: set<T>)
    ensures Without(Without(q, a), b) == Without(q, a + b)
    decreases |q|
  {
    if q != [] {
      var rest := Without(q[1..], a);
      if q[0] in a {
        assert Without(q, a) == rest;
        assert Without(q, a + b) == Without(q[1..], a + b);
      } else {
        assert Without(q, a) == [q[0]] + rest;
        WithoutConcat([q[0]], rest, b);
        assert Without([q[0]], b) == (if q[0] in b then [] else [q[0]]);
        assert Without(q, a + b) == (if q[0] in b then [] else [q[0]]) + Without(q[1..], a + b);
      }
      WithoutWithout(q[1..], a, b);
    }
  }

  /** Removal takes exactly the removed elements out of the set of elements. */
  lemma WithoutElems<T>(q: seq<T>, s: set<T>)
    ensures Elems(Without(q, s)) == Elems(q) - s
  {
    WithoutMembers(q, s);
    var w := Without(q, s);
    forall x
      ensures x in Elems(w) <==> x in Elems(q) - s
    {
      assert x in Elems(w) <==> x in w;
      assert x in Elems(q) <==> x in q;
    }
    assert Elems(w) == Elems(q) - s;
  }

  lemma {:induction false} WithoutNone<T>(q: seq<T>, s: set<T>)
    requires forall x :: x in q ==> x !in s
    ensures Without(q, s) == q
    decreases |q|
  {
    if q != [] {
      WithoutNone(q[1..], s);
      assert q == [q[0]] + q[1..];
    }
  }

  /** Inserting an element that is then removed leaves no trace. */
  lemma WithoutInsertAt<T>(q: seq<T>, i: nat, x: T, s: set<T>)
    requires i <= |q| && x in s
    ensures Without(InsertAt(q, i, x), s) == Without(q, s)
  {
    assert q == q[..i] + q[i..];
    WithoutConcat(q[..i] + [x], q[i..], s);
    WithoutConcat(q[..i], [x], s);
    WithoutConcat(q[..i], q[i..], s);
  }

  /** The sort orders of the two sorted queues. */
  datatype Order =
    | ByBurst     // L1: shortest burst first
    | ByPriority  // L2: highest priority first

  function Key(t: Thread, o: Order): int
    reads t`burstTime, t`priority
  {
    match o
    case ByBurst => t.burstTime
    case ByPriority => -t.priority
  }

  /** The sort key of the thread at index `i` of `q`. */
  function KeyAt(q: seq<Thread>, i: int, o: Order): int
    requires 0 <= i < |q|
    reads q`burstTime, q`priority
  {
    Key(q[i], o)
  }

  /** Keys never decrease from the front of `q` to its back. */
  ghost predicate Sorted(q: seq<Thread>, o: Order)
    reads q`burstTime, q`priority
  {
    forall i, j :: 0 <= i < j < |q| ==> KeyAt(q, i, o) <= KeyAt(q, j, o)
  }

  /**
   * The front of a sorted queue has the least key: L1 serves its shortest
   * burst first, L2 its highest priority first.
   */
  lemma SortedFront(q: seq<Thread>, o: Order)
    requires Sorted(q, o) && q != []
    ensures forall t :: t in q ==> Key(q[0], o) <= Key(t, o)
  {
    forall t | t in q
      ensures Key(q[0], o) <= Key(t, o)
    {
      var j :| 0 <= j < |q| && q[j] == t;
      if j > 0 {
        assert KeyAt(q, 0, o) <= KeyAt(q, j, o);
      }
    }
  }

  /** Placing `t` after every smaller-or-equal key and before a larger one keeps a sorted queue sorted. */
  lemma InsertAtSorted(q: seq<Thread>, o: Order, i: nat, t: Thread)
    requires i <= |q|
    requires forall j :: 0 <= j < i ==> Key(q[j], o) <= Key(t, o)
    requires i < |q| ==> Key(t, o) < Key(q[i], o)
    ensures Sorted(q, o) ==> Sorted(InsertAt(q, i, t), o)
  {
    var r := InsertAt(q, i, t);
    if Sorted(q, o) {
      forall a, b | 0 <= a < b < |r|
        ensures KeyAt(r, a, o) <= KeyAt(r, b, o)
      {
        if b < i {
          assert r[a] == q[a] && r[b] == q[b];
          assert KeyAt(q, a, o) <= KeyAt(q, b, o);
        } else if b == i {
          assert r[a] == q[a] && r[b] == t;
        } else if a < i {
          assert r[a] == q[a] && r[b] == q[b - 1];
          assert KeyAt(q, a, o) <= Key(t, o) < KeyAt(q, i, o);
          if i < b - 1 {
            assert KeyAt(q, i, o) <= KeyAt(q, b - 1, o);
          }
        } else if a == i {
          assert r[a] == t && r[b] == q[b - 1];
          if i < b - 1 {
            assert KeyAt(q, i, o) <= KeyAt(q, b - 1, o);
          }
        } else {
          assert r[a] == q[a - 1] && r[b] == q[b - 1];
          assert KeyAt(q, a - 1, o) <= KeyAt(q, b - 1, o);
        }
      }
    }
  }

  /**
   * Sorted insertion (SortedList::Insert): `t` goes in before the first
   * thread with a larger key. The queue gains `t` and nothing else, the other
   * threads keep their relative order, and a sorted queue stays sorted.
   */
  method SortedInsert(q: seq<Thread>, o: Order, t: Thread) returns (r: seq<Thread>)
    ensures Inserted(r, q, t)
    ensures Sorted(q, o) ==> Sorted(r, o)
  {
    var k := Key(t, o);
    var i := 0;
    while i < |q| && Key(q[i], o) <= k
      invariant 0 <= i <= |q|
      invariant forall j :: 0 <= j < i ==> Key(q[j], o) <= k
    {
      i := i + 1;
    }
    InsertAtSorted(q, o, i, t);
    r := InsertAt(q, i, t);
  }

  /** Removing elements keeps a queue free of repeats. */
  lemma {:induction false} WithoutNoDup<T>(q: seq<T>, s: set<T>)
    requires NoDup(q)
    ensures NoDup(Without(q, s))
    decreases |q|
  {
    if q != [] {
      var rest := q[1..];
      assert NoDup(rest) by {
        forall i, j | 0 <= i < j < |rest|
          ensures rest[i] != rest[j]
        {
          assert rest[i] == q[i + 1] && rest[j] == q[j + 1];
        }
      }
      WithoutNoDup(rest, s);
      WithoutMembers(rest, s);
      if q[0] !in s {
        assert q[0] !in rest by {
          forall j | 0 <= j < |rest|
            ensures rest[j] != q[0]
          {
            assert rest[j] == q[j + 1];
          }
        }
        NoDupCons(q[0], Without(rest, s));
      }
    }
  }

  /** An insertion adds the inserted element to the set of elements. */
  lemma InsertedElems<T>(q: seq<T>, before: seq<T>, x: T)
    requires Inserted(q, before, x)
    ensures Elems(q) == Elems(before) + {x}
  {
    var i :| 0 <= i <= |before| && q == InsertAt(before, i, x);
    assert before == before[..i] + before[i..];
  }

  /** Inserting an element not yet present keeps a queue free of repeats. */
  lemma InsertedNoDup<T>(q: seq<T>, before: seq<T>, x: T)
    requires Inserted(q, before, x) && NoDup(before) && x !in before
    ensures NoDup(q)
  {
    var k :| 0 <= k <= |before| && q == InsertAt(before, k, x);
    forall i, j | 0 <= i < j < |q|
      ensures q[i] != q[j]
    {
      if j < k {
        assert q[i] == before[i] && q[j] == before[j];
      } else if j == k {
        assert q[i] == before[i];
      } else if i < k {
        assert q[i] == before[i] && q[j] == before[j - 1];
      } else if i == k {
        assert q[j] == before[j - 1];
      } else {
        assert q[i] == before[i - 1] && q[j] == before[j - 1];
      }
    }
  }

  /**
   * `from2` and `to2` are `from` and `to` after the elements of `done` have
   * moved across: out of `from`, and into `to` around its own elements.
   */
  ghost predicate Moved<T>(from: seq<T>, to: seq<T>, done: set<T>, from2: seq<T>, to2: seq<T>) {
    && from2 == Without(from, done)
    && Without(to2, done) == to
    && Elems(to2) == Elems(to) + done
    && (NoDup(to) ==> NoDup(to2))
  }

  /**
   * After the move, an element of `from` is in `to2` exactly when it was
   * moved, and still in `from2` exactly when it was not.
   */
  lemma MovedMembership<T>(from: seq<T>, to: seq<T>, done: set<T>, from2: seq<T>, to2: seq<T>)
    requires Moved(from, to, done, from2, to2)
    requires forall x :: x in from ==> x !in to
    ensures forall x :: x in from ==> (x in to2 <==> x in done) && (x in from2 <==> x !in done)
  {
    WithoutMembers(from, done);
    forall x | x in from
      ensures x in to2 <==> x in done
    {
      assert x in to2 <==> x in Elems(to2);
    }
  }

  /** Removing either of two sets that agree on `q` leaves the same sequence. */
  lemma {:induction false} WithoutSame<T>(q: seq<T>, a: set<T>, b: set<T>)
    requires forall x :: x in q ==> (x in a <==> x in b)
    ensures Without(q, a) == Without(q, b)
    decreases |q|
  {
    if q != [] {
      WithoutSame(q[1..], a, b);
    }
  }

  /**
   * Order after one move of `done` from `from` into `to`, the two being
   * disjoint: taking the arrivals back out of `to2` gives `to` again, and
   * `from2` is `from` less whatever now sits in `to2`.
   */
  lemma MovedOrder<T>(from: seq<T>, to: seq<T>, done: set<T>, from2: seq<T>, to2: seq<T>)
    requires Moved(from, to, done, from2, to2) && done <= Elems(from)
    requires forall x :: x in from ==> x !in to
    ensures Without(to2, Elems(from)) == to
    ensures Without(from, Elems(to2)) == from2
  {
    WithoutMembers(to2, done);
    forall x | x in to2
      ensures x in Elems(from) <==> x in done
    {
      if x !in done {
        assert x in to;
      }
    }
    WithoutSame(to2, Elems(from), done);
    MovedMembership(from, to, done, from2, to2);
    forall x | x in from
      ensures x in Elems(to2) <==> x in done
    {
      assert x in to2 <==> x in Elems(to2);
    }
    WithoutSame(from, Elems(to2), done);
  }

  /**
   * Order after two moves, `e2` from `p2` into `p1` and then `e3` from `p3`
   * into what is left of `p2`, the three sequences being disjoint: the
   * first keeps its elements in order around the arrivals from `p2`, the
   * second keeps its staying elements in order around the arrivals from
   * `p3`, and the third keeps the order of the elements that stay. The
   * first loses none of its elements.
   */
  lemma SweepOrder<T>(p1: seq<T>, p2: seq<T>, p3: seq<T>, e2: set<T>, e3: set<T>,
                      q1: seq<T>, q2: seq<T>, r2: seq<T>, r3: seq<T>)
    requires Moved(p2, p1, e2, q2, q1) && e2 <= Elems(p2)
    requires Moved(p3, q2, e3, r3, r2) && e3 <= Elems(p3)
    requires forall x :: x in p1 ==> x !in p2 && x !in p3
    requires forall x :: x in p2 ==> x !in p3
    ensures Without(q1, Elems(p2)) == p1
    ensures Without(r2, Elems(p3)) == Without(p2, Elems(q1))
    ensures r3 == Without(p3, Elems(r2))
    ensures forall x :: x in p1 ==> x in q1
  {
    forall x | x in p1
      ensures x in q1
    {
      assert x in Elems(q1);
    }
    MovedOrder(p2, p1, e2, q2, q1);
    WithoutMembers(p2, e2);
    assert forall x :: x in p3 ==> x !in q2;
    MovedOrder(p3, q2, e3, r3, r2);
  }

  /** Moving elements of `from` across neither creates nor loses any. */
  lemma MovedElems<T>(from: seq<T>, to: seq<T>, done: set<T>, from2: seq<T>, to2: seq<T>)
    requires Moved(from, to, done, from2, to2) && done <= Elems(from)
    ensures Elems(from2) + Elems(to2) == Elems(from) + Elems(to)
  {
    WithoutElems(from, done);
  }

  /**
   * Two moves between neighbouring queues in a row, first `a` and `b` into
   * `a'` and `b'`, then `b'` and `c` into `b''` and `c'`, keep the elements
   * of all three queues together.
   */
  lemma MovedTwice<T>(a: seq<T>, b: seq<T>, c: seq<T>, a': seq<T>, b': seq<T>, b'': seq<T>, c': seq<T>)
    requires Elems(a') + Elems(b') == Elems(a) + Elems(b)
    requires Elems(b'') + Elems(c') == Elems(b') + Elems(c)
    ensures Elems(a') + Elems(b'') + Elems(c') == Elems(a) + Elems(b) + Elems(c)
  {
  }

  /** A thread inserted into `to2` and then taken out again with `done` leaves `to`. */
  lemma MoveOneTo<T>(to: seq<T>, to2: seq<T>, done: set<T>, m: T, r: seq<T>)
    requires Without(to2, done) == to && m !in to
    requires Inserted(r, to2, m)
    ensures Without(r, done + {m}) == to
  {
    var i :| 0 <= i <= |to2| && r == InsertAt(to2, i, m);
    WithoutInsertAt(to2, i, m, done + {m});
    WithoutWithout(to2, done, {m});
    WithoutNone(to, {m});
  }

  /** One more element moved across keeps `Moved`. */
  lemma MoveOne<T>(from: seq<T>, to: seq<T>, done: set<T>, from2: seq<T>, to2: seq<T>, m: T, r: seq<T>)
    requires Moved(from, to, done, from2, to2)
    requires m !in to && m !in done
    requires Inserted(r, to2, m)
    ensures Moved(from, to, done + {m}, Without(from2, {m}), r)
  {
    WithoutWithout(from, done, {m});
    MoveOneTo(to, to2, done, m, r);
    InsertedElems(r, to2, m);
    assert m !in to2 by {
      assert m !in Elems(to2);
    }
    if NoDup(to) {
      InsertedNoDup(r, to2, m);
    }
  }

  /** In a queue free of repeats, the element at `k` is not among those before it. */
  lemma NoDupNext<T>(q: seq<T>, k: nat)
    requires NoDup(q) && k < |q|
    ensures q[k] !in Elems(q[..k])
    ensures Elems(q[..k + 1]) == Elems(q[..k]) + {q[k]}
  {
    assert q[..k + 1] == q[..k] + [q[k]];
    forall j | 0 <= j < k
      ensures q[..k][j] != q[k]
    {
      assert q[..k][j] == q[j];
    }
  }

  /**
   * Moves each of `movers`, in their order, out of `from` (List::Remove)
   * and into `to` by sorted insertion (SortedList::Insert). `from` loses
   * exactly the movers and keeps the order of the rest; `to` gains exactly
   * the movers, keeps the order of what it held, and stays sorted.
   */
  method Transfer(from: seq<Thread>, to: seq<Thread>, movers: seq<Thread>, o: Order)
    returns (from2: seq<Thread>, to2: seq<Thread>)
    requires NoDup(movers)
    requires forall m :: m in movers ==> m in from && m !in to
    ensures Moved(from, to, Elems(movers), from2, to2)
    ensures Sorted(to, o) ==> Sorted(to2, o)
  {
    from2, to2 := from, to;
    WithoutNone(from, {});
    WithoutNone(to, {});
    assert Elems(movers[..0]) == {};
    ghost var sorted := Sorted(to, o);
    var k := 0;
    while k < |movers|
      invariant 0 <= k <= |movers|
      invariant Moved(from, to, Elems(movers[..k]), from2, to2)
      invariant sorted ==> Sorted(to2, o)
    {
      var m := movers[k];
      NoDupNext(movers, k);
      var r := SortedInsert(to2, o, m);
      MoveOne(from, to, Elems(movers[..k]), from2, to2, m, r);
      from2, to2 := Without(from2, {m}), r;
      k := k + 1;
    }
    assert movers[..k] == movers;
  }
}
