/** The two list transformations the application is built from, JavaScript's
    `Array.prototype.map` and `Array.prototype.filter`, over Dafny sequences, and
    what is known about them. */
module Arrays {

  /** `s.map(f)`: one result per element, in order. */
  function Map<A, B>(s: seq<A>, f: A -> B): seq<B> {
    seq(|s|, i requires 0 <= i < |s| => f(s[i]))
  }

  /** `s.filter(keep)`: the elements `keep` accepts, in their original order. */
  function Filter<T>(s: seq<T>, keep: T -> bool): (r: seq<T>)
    ensures |r| <= |s|
    ensures forall x :: x in r ==> x in s && keep(x)
    ensures forall x :: x in s && keep(x) ==> x in r
  {
    if s == [] then []
    else (if keep(s[0]) then [s[0]] else []) + Filter(s[1..], keep)
  }

  /** `s` is an order-preserving merge of `a` and `b`: every element of `s` is taken,
      in turn, from the front of `a` or from the front of `b`. */
  ghost predicate Interleaves<T>(s: seq<T>, a: seq<T>, b: seq<T>)
    decreases |s|
  {
    if s == [] then a == [] && b == []
    else
      (a != [] && a[0] == s[0] && Interleaves(s[1..], a[1..], b)) ||
      (b != [] && b[0] == s[0] && Interleaves(s[1..], a, b[1..]))
  }

  /** Filtering by a predicate and by its negation splits a sequence into two
      order-preserving parts that together make up the whole of it. */
  lemma {:induction false} FilterPartition<T>(s: seq<T>, keep: T -> bool, drop: T -> bool)
    requires forall x :: drop(x) == !keep(x)
    ensures Interleaves(s, Filter(s, keep), Filter(s, drop))
  {
    if s != [] {
      var a, b := Filter(s, keep), Filter(s, drop);
      FilterPartition(s[1..], keep, drop);
      if keep(s[0]) {
        assert a == [s[0]] + Filter(s[1..], keep) && b == Filter(s[1..], drop);
        assert a[0] == s[0] && a[1..] == Filter(s[1..], keep);
      } else {
        assert b == [s[0]] + Filter(s[1..], drop) && a == Filter(s[1..], keep);
        assert b[0] == s[0] && b[1..] == Filter(s[1..], drop);
      }
    }
  }

  /** An interleaving loses and invents nothing. */
  lemma {:induction false} InterleavesMultiset<T>(s: seq<T>, a: seq<T>, b: seq<T>)
    requires Interleaves(s, a, b)
    ensures |s| == |a| + |b|
    ensures multiset(s) == multiset(a) + multiset(b)
    decreases |s|
  {
    if s != [] {
      if a != [] && a[0] == s[0] && Interleaves(s[1..], a[1..], b) {
        InterleavesMultiset(s[1..], a[1..], b);
        assert s == [s[0]] + s[1..];
        assert a == [a[0]] + a[1..];
      } else {
        InterleavesMultiset(s[1..], a, b[1..]);
        assert s == [s[0]] + s[1..];
        assert b == [b[0]] + b[1..];
      }
    }
  }

  /** Mapping keeps an interleaving an interleaving. */
  lemma {:induction false} MapInterleaves<A, B>(s: seq<A>, a: seq<A>, b: seq<A>, f: A -> B)
    requires Interleaves(s, a, b)
    ensures Interleaves(Map(s, f), Map(a, f), Map(b, f))
    decreases |s|
  {
    if s != [] {
      assert Map(s, f)[1..] == Map(s[1..], f);
      if a != [] && a[0] == s[0] && Interleaves(s[1..], a[1..], b) {
        MapInterleaves(s[1..], a[1..], b, f);
        assert Map(a, f)[1..] == Map(a[1..], f);
      } else {
        MapInterleaves(s[1..], a, b[1..], f);
        assert Map(b, f)[1..] == Map(b[1..], f);
      }
    }
  }

  /** Filtering a sequence extended at the end extends the filtered sequence. */
  lemma {:induction false} FilterAppend<T>(s: seq<T>, x: T, keep: T -> bool)
    ensures Filter(s + [x], keep) == Filter(s, keep) + (if keep(x) then [x] else [])
  {
    if s == [] {
      assert [x][1..] == [];
    } else {
      assert (s + [x])[1..] == s[1..] + [x];
      FilterAppend(s[1..], x, keep);
    }
  }

  /** A filter that accepts every element returns the sequence itself. */
  lemma {:induction false} FilterKeepsAll<T>(s: seq<T>, keep: T -> bool)
    requires forall x :: x in s ==> keep(x)
    ensures Filter(s, keep) == s
  {
    if s != [] {
      FilterKeepsAll(s[1..], keep);
    }
  }

  /** A filter that accepts no element returns the empty sequence. */
  lemma {:induction false} FilterDropsAll<T>(s: seq<T>, keep: T -> bool)
    requires forall x :: x in s ==> !keep(x)
    ensures Filter(s, keep) == []
  {
    if s != [] {
      FilterDropsAll(s[1..], keep);
    }
  }

  /** Mapping distributes over concatenation. */
  lemma MapAppend<A, B>(a: seq<A>, b: seq<A>, f: A -> B)
    ensures Map(a + b, f) == Map(a, f) + Map(b, f)
  {
    forall i | 0 <= i < |a| + |b| ensures Map(a + b, f)[i] == (Map(a, f) + Map(b, f))[i] {
      if i < |a| { assert (a + b)[i] == a[i]; } else { assert (a + b)[i] == b[i - |a|]; }
    }
  }

  /** Mapping commutes with filtering when the two filters agree through the map. */
  lemma {:induction false} MapFilter<A, B>(s: seq<A>, f: A -> B, p: B -> bool, q: A -> bool)
    requires forall x :: p(f(x)) == q(x)
    ensures Map(Filter(s, q), f) == Filter(Map(s, f), p)
  {
    if s != [] {
      var head: seq<A> := if q(s[0]) then [s[0]] else [];
      var mapped := Map(s, f);
      assert Filter(s, q) == head + Filter(s[1..], q);
      MapAppend(head, Filter(s[1..], q), f);
      MapFilter(s[1..], f, p, q);
      assert mapped[1..] == Map(s[1..], f);
      assert mapped[0] == f(s[0]);
      assert Map(head, f) == if p(mapped[0]) then [mapped[0]] else [];
      assert Filter(mapped, p) == (if p(mapped[0]) then [mapped[0]] else []) + Filter(mapped[1..], p);
    }
  }
}
