/** Filtering-and-mapping over sequences: the shape of every list comprehension
    with an `if` and of every append-in-a-loop that skips some items. */
module Seqs {
  import opened Wrappers

  /** What one item contributes to a filtered list. */
  function Emit<U>(o: Option<U>): seq<U> {
    match o
    case Some(y) => [y]
    case None => []
  }

  /** `[y for x in xs if f(x) is not None]`, keeping the order of `xs`. */
  function FilterMap<T, U>(xs: seq<T>, f: T -> Option<U>): (r: seq<U>)
    ensures |r| <= |xs|
    decreases |xs|
  {
    if xs == [] then []
    else FilterMap(xs[..|xs| - 1], f) + Emit(f(xs[|xs| - 1]))
  }

  /** Filtering distributes over concatenation: the output keeps input order. */
  lemma {:induction false} FilterMapAppend<T, U>(a: seq<T>, b: seq<T>, f: T -> Option<U>)
    ensures FilterMap(a + b, f) == FilterMap(a, f) + FilterMap(b, f)
    decreases |b|
  {
    if b == [] {
      assert a + b == a;
    } else {
      var b' := b[..|b| - 1];
      assert (a + b)[..|a + b| - 1] == a + b';
      assert (a + b)[|a + b| - 1] == b[|b| - 1];
      FilterMapAppend(a, b', f);
    }
  }

  /** Every output comes from some input, and every accepted input gives an output. */
  lemma {:induction false} FilterMapMember<T, U>(xs: seq<T>, f: T -> Option<U>, y: U)
    ensures y in FilterMap(xs, f) <==> exists i :: 0 <= i < |xs| && f(xs[i]) == Some(y)
    decreases |xs|
  {
    if xs != [] {
      var init := xs[..|xs| - 1];
      FilterMapMember(init, f, y);
      if y in FilterMap(init, f) {
        var i :| 0 <= i < |init| && f(init[i]) == Some(y);
        assert xs[i] == init[i];
      }
      forall i | 0 <= i < |xs| && f(xs[i]) == Some(y)
        ensures y in FilterMap(xs, f)
      {
        if i < |init| {
          assert init[i] == xs[i];
        }
      }
    }
  }

  /** The present values of a sequence of options, in order. */
  function Somes<T>(os: seq<Option<T>>): seq<T>
    decreases |os|
  {
    if os == [] then [] else Somes(os[..|os| - 1]) + Emit(os[|os| - 1])
  }

  /** A value is kept exactly when it is present in some option. */
  lemma {:induction false} SomesMember<T>(os: seq<Option<T>>, y: T)
    ensures y in Somes(os) <==> Some(y) in os
    decreases |os|
  {
    if os != [] {
      var init := os[..|os| - 1];
      SomesMember(init, y);
      assert os == init + [os[|os| - 1]];
    }
  }

  /** Extending a prefix by one option appends what that option holds. */
  lemma SomesSnoc<T>(os: seq<Option<T>>, i: nat)
    requires i < |os|
    ensures Somes(os[..i + 1]) == Somes(os[..i]) + Emit(os[i])
  {
    assert os[..i + 1][..i] == os[..i];
  }

  /** Keeping the present values distributes over concatenation. */
  lemma {:induction false} SomesAppend<T>(a: seq<Option<T>>, b: seq<Option<T>>)
    ensures Somes(a + b) == Somes(a) + Somes(b)
    decreases |b|
  {
    if b == [] {
      assert a + b == a;
    } else {
      var b' := b[..|b| - 1];
      assert (a + b)[..|a + b| - 1] == a + b';
      assert (a + b)[|a + b| - 1] == b[|b| - 1];
      SomesAppend(a, b');
    }
  }

  /** The concatenation of a sequence of blocks, in order. */
  function Concat<T>(xss: seq<seq<T>>): seq<T>
    decreases |xss|
  {
    if xss == [] then [] else Concat(xss[..|xss| - 1]) + xss[|xss| - 1]
  }

  /** Extending a prefix of the blocks by one block appends that block. */
  lemma ConcatSnoc<T>(xss: seq<seq<T>>, i: nat)
    requires i < |xss|
    ensures Concat(xss[..i + 1]) == Concat(xss[..i]) + xss[i]
  {
    assert xss[..i + 1][..i] == xss[..i];
  }

  /** Concatenation distributes over splitting the blocks in two. */
  lemma {:induction false} ConcatAppend<T>(a: seq<seq<T>>, b: seq<seq<T>>)
    ensures Concat(a + b) == Concat(a) + Concat(b)
    decreases |b|
  {
    if b == [] {
      assert a + b == a;
    } else {
      var b' := b[..|b| - 1];
      assert (a + b)[..|a + b| - 1] == a + b';
      assert (a + b)[|a + b| - 1] == b[|b| - 1];
      ConcatAppend(a, b');
    }
  }

  /** Blocks that are all empty concatenate to nothing. */
  lemma {:induction false} ConcatEmpty<T>(xss: seq<seq<T>>)
    requires forall i :: 0 <= i < |xss| ==> xss[i] == []
    ensures Concat(xss) == []
    decreases |xss|
  {
    if xss != [] {
      ConcatEmpty(xss[..|xss| - 1]);
    }
  }

  /** An item is in the concatenation exactly when some block holds it. */
  lemma {:induction false} ConcatMember<T>(xss: seq<seq<T>>, x: T)
    ensures x in Concat(xss) <==> exists i :: 0 <= i < |xss| && x in xss[i]
    decreases |xss|
  {
    if xss != [] {
      var init := xss[..|xss| - 1];
      ConcatMember(init, x);
      if x in Concat(init) {
        var i :| 0 <= i < |init| && x in init[i];
        assert xss[i] == init[i];
      }
      forall i | 0 <= i < |xss| && x in xss[i] ensures x in Concat(xss) {
        if i < |init| {
          assert init[i] == xss[i];
        }
      }
    }
  }

  /** The elements of a sequence. */
  function Elems<T>(xs: seq<T>): set<T> {
    set x | x in xs
  }

  /** A sequence has at least as many positions as elements. */
  lemma {:induction false} ElemsCard<T>(xs: seq<T>)
    ensures |Elems(xs)| <= |xs|
    decreases |xs|
  {
    if xs != [] {
      var ys := xs[..|xs| - 1];
      assert Elems(xs) == Elems(ys) + {xs[|xs| - 1]};
      ElemsCard(ys);
    }
  }

  /** A sequence without repetitions has exactly as many elements as positions. */
  lemma {:induction false} DistinctElemsCard<T>(xs: seq<T>)
    requires forall i, j :: 0 <= i < j < |xs| ==> xs[i] != xs[j]
    ensures |Elems(xs)| == |xs|
    decreases |xs|
  {
    if xs != [] {
      var ys := xs[..|xs| - 1];
      assert Elems(xs) == Elems(ys) + {xs[|xs| - 1]};
      assert xs[|xs| - 1] !in Elems(ys);
      DistinctElemsCard(ys);
    }
  }

  /** A subset has no more elements than its superset. */
  lemma {:induction false} SubsetCard<T>(a: set<T>, b: set<T>)
    requires a <= b
    ensures |a| <= |b|
    decreases b
  {
    if a != {} {
      var x :| x in a;
      SubsetCard(a - {x}, b - {x});
    }
  }
}
