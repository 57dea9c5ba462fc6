/**
 * A JavaScript `Set` of strings: adding keeps insertion order and ignores an
 * element already present; spreading it (`[...set]`) lists the elements in
 * that order. The value-level view is a sequence without duplicates; the
 * `StringSet` class is the mutable object the report builder fills.
 */
module OrderedSets {

  /** No element occurs twice. */
  predicate Distinct(s: seq<string>)
  {
    forall i, j :: 0 <= i < j < |s| ==> s[i] != s[j]
  }

  /** `set.add(x)` on the elements `s`. */
  function Added(s: seq<string>, x: string): (r: seq<string>)
    ensures x in r
    ensures forall y :: y in r <==> y in s || y == x
    ensures x in s ==> r == s
    ensures x !in s ==> r == s + [x]
  {
    if x in s then s else s + [x]
  }

  /** The elements after adding each of `xs`, in order, to a set holding `s`. */
  function AddAll(s: seq<string>, xs: seq<string>): seq<string>
  {
    if xs == [] then s else Added(AddAll(s, xs[..|xs| - 1]), xs[|xs| - 1])
  }

  /** Adding keeps the elements distinct. */
  lemma {:induction false} AddAllDistinct(s: seq<string>, xs: seq<string>)
    requires Distinct(s)
    ensures Distinct(AddAll(s, xs))
  {
    if xs != [] {
      AddAllDistinct(s, xs[..|xs| - 1]);
    }
  }

  /** The set holds exactly what it held plus what was added. */
  lemma {:induction false} AddAllMembers(s: seq<string>, xs: seq<string>)
    ensures forall y :: y in AddAll(s, xs) <==> y in s || y in xs
  {
    if xs != [] {
      var init := xs[..|xs| - 1];
      AddAllMembers(s, init);
      assert xs == init + [xs[|xs| - 1]];
    }
  }

  /** Adding one list and then another is adding their concatenation. */
  lemma {:induction false} AddAllAppend(s: seq<string>, xs: seq<string>, ys: seq<string>)
    ensures AddAll(s, xs + ys) == AddAll(AddAll(s, xs), ys)
  {
    if ys == [] {
      assert xs + ys == xs;
    } else {
      var init := ys[..|ys| - 1];
      AddAllAppend(s, xs, init);
      assert (xs + ys)[..|xs + ys| - 1] == xs + init;
    }
  }

  /** Position of the first occurrence of `x` in `xs`. */
  function FirstIndex(xs: seq<string>, x: string): (i: nat)
    requires x in xs
    ensures i < |xs| && xs[i] == x
    ensures forall k :: 0 <= k < i ==> xs[k] != x
  {
    if xs[0] == x then 0 else 1 + FirstIndex(xs[1..], x)
  }

  lemma {:induction false} FirstIndexInPrefix(xs: seq<string>, x: string, y: string)
    requires y in xs
    ensures FirstIndex(xs + [x], y) == FirstIndex(xs, y)
  {
    assert forall k :: 0 <= k < |xs| ==> (xs + [x])[k] == xs[k];
  }

  /**
   * `[...set]` after adding `xs` to an empty set: the distinct elements of
   * `xs`, each once, ordered by where each first occurs in `xs`.
   */
  lemma {:induction false} InsertionOrder(xs: seq<string>)
    ensures Distinct(AddAll([], xs))
    ensures forall y :: y in AddAll([], xs) <==> y in xs
    ensures forall i, j :: 0 <= i < j < |AddAll([], xs)| ==>
      FirstIndex(xs, AddAll([], xs)[i]) < FirstIndex(xs, AddAll([], xs)[j])
  {
    AddAllDistinct([], xs);
    AddAllMembers([], xs);
    forall i, j | 0 <= i < j < |AddAll([], xs)|
      ensures FirstIndex(xs, AddAll([], xs)[i]) < FirstIndex(xs, AddAll([], xs)[j])
    {
      OrderedPair(xs, i, j);
    }
  }

  lemma {:induction false} OrderedPair(xs: seq<string>, i: nat, j: nat)
    requires i < j < |AddAll([], xs)|
    ensures AddAll([], xs)[i] in xs && AddAll([], xs)[j] in xs
    ensures FirstIndex(xs, AddAll([], xs)[i]) < FirstIndex(xs, AddAll([], xs)[j])
    decreases |xs|
  {
    var init, x := xs[..|xs| - 1], xs[|xs| - 1];
    var prev, r := AddAll([], init), AddAll([], xs);
    assert xs == init + [x];
    assert r == Added(prev, x);
    assert i < |prev| && r[i] == prev[i];
    AddAllMembers([], init);
    assert prev[i] in init;
    FirstIndexInPrefix(init, x, prev[i]);
    if j < |prev| {
      assert r[j] == prev[j] && prev[j] in init;
      OrderedPair(init, i, j);
      FirstIndexInPrefix(init, x, prev[j]);
    } else {
      assert r[j] == x && x !in init;
      assert FirstIndex(xs, x) == |init|;
    }
  }

  /** A JavaScript `Set` of strings, updated in place. */
  class StringSet {
    /** The elements in insertion order, as `[...set]` lists them. */
    var elements: seq<string>

    constructor ()
      ensures elements == []
    {
      elements := [];
    }

    /** `set.add(x)` */
    method Add(x: string)
      modifies this
      ensures elements == Added(old(elements), x)
    {
      if x !in elements {
        elements := elements + [x];
      }
    }

    /** `set.size` */
    function Size(): nat
      reads this
    {
      |elements|
    }
  }
}
