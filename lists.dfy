/** The array edits the screens make on their copies of a list: replace one
    slot, drop one position, drop every occurrence of a value, append. */
module Lists {

  /** `const copy = [...xs]; copy[i] = x`: a copy with one slot replaced. */
  function ReplaceAt<T>(xs: seq<T>, i: nat, x: T): (r: seq<T>)
    requires i < |xs|
    ensures |r| == |xs| && r[i] == x
    ensures forall k :: 0 <= k < |xs| && k != i ==> r[k] == xs[k]
  {
    xs[i := x]
  }

  /** `xs.filter((_, k) => k !== i)`: every element whose position is not `i`,
      in order. */
  function RemoveAt<T>(xs: seq<T>, i: nat): (r: seq<T>)
    decreases |xs|
  {
    if xs == [] then []
    else RemoveAt(xs[..|xs| - 1], i) + (if |xs| - 1 != i then [xs[|xs| - 1]] else [])
  }

  /** Dropping position `i` closes the gap: the elements before it stay where
      they are, the ones after it move down by one; a position past the end
      drops nothing. */
  lemma {:induction false} RemoveAtSlices<T>(xs: seq<T>, i: nat)
    ensures RemoveAt(xs, i) == if i < |xs| then xs[..i] + xs[i + 1..] else xs
    decreases |xs|
  {
    if xs != [] {
      var init := xs[..|xs| - 1];
      RemoveAtSlices(init, i);
      if i < |xs| - 1 {
        assert init[..i] == xs[..i];
        assert init[i + 1..] + [xs[|xs| - 1]] == xs[i + 1..];
      } else if i == |xs| - 1 {
        assert init == xs[..i];
        assert xs[i + 1..] == [];
      } else {
        assert init + [xs[|xs| - 1]] == xs;
      }
    }
  }

  /** `xs.filter(y => y !== x)`: every element other than `x`, in order. */
  function Without<T(==)>(xs: seq<T>, x: T): (r: seq<T>)
    ensures |r| <= |xs|
    ensures x !in r
    ensures forall k :: 0 <= k < |r| ==> r[k] in xs
    ensures forall k :: 0 <= k < |xs| && xs[k] != x ==> xs[k] in r
    decreases |xs|
  {
    if xs == [] then []
    else Without(xs[..|xs| - 1], x) + (if xs[|xs| - 1] != x then [xs[|xs| - 1]] else [])
  }

  /** Filtering distributes over concatenation: each part is filtered on its
      own and the survivors keep their order, repeats included. */
  lemma {:induction false} WithoutConcat<T>(xs: seq<T>, ys: seq<T>, x: T)
    ensures Without(xs + ys, x) == Without(xs, x) + Without(ys, x)
    decreases |ys|
  {
    if ys == [] {
      assert xs + ys == xs;
    } else {
      var init := ys[..|ys| - 1];
      assert (xs + ys)[..|xs + ys| - 1] == xs + init;
      WithoutConcat(xs, init, x);
    }
  }

  /** On one element the filter keeps it exactly when it differs from `x`. */
  lemma WithoutSingle<T>(y: T, x: T)
    ensures Without([y], x) == if y == x then [] else [y]
  {
    assert [y][..0] == [];
  }

  /** Filtering out a value that does not occur changes nothing. */
  lemma {:induction false} WithoutAbsent<T>(xs: seq<T>, x: T)
    requires x !in xs
    ensures Without(xs, x) == xs
    decreases |xs|
  {
    if xs != [] {
      var init := xs[..|xs| - 1];
      assert x !in init by {
        forall k | 0 <= k < |init| ensures init[k] != x {
          assert init[k] == xs[k];
        }
      }
      WithoutAbsent(init, x);
      assert init + [xs[|xs| - 1]] == xs;
    }
  }

  predicate NoDup<T(==)>(xs: seq<T>) {
    forall i, j :: 0 <= i < j < |xs| ==> xs[i] != xs[j]
  }

  /** Filtering keeps a list free of repetitions. */
  lemma {:induction false} WithoutKeepsNoDup<T>(xs: seq<T>, x: T)
    requires NoDup(xs)
    ensures NoDup(Without(xs, x))
    decreases |xs|
  {
    if xs != [] {
      var init := xs[..|xs| - 1];
      var last := xs[|xs| - 1];
      assert NoDup(init) by {
        forall i, j | 0 <= i < j < |init| ensures init[i] != init[j] {
          assert init[i] == xs[i] && init[j] == xs[j];
        }
      }
      WithoutKeepsNoDup(init, x);
      assert last !in init by {
        forall k | 0 <= k < |init| ensures init[k] != last {
          assert init[k] == xs[k];
        }
      }
      assert last !in Without(init, x);
    }
  }
}
