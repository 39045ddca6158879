/** Facts about sequences, and searching an array and splicing one element out of it. */
module Utils {

  function Elems<T(==)>(xs: seq<T>): set<T> {
    set x | x in xs
  }

  predicate NoRepeats<T(==)>(xs: seq<T>) {
    forall i, j | 0 <= i < j < |xs| :: xs[i] != xs[j]
  }

  function Flatten<T>(xss: seq<seq<T>>): seq<T> {
    if xss == [] then [] else xss[0] + Flatten(xss[1..])
  }

  function Sum(xs: seq<nat>): nat {
    if xs == [] then 0 else xs[0] + Sum(xs[1..])
  }

  lemma {:induction false} SumSnoc(xs: seq<nat>, x: nat)
    ensures Sum(xs + [x]) == Sum(xs) + x
  {
    if xs == [] {
      assert xs + [x] == [x] && [x][1..] == [];
    } else {
      SumSnoc(xs[1..], x);
      assert (xs + [x])[1..] == xs[1..] + [x];
    }
  }

  /** Without the first occurrence of x. */
  function Remove<T(==)>(xs: seq<T>, x: T): seq<T> {
    if xs == [] then [] else if xs[0] == x then xs[1..] else [xs[0]] + Remove(xs[1..], x)
  }

  lemma {:induction false} RemoveOne<T>(xs: seq<T>, x: T)
    ensures x !in xs ==> Remove(xs, x) == xs
    ensures |Remove(xs, x)| == |xs| - (if x in xs then 1 else 0)
    ensures forall y :: y in Remove(xs, x) ==> y in xs
    ensures forall y :: y in xs && y != x ==> y in Remove(xs, x)
  {
    if xs != [] && xs[0] != x {
      RemoveOne(xs[1..], x);
    }
  }

  lemma {:induction false} RemoveDistinct<T>(xs: seq<T>, x: T)
    requires NoRepeats(xs)
    ensures forall y :: y in Remove(xs, x) <==> y in xs && y != x
    ensures NoRepeats(Remove(xs, x))
  {
    if xs != [] && xs[0] != x {
      RemoveDistinct(xs[1..], x);
      var rest := Remove(xs[1..], x);
      forall j | 0 <= j < |rest| ensures xs[0] != rest[j] {
        assert rest[j] in rest;
      }
    }
  }

  /** Splicing at the first index is removing the first occurrence. */
  lemma {:induction false} SpliceRemoves<T>(xs: seq<T>, x: T, index: int)
    requires -1 <= index < |xs| && (index < 0 ==> x !in xs)
    requires index >= 0 ==> xs[index] == x && x !in xs[..index]
    ensures Remove(xs, x) == if index < 0 then xs else xs[..index] + xs[index + 1..]
  {
    if index < 0 {
      RemoveOne(xs, x);
    } else if index > 0 {
      assert xs[0] in xs[..index];
      assert xs[..index][1..] == xs[1..][..index - 1];
      assert forall y :: y in xs[..index][1..] ==> y in xs[..index];
      SpliceRemoves(xs[1..], x, index - 1);
      assert xs[..index] + xs[index + 1..] == [xs[0]] + (xs[1..][..index - 1] + xs[1..][index..]);
    }
  }

  /** The first index of the element, or -1. */
  method InArray<T(==)>(element: T, elements: seq<T>) returns (index: int)
    ensures -1 <= index < |elements|
    ensures index < 0 ==> element !in elements
    ensures index >= 0 ==> elements[index] == element && element !in elements[..index]
  {
    for i := 0 to |elements|
      invariant element !in elements[..i]
    {
      if element == elements[i] {
        return i;
      }
    }
    return -1;
  }
}
