/** Shared vocabulary: options, and the sum of a quantity over the slots of a sequence. */
module Collections {

  datatype Option<+T> = None | Some(value: T)

  const TWO_TO_THE_64: nat := 0x1_0000_0000_0000_0000

  function RemoveAt<T>(xs: seq<T>, i: nat): seq<T>
    requires i < |xs|
  {
    xs[..i] + xs[i + 1..]
  }

  predicate NoDuplicates<T(==)>(xs: seq<T>) {
    forall i, j :: 0 <= i < j < |xs| ==> xs[i] != xs[j]
  }

  /** The sum of `f` over the slots of `xs`. */
  function Total<T>(xs: seq<T>, f: T -> nat): nat {
    if xs == [] then 0 else f(xs[0]) + Total(xs[1..], f)
  }

  lemma {:induction false} TotalConcat<T>(xs: seq<T>, ys: seq<T>, f: T -> nat)
    ensures Total(xs + ys, f) == Total(xs, f) + Total(ys, f)
  {
    if xs == [] {
      assert xs + ys == ys;
    } else {
      assert (xs + ys)[0] == xs[0] && (xs + ys)[1..] == xs[1..] + ys;
      TotalConcat(xs[1..], ys, f);
    }
  }

  lemma TotalAppend<T>(xs: seq<T>, x: T, f: T -> nat)
    ensures Total(xs + [x], f) == Total(xs, f) + f(x)
  {
    TotalConcat(xs, [x], f);
    assert [x][1..] == [];
  }

  lemma {:induction false} TotalRemove<T>(xs: seq<T>, i: nat, f: T -> nat)
    requires i < |xs|
    ensures Total(xs, f) == Total(RemoveAt(xs, i), f) + f(xs[i])
    decreases i
  {
    if i == 0 {
      assert RemoveAt(xs, 0) == xs[1..];
    } else {
      var ys := RemoveAt(xs, i);
      assert ys[0] == xs[0] && ys[1..] == RemoveAt(xs[1..], i - 1);
      TotalRemove(xs[1..], i - 1, f);
    }
  }

  lemma TotalUpdate<T>(xs: seq<T>, i: nat, x: T, f: T -> nat)
    requires i < |xs|
    ensures Total(xs[i := x], f) + f(xs[i]) == Total(xs, f) + f(x)
  {
    TotalRemove(xs, i, f);
    TotalRemove(xs[i := x], i, f);
    assert RemoveAt(xs[i := x], i) == RemoveAt(xs, i);
  }

  lemma {:induction false} TotalZero<T>(xs: seq<T>, f: T -> nat)
    ensures Total(xs, f) == 0 <==> forall i :: 0 <= i < |xs| ==> f(xs[i]) == 0
  {
    if xs != [] {
      TotalZero(xs[1..], f);
      assert forall i :: 0 <= i < |xs| - 1 ==> xs[1..][i] == xs[i + 1];
      assert forall i :: 0 < i < |xs| ==> xs[i] == xs[1..][i - 1];
    }
  }

  lemma TotalMember<T>(xs: seq<T>, i: nat, f: T -> nat)
    requires i < |xs|
    ensures f(xs[i]) <= Total(xs, f)
  {
    TotalRemove(xs, i, f);
  }
}
