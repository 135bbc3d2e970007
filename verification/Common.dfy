/** Vocabulary shared by every module of the model. */
module Common {

  datatype Option<+T> = None | Some(value: T)

  /** What the library passes around as `void *`; the null pointer is 0. */
  type Value = int

  const NULL: Value := 0

  // ------------------------------------------------------------------------
  // Counting down

  /** Nodes top - 1 down to low: a callback list, newest first. */
  ghost function Down(top: nat, low: nat): seq<nat>
    decreases top - low
  {
    if top <= low then [] else Down(top, low + 1) + [low]
  }

  lemma {:induction false} DownIs(top: nat, low: nat)
    requires low <= top
    ensures |Down(top, low)| == top - low
    ensures forall i :: 0 <= i < top - low ==> Down(top, low)[i] == top - 1 - i
    decreases top - low
  {
    if low < top {
      DownIs(top, low + 1);
    }
  }

  lemma {:induction false} DownMembers(top: nat, low: nat, i: nat)
    ensures i in Down(top, low) <==> low <= i < top
    decreases top - low
  {
    if low < top {
      DownMembers(top, low + 1, i);
    }
  }

  // ------------------------------------------------------------------------
  // Adding up

  ghost function Sum(xs: seq<nat>): nat {
    if xs == [] then 0 else Sum(xs[..|xs| - 1]) + xs[|xs| - 1]
  }

  lemma {:induction false} SumUpdate(xs: seq<nat>, i: nat, x: nat)
    requires i < |xs|
    ensures Sum(xs[i := x]) == Sum(xs) - xs[i] + x
  {
    var n := |xs| - 1;
    if i == n {
      assert xs[i := x][..n] == xs[..n];
    } else {
      SumUpdate(xs[..n], i, x);
      assert xs[i := x][..n] == xs[..n][i := x];
    }
  }

  lemma {:induction false} SumAtMost(xs: seq<nat>, ys: seq<nat>, more: nat)
    requires |xs| == |ys| && forall i :: 0 <= i < |xs| ==> xs[i] <= ys[i] + more
    ensures Sum(xs) <= Sum(ys) + more * |ys|
  {
    if xs != [] {
      SumAtMost(xs[..|xs| - 1], ys[..|ys| - 1], more);
    }
  }

  lemma Regroup<T>(a: seq<T>, b: seq<T>, c: seq<T>)
    ensures a + (b + c) == (a + b) + c
  {}

  /** How often x is in xs. */
  ghost function Times<T>(xs: seq<T>, x: T): nat {
    if xs == [] then 0 else Times(xs[..|xs| - 1], x) + if xs[|xs| - 1] == x then 1 else 0
  }

  lemma OneMoreTime<T>(xs: seq<T>, y: T, x: T)
    ensures Times(xs + [y], x) == Times(xs, x) + if y == x then 1 else 0
  {
    assert (xs + [y])[..|xs|] == xs;
  }

  lemma {:induction false} TimesIn<T>(xs: seq<T>, x: T)
    ensures Times(xs, x) > 0 <==> x in xs
  {
    if xs != [] {
      TimesIn(xs[..|xs| - 1], x);
      assert xs == xs[..|xs| - 1] + [xs[|xs| - 1]];
    }
  }
}
