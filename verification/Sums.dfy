/** Sums and multiset unions over a sequence, and how they change when one element does. */
module Sums {

  ghost function Gather<T, A>(xs: seq<T>, f: T -> multiset<A>): multiset<A>
  {
    if xs == [] then multiset{} else f(xs[0]) + Gather(xs[1..], f)
  }

  /** One part grows by `more`. */
  lemma {:induction false} GatherAdd<T, A>(xs: seq<T>, f: T -> multiset<A>, i: nat, x: T, more: multiset<A>)
    requires i < |xs| && f(x) == f(xs[i]) + more
    ensures Gather(xs[i := x], f) == Gather(xs, f) + more
  {
    if i == 0 {
      assert xs[0 := x][1..] == xs[1..];
      assert f(xs[0]) + more + Gather(xs[1..], f) == f(xs[0]) + Gather(xs[1..], f) + more;
    } else {
      assert xs[i := x][1..] == xs[1..][i - 1 := x];
      GatherAdd(xs[1..], f, i - 1, x, more);
      assert f(xs[0]) + (Gather(xs[1..], f) + more) == f(xs[0]) + Gather(xs[1..], f) + more;
    }
  }

  /** One part loses `less`. */
  lemma GatherRemove<T, A>(xs: seq<T>, f: T -> multiset<A>, i: nat, x: T, less: multiset<A>)
    requires i < |xs| && f(xs[i]) == f(x) + less
    ensures Gather(xs, f) == Gather(xs[i := x], f) + less
  {
    assert xs[i := x][i := xs[i]] == xs;
    GatherAdd(xs[i := x], f, i, xs[i], less);
  }

  /** One part exchanges `less` for `more`. */
  lemma {:induction false} GatherExchange<T, A>(xs: seq<T>, f: T -> multiset<A>, i: nat, x: T,
                                                base: multiset<A>, less: multiset<A>, more: multiset<A>)
    requires i < |xs| && f(xs[i]) == base + less && f(x) == base + more
    ensures Gather(xs[i := x], f) + less == Gather(xs, f) + more
  {
    if i == 0 {
      assert xs[0 := x][1..] == xs[1..];
      assert base + more + Gather(xs[1..], f) + less == base + less + Gather(xs[1..], f) + more;
    } else {
      assert xs[i := x][1..] == xs[1..][i - 1 := x];
      GatherExchange(xs[1..], f, i - 1, x, base, less, more);
      var T, T' := Gather(xs[1..], f), Gather(xs[1..][i - 1 := x], f);
      assert f(xs[0]) + T' + less == f(xs[0]) + (T' + less);
      assert f(xs[0]) + T + more == f(xs[0]) + (T + more);
    }
  }

  lemma GatherSame<T, A>(xs: seq<T>, f: T -> multiset<A>, i: nat, x: T)
    requires i < |xs| && f(x) == f(xs[i])
    ensures Gather(xs[i := x], f) == Gather(xs, f)
  {
    GatherAdd(xs, f, i, x, multiset{});
  }

  /** An element of one part is an element of the whole, as often as in the part. */
  lemma {:induction false} GatherPart<T, A>(xs: seq<T>, f: T -> multiset<A>, i: nat, a: A)
    requires i < |xs|
    ensures f(xs[i])[a] <= Gather(xs, f)[a]
  {
    if i > 0 {
      GatherPart(xs[1..], f, i - 1, a);
    }
  }

  /** An element of two parts is in the whole at least twice. */
  lemma {:induction false} GatherTwoParts<T, A>(xs: seq<T>, f: T -> multiset<A>, i: nat, j: nat, a: A)
    requires i < |xs| && j < |xs| && i != j
    ensures f(xs[i])[a] + f(xs[j])[a] <= Gather(xs, f)[a]
  {
    if i == 0 {
      GatherPart(xs[1..], f, j - 1, a);
    } else if j == 0 {
      GatherPart(xs[1..], f, i - 1, a);
    } else {
      GatherTwoParts(xs[1..], f, i - 1, j - 1, a);
    }
  }

  /** An element of the whole comes from some part. */
  lemma {:induction false} GatherSource<T, A>(xs: seq<T>, f: T -> multiset<A>, a: A) returns (i: nat)
    requires a in Gather(xs, f)
    ensures i < |xs| && a in f(xs[i])
  {
    if a in f(xs[0]) {
      i := 0;
    } else {
      i := GatherSource(xs[1..], f, a);
      i := i + 1;
    }
  }

  ghost function Sum<T>(xs: seq<T>, f: T -> nat): nat
  {
    if xs == [] then 0 else f(xs[0]) + Sum(xs[1..], f)
  }

  lemma {:induction false} SumUpdate<T>(xs: seq<T>, f: T -> nat, i: nat, x: T)
    requires i < |xs|
    ensures Sum(xs[i := x], f) + f(xs[i]) == Sum(xs, f) + f(x)
  {
    if i == 0 {
      assert xs[0 := x][1..] == xs[1..];
    } else {
      assert xs[i := x][1..] == xs[1..][i - 1 := x];
      SumUpdate(xs[1..], f, i - 1, x);
    }
  }

  lemma {:induction false} SumPart<T>(xs: seq<T>, f: T -> nat, i: nat)
    requires i < |xs|
    ensures f(xs[i]) <= Sum(xs, f)
  {
    if i > 0 {
      SumPart(xs[1..], f, i - 1);
    }
  }

  /** The size of the union is the sum of the sizes. */
  lemma {:induction false} GatherSize<T, A>(xs: seq<T>, f: T -> multiset<A>, g: T -> nat)
    requires forall i :: 0 <= i < |xs| ==> g(xs[i]) <= |f(xs[i])|
    ensures Sum(xs, g) <= |Gather(xs, f)|
  {
    if xs != [] {
      GatherSize(xs[1..], f, g);
    }
  }

  lemma {:induction false} GatherPartSize<T, A>(xs: seq<T>, f: T -> multiset<A>, i: nat)
    requires i < |xs|
    ensures |f(xs[i])| <= |Gather(xs, f)|
  {
    if i > 0 {
      GatherPartSize(xs[1..], f, i - 1);
    }
  }
}
