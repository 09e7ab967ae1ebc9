/** Duplicate-free lists: the shape of the kernel's intrusive linked lists, on which a node sits at most once. */
module Lists {

  predicate NoDup<T(==)>(l: seq<T>) {
    forall i, j :: 0 <= i < j < |l| ==> l[i] != l[j]
  }

  function Elems<T(!new)>(l: seq<T>): (r: set<T>)
    ensures forall x :: x in r <==> x in l
  {
    set x | x in l
  }

  /** `list_del`: `x` is unlinked and the others keep their order. */
  function Without<T(==,!new)>(l: seq<T>, x: T): (r: seq<T>)
    ensures x !in r
    ensures forall y :: y in r <==> y in l && y != x
    ensures |r| <= |l|
    ensures x in l ==> |r| < |l|
    ensures x !in l ==> r == l
    ensures NoDup(l) ==> NoDup(r)
    ensures NoDup(l) && x in l ==> |r| == |l| - 1
  {
    if l == [] then [] else
    if l[0] == x then
      var t := Without(l[1..], x);
      assert l == [l[0]] + l[1..];
      t
    else
      var t := Without(l[1..], x);
      assert l == [l[0]] + l[1..];
      assert NoDup(l) ==> NoDup(l[1..]) && l[0] !in l[1..];
      assert NoDup(l) ==> l[0] !in t && NoDup(t);
      [l[0]] + t
  }

  lemma NoDupEmpty<T>()
    ensures NoDup<T>([])
  {
  }

  lemma NoDupAppend<T>(l: seq<T>, x: T)
    requires NoDup(l) && x !in l
    ensures NoDup(l + [x]) && NoDup([x] + l)
  {
  }

  lemma {:induction false} NoDupCount<T>(l: seq<T>, x: T)
    requires NoDup(l)
    ensures multiset(l)[x] == if x in l then 1 else 0
  {
    if l != [] {
      assert l == [l[0]] + l[1..];
      NoDupCount(l[1..], x);
    }
  }

  /** The sum of a quantity over a list. */
  function Sum<T>(l: seq<T>, f: T -> int): int {
    if l == [] then 0 else Sum(l[..|l| - 1], f) + f(l[|l| - 1])
  }

  lemma {:induction false} SumUpdate<T>(l: seq<T>, f: T -> int, i: nat, x: T)
    requires i < |l|
    ensures Sum(l[i := x], f) == Sum(l, f) - f(l[i]) + f(x)
    decreases |l|
  {
    var n := |l| - 1;
    if i == n {
      assert l[i := x][..n] == l[..n];
    } else {
      assert l[i := x][..n] == l[..n][i := x];
      SumUpdate(l[..n], f, i, x);
    }
  }

  lemma SumAppend<T>(l: seq<T>, f: T -> int, x: T)
    ensures Sum(l + [x], f) == Sum(l, f) + f(x)
  {
    assert (l + [x])[..|l|] == l;
  }

  lemma {:induction false} SumAtLeast<T>(l: seq<T>, f: T -> int, i: nat)
    requires i < |l| && forall j :: 0 <= j < |l| ==> f(l[j]) >= 0
    ensures Sum(l, f) >= f(l[i])
    decreases |l|
  {
    var n := |l| - 1;
    SumNonNegative(l[..n], f);
    if i < n { SumAtLeast(l[..n], f, i); }
  }

  lemma {:induction false} SumNonNegative<T>(l: seq<T>, f: T -> int)
    requires forall j :: 0 <= j < |l| ==> f(l[j]) >= 0
    ensures Sum(l, f) >= 0
    decreases |l|
  {
    if l != [] { SumNonNegative(l[..|l| - 1], f); }
  }

  lemma {:induction false} SumZero<T>(l: seq<T>, f: T -> int)
    requires forall j :: 0 <= j < |l| ==> f(l[j]) == 0
    ensures Sum(l, f) == 0
    decreases |l|
  {
    if l != [] { SumZero(l[..|l| - 1], f); }
  }
}
