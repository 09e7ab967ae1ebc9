/** Lists of requests ordered by a key: the sector-sorted tree and the fifo of omap/block/deadline-iosched.c. */
module DeadlineLists {
  import opened Common
  import opened Lists

  type Rq = nat
  type Keys = map<Rq, int>

  ghost predicate Known(l: seq<Rq>, k: Keys) { forall r :: r in l ==> r in k }

  /** Strictly increasing keys: what the tree guarantees, since elv_rb_add refuses equal positions. */
  ghost predicate Strict(l: seq<Rq>, k: Keys) {
    Known(l, k) && forall i, j :: 0 <= i < j < |l| ==> k[l[i]] < k[l[j]]
  }

  /** The fifo: no key is larger than a later one. */
  ghost predicate Ordered(l: seq<Rq>, k: Keys) {
    Known(l, k) && forall i, j :: 0 <= i < j < |l| ==> k[l[i]] <= k[l[j]]
  }

  /** elv_rb_find: the request at a position. */
  function At(l: seq<Rq>, k: Keys, key: int): (r: Option<Rq>)
    requires Known(l, k)
    ensures r.Some? ==> r.value in l && k[r.value] == key
    ensures r.None? ==> forall x :: x in l ==> k[x] != key
  {
    if l == [] then None else if k[l[0]] == key then Some(l[0]) else At(l[1..], k, key)
  }

  /** elv_rb_add without an alias. */
  function Insert(l: seq<Rq>, k: Keys, r: Rq): (t: seq<Rq>)
    requires Known(l, k) && r in k
    ensures forall x :: x in t <==> x in l || x == r
    ensures |t| == |l| + 1
  {
    if l == [] || k[r] < k[l[0]] then [r] + l
    else
      assert l == [l[0]] + l[1..];
      [l[0]] + Insert(l[1..], k, r)
  }

  /** rb_next: the request after `r`. */
  function Latter(l: seq<Rq>, r: Rq): (t: Option<Rq>)
    ensures t.Some? ==> t.value in l
  {
    if |l| < 2 then None else if l[0] == r then Some(l[1]) else Latter(l[1..], r)
  }

  /** list_add of `x` behind `y`. */
  function InsertAfter(l: seq<Rq>, y: Rq, x: Rq): (t: seq<Rq>)
    ensures forall z :: z in t <==> z in l || (z == x && y in l)
    ensures |t| == |l| + if y in l then 1 else 0
  {
    if l == [] then []
    else
      assert l == [l[0]] + l[1..];
      if l[0] == y then [y, x] + l[1..] else [l[0]] + InsertAfter(l[1..], y, x)
  }

  // ---------------------------------------------------------------- order is kept

  lemma StrictCons(r: Rq, l: seq<Rq>, k: Keys)
    requires Strict(l, k) && r in k && forall x :: x in l ==> k[r] < k[x]
    ensures Strict([r] + l, k)
  {
  }

  lemma StrictTail(l: seq<Rq>, k: Keys)
    requires Strict(l, k) && l != []
    ensures Strict(l[1..], k) && forall x :: x in l[1..] ==> k[l[0]] < k[x]
  {
  }

  lemma {:induction false} StrictInsert(l: seq<Rq>, k: Keys, r: Rq)
    requires Strict(l, k) && r in k && forall x :: x in l ==> k[x] != k[r]
    ensures Strict(Insert(l, k, r), k)
  {
    if l == [] {
    } else {
      StrictTail(l, k);
      if k[r] < k[l[0]] {
        StrictCons(r, l, k);
      } else {
        StrictInsert(l[1..], k, r);
        StrictCons(l[0], Insert(l[1..], k, r), k);
      }
    }
  }

  lemma {:induction false} StrictWithout(l: seq<Rq>, k: Keys, r: Rq)
    requires Strict(l, k)
    ensures Strict(Without(l, r), k)
  {
    if l != [] {
      StrictTail(l, k);
      StrictWithout(l[1..], k, r);
      if l[0] != r { StrictCons(l[0], Without(l[1..], r), k); }
    }
  }

  /** The keys of other requests do not matter. */
  lemma StrictRekey(l: seq<Rq>, k: Keys, r: Rq, key: int)
    requires Strict(l, k) && r !in l
    ensures Strict(l, k[r := key])
  {
  }

  lemma StrictNoDup(l: seq<Rq>, k: Keys)
    requires Strict(l, k)
    ensures NoDup(l)
  {
  }

  lemma {:induction false} LatterOther(l: seq<Rq>, r: Rq)
    requires NoDup(l)
    ensures Latter(l, r) != Some(r)
  {
    if |l| >= 2 && l[0] != r { LatterOther(l[1..], r); }
  }

  /** The request behind `r` is the one with the least key above that of `r`. */
  lemma {:induction false} LatterLeast(l: seq<Rq>, k: Keys, r: Rq)
    requires Strict(l, k) && r in l
    ensures Latter(l, r).Some? ==> k[Latter(l, r).value] > k[r]
    ensures forall x :: x in l && k[x] > k[r] ==> Latter(l, r).Some? && k[Latter(l, r).value] <= k[x]
  {
    assert l == [l[0]] + l[1..];
    StrictTail(l, k);
    if l[0] != r {
      LatterLeast(l[1..], k, r);
    } else if |l| >= 2 {
      assert l[1..] == [l[1]] + l[2..];
      StrictTail(l[1..], k);
      assert l[1..][1..] == l[2..];
    }
  }

  lemma OrderedCons(r: Rq, l: seq<Rq>, k: Keys)
    requires Ordered(l, k) && r in k && forall x :: x in l ==> k[r] <= k[x]
    ensures Ordered([r] + l, k)
  {
  }

  lemma OrderedTail(l: seq<Rq>, k: Keys)
    requires Ordered(l, k) && l != []
    ensures Ordered(l[1..], k) && forall x :: x in l[1..] ==> k[l[0]] <= k[x]
  {
  }

  lemma {:induction false} OrderedWithout(l: seq<Rq>, k: Keys, r: Rq)
    requires Ordered(l, k)
    ensures Ordered(Without(l, r), k)
  {
    if l != [] {
      OrderedTail(l, k);
      OrderedWithout(l[1..], k, r);
      if l[0] != r { OrderedCons(l[0], Without(l[1..], r), k); }
    }
  }

  lemma OrderedSnoc(l: seq<Rq>, k: Keys, r: Rq, key: int)
    requires Ordered(l, k) && r !in l && forall x :: x in l ==> k[x] <= key
    ensures Ordered(l + [r], k[r := key])
  {
  }

  lemma OrderedRekey(l: seq<Rq>, k: Keys, r: Rq, key: int)
    requires Ordered(l, k) && r !in l
    ensures Ordered(l, k[r := key])
  {
  }

  /** A request takes the place and the key of another one. */
  lemma {:induction false} OrderedAfter(l: seq<Rq>, k: Keys, y: Rq, x: Rq)
    requires Ordered(l, k) && y in l && x !in l
    ensures Ordered(InsertAfter(l, y, x), k[x := k[y]])
  {
    var k' := k[x := k[y]];
    var h, t := l[0], l[1..];
    assert Known(l, k);
    hide Ordered;
    assert l == [h] + t;
    OrderedTail(l, k);
    OrderedRekey(t, k, x, k[y]);
    if h == y {
      OrderedCons(x, t, k');
      OrderedCons(y, [x] + t, k');
      assert [y, x] + t == [y] + ([x] + t);
    } else {
      OrderedAfter(t, k, y, x);
      OrderedCons(h, InsertAfter(t, y, x), k');
    }
  }

  lemma {:induction false} NoDupAfter(l: seq<Rq>, y: Rq, x: Rq)
    requires NoDup(l) && x !in l
    ensures NoDup(InsertAfter(l, y, x))
  {
    if l != [] {
      assert l == [l[0]] + l[1..];
      assert NoDup(l[1..]) && l[0] !in l[1..];
      if l[0] == y {
        NoDupAppend(l[1..], x);
        NoDupAppend([x] + l[1..], y);
        assert [y, x] + l[1..] == [y] + ([x] + l[1..]);
      } else {
        NoDupAfter(l[1..], y, x);
        NoDupAppend(InsertAfter(l[1..], y, x), l[0]);
      }
    }
  }
}
