/**
 * Partial completion of a request, from omap/block/blk-core.c.
 *
 * A driver completes a request some bytes at a time. The request drops that many bytes from the front of its bio
 * chain, ends the bios that are used up, and shortens the one that is not.
 */
module Completion {
  import opened Common
  import opened Segments
  import ScatterList

  const EIO := -5

  /**
   * `table` is bi_io_vec, of which the vectors from `idx` on are still to be transferred; `size` is bi_size.
   * The last four are the cached segment sizes and count.
   */
  datatype Bio = Bio(
    id: nat, table: seq<Vec>, idx: nat, size: nat, sector: nat, uptodate: bool,
    front: nat, back: nat, segs: nat, valid: bool)

  /** A call of the bio's end_io. */
  datatype End = End(id: nat, error: int)

  function Rest(b: Bio): seq<Vec>
    requires b.idx <= |b.table|
  {
    b.table[b.idx..]
  }

  ghost predicate BioOk(b: Bio) { b.idx <= |b.table| && b.size == Size(Rest(b)) }

  ghost predicate AllOk(bios: seq<Bio>) { forall i :: 0 <= i < |bios| ==> BioOk(bios[i]) }

  function Total(bios: seq<Bio>): nat { if bios == [] then 0 else bios[0].size + Total(bios[1..]) }

  /** The bytes the request still has to transfer, by address. */
  ghost function Bytes(bios: seq<Bio>): seq<int>
    requires AllOk(bios)
  {
    if bios == [] then [] else ScatterList.VecBytes(Rest(bios[0])) + Bytes(bios[1..])
  }

  // ---------------------------------------------------------------- one bio

  /** How many vectors are used up by `n` bytes. */
  function Skip(vecs: seq<Vec>, n: nat): nat {
    if n == 0 || vecs == [] || vecs[0].len > n then 0 else 1 + Skip(vecs[1..], n - vecs[0].len)
  }

  /** The vectors without their first `n` bytes. */
  function Trim(vecs: seq<Vec>, n: nat): seq<Vec> {
    if n == 0 || vecs == [] then vecs
    else if vecs[0].len > n then [Vec(vecs[0].addr + n, vecs[0].len - n)] + vecs[1..]
    else Trim(vecs[1..], n - vecs[0].len)
  }

  /** The error a bio is ended with: an earlier failure of a part of it is not forgotten. */
  function Code(b: Bio, error: int): int { if error != 0 then error else if b.uptodate then 0 else EIO }

  function Mark(b: Bio, error: int): Bio { if error != 0 then b.(uptodate := false) else b }

  /** What req_bio_endio does to the bio itself. */
  function Consumed(b: Bio, n: nat, error: int): Bio
    requires n <= b.size
  {
    Mark(b, error).(size := b.size - n, sector := b.sector + n / 512)
  }

  /** The bio after `n` of its bytes, but not all, were completed. */
  function Advance(b: Bio, n: nat, error: int): Bio
    requires BioOk(b) && n < b.size
  {
    if n == 0 then b
    else
      SkipInside(Rest(b), n);
      var k := Skip(Rest(b), n);
      var v := b.table[b.idx + k];
      var r := n - Size(Rest(b)[..k]);
      Consumed(b, n, error).(idx := b.idx + k, table := b.table[b.idx + k := Vec(v.addr + r, v.len - r)])
  }

  lemma SizeCons(v: Vec, rest: seq<Vec>)
    ensures Size([v] + rest) == v.len + Size(rest)
  {
    SizeAppend([v], rest);
    SizeSnoc([], v);
    assert [] + [v] == [v];
  }

  lemma SizeHead(vecs: seq<Vec>)
    requires vecs != []
    ensures Size(vecs) == vecs[0].len + Size(vecs[1..])
  {
    assert vecs == [vecs[0]] + vecs[1..];
    SizeCons(vecs[0], vecs[1..]);
  }

  lemma {:induction false} SkipInside(vecs: seq<Vec>, n: nat)
    requires n < Size(vecs)
    ensures var k := Skip(vecs, n); k < |vecs| && Size(vecs[..k]) <= n && n - Size(vecs[..k]) <= vecs[k].len
    decreases |vecs|
  {
    SizeHead(vecs);
    if n > 0 && vecs[0].len <= n {
      var n', k := n - vecs[0].len, Skip(vecs, n);
      SkipInside(vecs[1..], n');
      assert vecs[..k] == [vecs[0]] + vecs[1..][..k - 1];
      SizeCons(vecs[0], vecs[1..][..k - 1]);
    }
  }

  /** The vectors from the `k`-th on, the first of them shortened. */
  function From(vecs: seq<Vec>, k: nat, r: nat): seq<Vec>
    requires k < |vecs| && r <= vecs[k].len
  {
    [Vec(vecs[k].addr + r, vecs[k].len - r)] + vecs[k + 1..]
  }

  lemma FromTail(vecs: seq<Vec>, k: nat, r: nat)
    requires 0 < k < |vecs| && r <= vecs[k].len
    ensures From(vecs[1..], k - 1, r) == From(vecs, k, r)
  {
    assert vecs[1..][k - 1 + 1..] == vecs[k + 1..];
  }

  lemma SkipStep(vecs: seq<Vec>, n: nat)
    requires n < Size(vecs) && n > 0 && vecs != [] && vecs[0].len <= n
    ensures Trim(vecs, n) == Trim(vecs[1..], n - vecs[0].len)
    ensures Size(vecs) == vecs[0].len + Size(vecs[1..])
    ensures var k := Skip(vecs, n);
            0 < k <= |vecs| && k - 1 == Skip(vecs[1..], n - vecs[0].len)
            && Size(vecs[..k]) == vecs[0].len + Size(vecs[1..][..k - 1])
  {
    SizeHead(vecs);
    SkipInside(vecs, n);
    var k := Skip(vecs, n);
    assert vecs[..k] == [vecs[0]] + vecs[1..][..k - 1];
    SizeCons(vecs[0], vecs[1..][..k - 1]);
  }

  /** Skipping whole vectors and shortening the next one is trimming. */
  lemma {:induction false} SkipTrims(vecs: seq<Vec>, n: nat)
    requires n < Size(vecs)
    ensures var k := Skip(vecs, n);
            && k < |vecs| && Size(vecs[..k]) <= n && n - Size(vecs[..k]) <= vecs[k].len
            && Trim(vecs, n) == From(vecs, k, n - Size(vecs[..k]))
    decreases |vecs|
  {
    hide Size, From, Trim, Skip;
    SkipInside(vecs, n);
    assert vecs != [];
    if n > 0 && vecs[0].len <= n {
      SkipStep(vecs, n);
      SkipTrims(vecs[1..], n - vecs[0].len);
      FromTail(vecs, Skip(vecs, n), n - Size(vecs[..Skip(vecs, n)]));
    } else {
      NoSkip(vecs, n);
    }
  }

  lemma NoSkip(vecs: seq<Vec>, n: nat)
    requires vecs != [] && (n == 0 || vecs[0].len > n)
    ensures Skip(vecs, n) == 0 && Size(vecs[..0]) == 0 && Trim(vecs, n) == From(vecs, 0, n)
  {
    if n == 0 { assert vecs == [vecs[0]] + vecs[1..]; }
  }

  lemma {:induction false} VecBytesLength(vecs: seq<Vec>)
    ensures |ScatterList.VecBytes(vecs)| == Size(vecs)
    decreases |vecs|
  {
    if vecs != [] { VecBytesLength(vecs[..|vecs| - 1]); }
  }

  lemma VecBytesHead(vecs: seq<Vec>)
    requires vecs != []
    ensures ScatterList.VecBytes(vecs) == ScatterList.Range(vecs[0].addr, vecs[0].len) + ScatterList.VecBytes(vecs[1..])
  {
    assert vecs == [vecs[0]] + vecs[1..];
    ScatterList.VecBytesAppend([vecs[0]], vecs[1..]);
    assert ScatterList.VecBytes([vecs[0]]) == ScatterList.Range(vecs[0].addr, vecs[0].len) by {
      assert [vecs[0]][..0] == [];
    }
  }

  lemma TrimHead(v: Vec, rest: seq<Vec>, n: nat)
    requires n < v.len
    ensures var t := [Vec(v.addr + n, v.len - n)] + rest;
            && Size(t) == v.len + Size(rest) - n
            && ScatterList.VecBytes(t) == ScatterList.Range(v.addr, v.len)[n..] + ScatterList.VecBytes(rest)
  {
    var t := Vec(v.addr + n, v.len - n);
    SizeCons(t, rest);
    VecBytesHead([t] + rest);
    ScatterList.RangeAppend(v.addr, n, v.len - n);
    assert ([t] + rest)[1..] == rest;
  }

  /** Trimming drops bytes. */
  lemma {:induction false} TrimBytes(vecs: seq<Vec>, n: nat)
    requires n <= Size(vecs)
    ensures n <= |ScatterList.VecBytes(vecs)| && Size(Trim(vecs, n)) == Size(vecs) - n
    ensures ScatterList.VecBytes(Trim(vecs, n)) == ScatterList.VecBytes(vecs)[n..]
    decreases |vecs|
  {
    hide ScatterList.VecBytes, ScatterList.Range;
    VecBytesLength(vecs);
    if n > 0 {
      SizeHead(vecs);
      VecBytesHead(vecs);
      hide Size;
      var v, rest := vecs[0], vecs[1..];
      if v.len > n {
        TrimHead(v, rest, n);
      } else {
        TrimBytes(rest, n - v.len);
      }
    }
  }

  lemma AdvanceOk(b: Bio, n: nat, error: int)
    requires BioOk(b) && n < b.size
    ensures var a := Advance(b, n, error);
            && BioOk(a) && a.size == b.size - n && a.id == b.id && Rest(a) == Trim(Rest(b), n)
            && (a.uptodate <==> b.uptodate && (n == 0 || error == 0))
            && (n % 512 == 0 && b.size % 512 == 0 ==> a.sector + a.size / 512 == b.sector + b.size / 512)
  {
    hide Size, Trim, Skip, From, ScatterList.VecBytes;
    TrimBytes(Rest(b), n);
    if n > 0 {
      SkipTrims(Rest(b), n);
      var k := Skip(Rest(b), n);
      ReplaceInRest(b, k, n - Size(Rest(b)[..k]));
    } else {
      TrimNone(Rest(b));
    }
  }

  lemma ReplaceInRest(b: Bio, k: nat, r: nat)
    requires b.idx + k < |b.table| && r <= b.table[b.idx + k].len
    ensures var v := b.table[b.idx + k];
            b.table[b.idx + k := Vec(v.addr + r, v.len - r)][b.idx + k..] == From(Rest(b), k, r)
  {
    assert Rest(b)[k] == b.table[b.idx + k] && Rest(b)[k + 1..] == b.table[b.idx + k + 1..];
  }

  lemma TrimNone(vecs: seq<Vec>)
    ensures Trim(vecs, 0) == vecs
  {
  }

  // ---------------------------------------------------------------- the chain

  datatype Left = Left(bios: seq<Bio>, ended: seq<End>)

  /** The chain after `n` bytes were completed, and the bios that were ended by it. */
  function Complete(bios: seq<Bio>, n: nat, error: int): Left
    requires AllOk(bios)
  {
    if bios == [] then Left([], [])
    else if n < bios[0].size then Left([Advance(bios[0], n, error)] + bios[1..], [])
    else
      var e := End(bios[0].id, Code(bios[0], error));
      if n == bios[0].size && |bios| > 1 then Left(bios[1..], [e])
      else
        var t := Complete(bios[1..], n - bios[0].size, error);
        t.(ended := [e] + t.ended)
  }

  ghost predicate Positive(bios: seq<Bio>) { forall i :: 0 <= i < |bios| ==> bios[i].size > 0 }

  function Ids(bios: seq<Bio>): seq<nat> { if bios == [] then [] else [bios[0].id] + Ids(bios[1..]) }

  function EndIds(ended: seq<End>): seq<nat> { if ended == [] then [] else [ended[0].id] + EndIds(ended[1..]) }

  lemma {:induction false} BytesLength(bios: seq<Bio>)
    requires AllOk(bios)
    ensures |Bytes(bios)| == Total(bios)
  {
    if bios != [] {
      VecBytesLength(Rest(bios[0]));
      BytesLength(bios[1..]);
    }
  }

  /** Completion drops bytes from the front of the byte stream, whatever the bios look like. */
  lemma {:induction false} CompleteBytes(bios: seq<Bio>, n: nat, error: int)
    requires AllOk(bios)
    ensures var t := Complete(bios, n, error);
            && AllOk(t.bios) && Min(n, Total(bios)) <= |Bytes(bios)|
            && Bytes(t.bios) == Bytes(bios)[Min(n, Total(bios))..]
            && Total(t.bios) == Total(bios) - Min(n, Total(bios))
  {
    hide ScatterList.VecBytes, Advance, BioOk;
    BytesLength(bios);
    if bios != [] {
      var b, rest := bios[0], bios[1..];
      BytesLength(rest);
      if n < b.size {
        assert bios == [b] + rest;
        AdvanceHead(b, rest, n, error);
      } else {
        CompleteBytes(rest, n - b.size, error);
        assert Bytes(bios)[Min(n, Total(bios))..] == Bytes(rest)[Min(n - b.size, Total(rest))..];
      }
    }
  }

  lemma AdvanceHead(b: Bio, rest: seq<Bio>, n: nat, error: int)
    requires BioOk(b) && AllOk(rest) && n < b.size
    ensures var x, t := [b] + rest, [Advance(b, n, error)] + rest;
            AllOk(x) && AllOk(t) && n <= |Bytes(x)| && Bytes(t) == Bytes(x)[n..] && Total(t) == Total(x) - n
  {
    AdvanceBytes(b, n, error);
    BytesCons(Advance(b, n, error), rest);
    BytesCons(b, rest);
    DropFromFirst(ScatterList.VecBytes(Rest(b)), Bytes(rest), n);
    hide ScatterList.VecBytes, Advance, BioOk, AllOk, Bytes, Total;
  }

  lemma DropFromFirst<T>(a: seq<T>, b: seq<T>, n: nat)
    requires n <= |a|
    ensures (a + b)[n..] == a[n..] + b
  {
  }

  lemma AdvanceBytes(b: Bio, n: nat, error: int)
    requires BioOk(b) && n < b.size
    ensures var a := Advance(b, n, error);
            && BioOk(a) && a.size == b.size - n && n <= |ScatterList.VecBytes(Rest(b))|
            && ScatterList.VecBytes(Rest(a)) == ScatterList.VecBytes(Rest(b))[n..]
  {
    hide ScatterList.VecBytes, Advance, Trim, Size;
    AdvanceOk(b, n, error);
    TrimBytes(Rest(b), n);
  }

  lemma BytesCons(b: Bio, rest: seq<Bio>)
    requires BioOk(b) && AllOk(rest)
    ensures AllOk([b] + rest) && Bytes([b] + rest) == ScatterList.VecBytes(Rest(b)) + Bytes(rest)
    ensures Total([b] + rest) == b.size + Total(rest)
  {
    assert ([b] + rest)[1..] == rest;
  }

  /** Every bio is ended at most once, in order, and the others stay. */
  lemma {:induction false} CompleteIds(bios: seq<Bio>, n: nat, error: int)
    requires AllOk(bios)
    ensures var t := Complete(bios, n, error); EndIds(t.ended) + Ids(t.bios) == Ids(bios)
  {
    if bios != [] {
      var b, rest := bios[0], bios[1..];
      if n < b.size {
        AdvanceOk(b, n, error);
        hide Advance, BioOk;
        assert ([Advance(b, n, error)] + rest)[1..] == rest;
      } else {
        CompleteIds(rest, n - b.size, error);
        var t := Complete(rest, n - b.size, error);
        var e := End(b.id, Code(b, error));
        assert ([e] + t.ended)[1..] == t.ended;
        assert EndIds([e]) == [b.id];
      }
    }
  }

  /** Nothing is left exactly when all bytes are covered; a trailing empty bio needs one byte more. */
  lemma {:induction false} CompleteDone(bios: seq<Bio>, n: nat, error: int)
    requires AllOk(bios)
    ensures Complete(bios, n, error).bios == [] <==>
            n > Total(bios) || (n == Total(bios) && (|bios| <= 1 || bios[|bios| - 1].size > 0))
  {
    if bios != [] && n >= bios[0].size {
      CompleteDone(bios[1..], n - bios[0].size, error);
      if n == bios[0].size && |bios| > 1 { LastSize(bios[1..]); }
    }
  }

  lemma {:induction false} LastSize(bios: seq<Bio>)
    requires bios != []
    ensures bios[|bios| - 1].size <= Total(bios)
  {
    if |bios| > 1 { LastSize(bios[1..]); }
  }

  // ---------------------------------------------------------------- completing in pieces

  /** The same data still to transfer, at the same place of the same bio. */
  ghost predicate Same(a: Bio, b: Bio) {
    BioOk(a) && BioOk(b) && a.id == b.id && a.idx == b.idx && a.size == b.size && Rest(a) == Rest(b)
  }

  ghost predicate SameChain(x: seq<Bio>, y: seq<Bio>) {
    |x| == |y| && forall i :: 0 <= i < |x| ==> Same(x[i], y[i])
  }

  lemma TrimCut(vecs: seq<Vec>, a: nat, b: nat)
    requires vecs != [] && a < vecs[0].len
    ensures Trim([Vec(vecs[0].addr + a, vecs[0].len - a)] + vecs[1..], b) == Trim(vecs, a + b)
  {
    var t := [Vec(vecs[0].addr + a, vecs[0].len - a)] + vecs[1..];
    assert t[1..] == vecs[1..];
    if a + b == 0 { assert t == vecs; }
  }

  lemma {:induction false} TrimTwice(vecs: seq<Vec>, a: nat, b: nat)
    ensures Trim(Trim(vecs, a), b) == Trim(vecs, a + b)
    decreases |vecs|
  {
    if a > 0 && vecs != [] {
      if vecs[0].len > a {
        TrimCut(vecs, a, b);
      } else {
        TrimTwice(vecs[1..], a - vecs[0].len, b);
      }
    }
  }

  lemma {:induction false} SkipTwice(vecs: seq<Vec>, a: nat, b: nat)
    ensures Skip(vecs, a) + Skip(Trim(vecs, a), b) == Skip(vecs, a + b)
    decreases |vecs|
  {
    if a > 0 && vecs != [] {
      if vecs[0].len > a {
        var t := Trim(vecs, a);
        assert t[1..] == vecs[1..];
      } else {
        SkipTwice(vecs[1..], a - vecs[0].len, b);
      }
    }
  }

  lemma AdvanceIdx(b: Bio, n: nat, error: int)
    requires BioOk(b) && n < b.size
    ensures Advance(b, n, error).idx == b.idx + Skip(Rest(b), n)
  {
  }

  lemma AdvanceTwice(b: Bio, m: nat, n: nat, e: int, f: int, g: int)
    requires BioOk(b) && m + n < b.size
    ensures BioOk(Advance(b, m, e)) && n < Advance(b, m, e).size
    ensures Same(Advance(Advance(b, m, e), n, f), Advance(b, m + n, g))
  {
    hide Advance, Trim, Skip, Size;
    AdvanceOk(b, m, e);
    AdvanceOk(Advance(b, m, e), n, f);
    AdvanceOk(b, m + n, g);
    AdvanceIdx(b, m, e);
    AdvanceIdx(Advance(b, m, e), n, f);
    AdvanceIdx(b, m + n, g);
    TrimTwice(Rest(b), m, n);
    SkipTwice(Rest(b), m, n);
  }

  lemma AdvanceSame(a: Bio, b: Bio, n: nat, e: int, f: int)
    requires Same(a, b) && n < a.size
    ensures Same(Advance(a, n, e), Advance(b, n, f))
  {
    hide Advance, Trim, Skip, Size;
    AdvanceOk(a, n, e);
    AdvanceOk(b, n, f);
    AdvanceIdx(a, n, e);
    AdvanceIdx(b, n, f);
  }

  lemma SameOk(x: seq<Bio>, y: seq<Bio>)
    requires SameChain(x, y)
    ensures AllOk(x) && AllOk(y)
  {
    forall i | 0 <= i < |x| ensures BioOk(x[i]) && BioOk(y[i]) { assert Same(x[i], y[i]); }
  }

  lemma SameRefl(x: seq<Bio>)
    requires AllOk(x)
    ensures SameChain(x, x)
  {
  }

  lemma SameCons(a: Bio, b: Bio, x: seq<Bio>, y: seq<Bio>)
    requires Same(a, b) && SameChain(x, y)
    ensures SameChain([a] + x, [b] + y)
  {
  }

  /** What is left depends on the data only, not on the errors. */
  lemma {:induction false} CompleteSame(x: seq<Bio>, y: seq<Bio>, n: nat, e: int, f: int)
    requires SameChain(x, y)
    ensures AllOk(x) && AllOk(y) && SameChain(Complete(x, n, e).bios, Complete(y, n, f).bios)
    decreases |x|
  {
    SameOk(x, y);
    hide Same, BioOk, Advance;
    if x != [] {
      assert Same(x[0], y[0]);
      assert SameChain(x[1..], y[1..]);
      SameSize(x[0], y[0]);
      if n < x[0].size {
        AdvanceSame(x[0], y[0], n, e, f);
        SameCons(Advance(x[0], n, e), Advance(y[0], n, f), x[1..], y[1..]);
      } else {
        CompleteSame(x[1..], y[1..], n - x[0].size, e, f);
      }
    }
  }

  lemma SameSize(a: Bio, b: Bio)
    requires Same(a, b)
    ensures a.size == b.size
  {
  }

  lemma CompleteNothing(bios: seq<Bio>, error: int)
    requires AllOk(bios) && Positive(bios)
    ensures Complete(bios, 0, error) == Left(bios, [])
  {
    if bios != [] { assert bios == [bios[0]] + bios[1..]; }
  }

  lemma CompleteOk(bios: seq<Bio>, n: nat, error: int)
    requires AllOk(bios)
    ensures AllOk(Complete(bios, n, error).bios)
  {
    CompleteBytes(bios, n, error);
  }

  lemma {:induction false} CompletePositive(bios: seq<Bio>, n: nat, error: int)
    requires AllOk(bios) && Positive(bios)
    ensures Positive(Complete(bios, n, error).bios)
  {
    if bios != [] {
      if n < bios[0].size {
        AdvanceOk(bios[0], n, error);
      } else {
        CompletePositive(bios[1..], n - bios[0].size, error);
      }
    }
  }

  /** The first piece does not use up the first bio. */
  lemma CompleteTwiceHead(bios: seq<Bio>, m: nat, n: nat, e: int, f: int, g: int)
    requires AllOk(bios) && bios != [] && m < bios[0].size
    ensures AllOk(Complete(bios, m, e).bios)
    ensures SameChain(Complete(Complete(bios, m, e).bios, n, f).bios, Complete(bios, m + n, g).bios)
  {
    var b, rest := bios[0], bios[1..];
    SameRefl(rest);
    hide Same, BioOk, Advance;
    CompleteOk(bios, m, e);
    var a := Advance(b, m, e);
    var t := [a] + rest;
    assert a.size == b.size - m by { AdvanceOk(b, m, e); }
    assert t[1..] == rest;
    if m + n < b.size {
      AdvanceTwice(b, m, n, e, f, g);
      SameCons(Advance(a, n, f), Advance(b, m + n, g), rest, rest);
    } else {
      CompleteSame(rest, rest, m + n - b.size, f, g);
    }
  }

  /** Completing `m` bytes and then `n` leaves the same data as completing `m + n`. */
  lemma {:induction false} CompleteTwice(bios: seq<Bio>, m: nat, n: nat, e: int, f: int, g: int)
    requires AllOk(bios) && Positive(bios)
    ensures AllOk(Complete(bios, m, e).bios)
    ensures SameChain(Complete(Complete(bios, m, e).bios, n, f).bios, Complete(bios, m + n, g).bios)
    decreases |bios|
  {
    CompleteOk(bios, m, e);
    SameRefl(bios);
    hide Same, BioOk, Advance, AllOk, SameChain;
    if bios != [] {
      var b, rest := bios[0], bios[1..];
      if m < b.size {
        CompleteTwiceHead(bios, m, n, e, f, g);
      } else if m == b.size && rest != [] {
        CompleteSame(rest, rest, n, f, g);
        if n == 0 { CompleteNothing(rest, f); }
      } else {
        CompleteTwice(rest, m - b.size, n, e, f, g);
      }
    }
  }

  // ---------------------------------------------------------------- whole runs

  datatype Chunk = Chunk(bytes: nat, error: int)

  function Run(bios: seq<Bio>, chunks: seq<Chunk>): (r: Left)
    requires AllOk(bios)
    ensures AllOk(r.bios)
    decreases |chunks|
  {
    if chunks == [] then Left(bios, [])
    else
      CompleteOk(bios, chunks[0].bytes, chunks[0].error);
      var t := Complete(bios, chunks[0].bytes, chunks[0].error);
      var u := Run(t.bios, chunks[1..]);
      Left(u.bios, t.ended + u.ended)
  }

  function Sum(chunks: seq<Chunk>): nat { if chunks == [] then 0 else chunks[0].bytes + Sum(chunks[1..]) }

  function Repeat(n: nat, code: int): (r: seq<int>)
    ensures |r| == n && forall i :: 0 <= i < n ==> r[i] == code
  {
    if n == 0 then [] else [code] + Repeat(n - 1, code)
  }

  /** For every byte completed so far, the error it was reported with, or zero. */
  function Codes(chunks: seq<Chunk>): (r: seq<int>)
    ensures |r| == Sum(chunks)
  {
    if chunks == [] then [] else Repeat(chunks[0].bytes, chunks[0].error) + Codes(chunks[1..])
  }

  predicate Clear(codes: seq<int>) { forall i :: 0 <= i < |codes| ==> codes[i] == 0 }

  lemma ClearAppend(n: nat, code: int, codes: seq<int>)
    ensures Clear(Repeat(n, code) + codes) <==> (n == 0 || code == 0) && Clear(codes)
  {
    var w := Repeat(n, code) + codes;
    assert forall i :: 0 <= i < |codes| ==> codes[i] == w[n + i];
    assert n > 0 ==> w[0] == code;
  }

  function Errors(ended: seq<End>): seq<int> { if ended == [] then [] else [ended[0].error] + Errors(ended[1..]) }

  /**
   * What the owner of a bio should hear when all its bytes have been reported: the error of the last byte; failing that,
   * -EIO if the bio was not up to date or an earlier byte of it failed; else that all is well.
   */
  function Verdict(uptodate: bool, codes: seq<int>): int
    requires codes != []
  {
    var last := codes[|codes| - 1];
    if last != 0 then last else if uptodate && Clear(codes) then 0 else -5
  }

  /** The verdicts on the bios whose last byte was completed, from the reports on the bytes alone. */
  function Fates(bios: seq<Bio>, codes: seq<int>): seq<int>
    decreases |bios|
  {
    if bios == [] || |codes| < bios[0].size || bios[0].size == 0 then []
    else [Verdict(bios[0].uptodate, codes[..bios[0].size])] + Fates(bios[1..], codes[bios[0].size..])
  }

  lemma {:induction false} ErrorsAppend(a: seq<End>, b: seq<End>)
    ensures Errors(a + b) == Errors(a) + Errors(b)
  {
    if a == [] {
      assert a + b == b;
    } else {
      assert (a + b)[1..] == a[1..] + b;
      ErrorsAppend(a[1..], b);
    }
  }

  lemma ErrorsCons(e: End, rest: seq<End>)
    ensures Errors([e] + rest) == [e.error] + Errors(rest)
  {
    assert ([e] + rest)[1..] == rest;
  }

  /** The bio that is only shortened: its fate is that of the shortened bio. */
  lemma FateOfHead(b: Bio, rest: seq<Bio>, n: nat, error: int, codes: seq<int>)
    requires BioOk(b) && n < b.size
    ensures Fates([b] + rest, Repeat(n, error) + codes) == Fates([Advance(b, n, error)] + rest, codes)
  {
    hide Advance, BioOk, Repeat, Clear;
    var w := Repeat(n, error) + codes;
    AdvanceOk(b, n, error);
    FatesCons(b, rest, w);
    FatesCons(Advance(b, n, error), rest, codes);
    if |codes| >= b.size - n {
      assert w[..b.size] == Repeat(n, error) + codes[..b.size - n];
      assert w[b.size..] == codes[b.size - n..];
      ClearAppend(n, error, codes[..b.size - n]);
    }
  }

  lemma FatesCons(b: Bio, rest: seq<Bio>, codes: seq<int>)
    requires b.size > 0
    ensures Fates([b] + rest, codes) ==
            if |codes| < b.size then []
            else [Verdict(b.uptodate, codes[..b.size])] + Fates(rest, codes[b.size..])
  {
    assert ([b] + rest)[1..] == rest;
  }

  lemma FateOfCovered(b: Bio, rest: seq<Bio>, n: nat, error: int, codes: seq<int>)
    requires 0 < b.size <= n
    ensures Fates([b] + rest, Repeat(n, error) + codes) == [Code(b, error)] + Fates(rest, Repeat(n - b.size, error) + codes)
  {
    hide Fates, Repeat, Clear;
    FatesCons(b, rest, Repeat(n, error) + codes);
    RepeatCut(n, b.size, error, codes);
    ClearAppend(b.size, error, []);
    ClearNone();
  }

  lemma RepeatCut(n: nat, k: nat, code: int, codes: seq<int>)
    requires k <= n
    ensures var w := Repeat(n, code) + codes;
            w[k..] == Repeat(n - k, code) + codes && w[..k] == Repeat(k, code) + []
  {
    hide Repeat;
  }

  lemma ClearNone()
    ensures Clear([])
  {
  }

  /** One more piece: the bios it ends hear what they should, and the others are still to hear the rest. */
  lemma {:induction false} FatesStep(bios: seq<Bio>, n: nat, error: int, codes: seq<int>)
    requires AllOk(bios) && Positive(bios)
    ensures var t := Complete(bios, n, error);
            Fates(bios, Repeat(n, error) + codes) == Errors(t.ended) + Fates(t.bios, codes)
    decreases |bios|
  {
    hide BioOk, Advance, Fates, Errors, Code, Complete;
    CompleteUnfold(bios, n, error);
    if bios == [] {
      FatesNone(Repeat(n, error) + codes);
      FatesNone(codes);
      ErrorsNone();
    } else {
      var b, rest := bios[0], bios[1..];
      assert bios == [b] + rest;
      if n < b.size {
        FateOfHead(b, rest, n, error, codes);
        ErrorsNone();
      } else {
        FateOfCovered(b, rest, n, error, codes);
        var e := End(b.id, Code(b, error));
        ErrorsCons(e, Complete(rest, n - b.size, error).ended);
        ErrorsCons(e, []);
        ErrorsNone();
        if n == b.size && |bios| > 1 {
          assert Repeat(0, error) + codes == codes;
          assert [e] + [] == [e];
        } else {
          FatesStep(rest, n - b.size, error, codes);
        }
      }
    }
  }

  lemma CompleteUnfold(bios: seq<Bio>, n: nat, error: int)
    requires AllOk(bios)
    ensures bios == [] ==> Complete(bios, n, error) == Left([], [])
    ensures bios != [] && n < bios[0].size ==> BioOk(bios[0]) && Complete(bios, n, error) == Left([Advance(bios[0], n, error)] + bios[1..], [])
    ensures bios != [] && n >= bios[0].size ==>
              var e := End(bios[0].id, Code(bios[0], error));
              && AllOk(bios[1..])
              && Complete(bios, n, error) ==
                 if n == bios[0].size && |bios| > 1 then Left(bios[1..], [e])
                 else var t := Complete(bios[1..], n - bios[0].size, error); t.(ended := [e] + t.ended)
  {
    hide BioOk, Advance, Code;
  }

  lemma FatesNone(codes: seq<int>)
    ensures Fates([], codes) == []
  {
  }

  lemma ErrorsNone()
    ensures Errors([]) == []
  {
  }

  /** Over any run, exactly the covered bios are ended, in order, and each owner hears what the bytes say. */
  lemma {:induction false} RunFates(bios: seq<Bio>, chunks: seq<Chunk>)
    requires AllOk(bios) && Positive(bios)
    ensures Errors(Run(bios, chunks).ended) == Fates(bios, Codes(chunks))
    decreases |chunks|
  {
    if chunks == [] {
      assert Positive(bios);
    } else {
      var c := chunks[0];
      var t := Complete(bios, c.bytes, c.error);
      CompleteOk(bios, c.bytes, c.error);
      CompletePositive(bios, c.bytes, c.error);
      hide Fates, Errors, Complete;
      FatesStep(bios, c.bytes, c.error, Codes(chunks[1..]));
      RunFates(t.bios, chunks[1..]);
      ErrorsAppend(t.ended, Run(t.bios, chunks[1..]).ended);
    }
  }

  /** Over any run, every bio is ended once, in order, or is still there; the bytes left are the ones not completed. */
  lemma RunConserves(bios: seq<Bio>, chunks: seq<Chunk>)
    requires AllOk(bios)
    ensures var r := Run(bios, chunks);
            && EndIds(r.ended) + Ids(r.bios) == Ids(bios)
            && Min(Sum(chunks), Total(bios)) <= |Bytes(bios)|
            && Bytes(r.bios) == Bytes(bios)[Min(Sum(chunks), Total(bios))..]
  {
    hide Run, AllOk, Bytes, Ids, EndIds, Sum, Total;
    RunIds(bios, chunks);
    RunBytes(bios, chunks);
  }

  lemma {:induction false} RunIds(bios: seq<Bio>, chunks: seq<Chunk>)
    requires AllOk(bios)
    ensures var r := Run(bios, chunks); EndIds(r.ended) + Ids(r.bios) == Ids(bios)
    decreases |chunks|
  {
    hide Complete, AllOk, Ids, EndIds;
    if chunks == [] {
      EndIdsNone();
    } else {
      var c := chunks[0];
      var t := Complete(bios, c.bytes, c.error);
      CompleteOk(bios, c.bytes, c.error);
      CompleteIds(bios, c.bytes, c.error);
      RunIds(t.bios, chunks[1..]);
      EndIdsAppend(t.ended, Run(t.bios, chunks[1..]).ended);
    }
  }

  lemma {:induction false} RunBytes(bios: seq<Bio>, chunks: seq<Chunk>)
    requires AllOk(bios)
    ensures 0 <= Min(Sum(chunks), Total(bios)) <= |Bytes(bios)|
    ensures Bytes(Run(bios, chunks).bios) == Bytes(bios)[Min(Sum(chunks), Total(bios))..]
    decreases |chunks|
  {
    hide Complete, AllOk, Bytes, Total;
    BytesLength(bios);
    if chunks != [] {
      var c := chunks[0];
      var t := Complete(bios, c.bytes, c.error);
      CompleteBytes(bios, c.bytes, c.error);
      RunBytes(t.bios, chunks[1..]);
      hide Min, Sum;
      SumCons(chunks);
      DropTwice(Bytes(bios), Total(bios), c.bytes, Sum(chunks[1..]));
    }
  }

  lemma SumCons(chunks: seq<Chunk>)
    requires chunks != []
    ensures Sum(chunks) == chunks[0].bytes + Sum(chunks[1..])
  {
  }

  lemma DropTwice(all: seq<int>, total: nat, a: nat, b: nat)
    requires |all| == total
    ensures Min(a, total) <= total && Min(b, total - Min(a, total)) <= total - Min(a, total) && Min(a + b, total) <= total
    ensures 0 <= Min(a, total) && 0 <= Min(b, total - Min(a, total)) && 0 <= Min(a + b, total)
    ensures all[Min(a, total)..][Min(b, total - Min(a, total))..] == all[Min(a + b, total)..]
  {
  }

  lemma EndIdsNone()
    ensures EndIds([]) == []
  {
  }

  lemma {:induction false} EndIdsAppend(a: seq<End>, b: seq<End>)
    ensures EndIds(a + b) == EndIds(a) + EndIds(b)
  {
    if a == [] {
      assert a + b == b;
    } else {
      assert (a + b)[1..] == a[1..] + b;
      EndIdsAppend(a[1..], b);
    }
  }

  lemma SameTrans(x: seq<Bio>, y: seq<Bio>, z: seq<Bio>)
    requires SameChain(x, y) && SameChain(y, z)
    ensures SameChain(x, z)
  {
    forall i | 0 <= i < |x| ensures Same(x[i], z[i]) { assert Same(x[i], y[i]) && Same(y[i], z[i]); }
  }

  /** However a completion is split, it leaves the same data as completing all of it at once. */
  lemma {:induction false} RunAsOne(bios: seq<Bio>, chunks: seq<Chunk>, error: int)
    requires AllOk(bios) && Positive(bios)
    ensures SameChain(Run(bios, chunks).bios, Complete(bios, Sum(chunks), error).bios)
    decreases |chunks|
  {
    hide Complete, Same;
    if chunks == [] {
      CompleteNothing(bios, error);
      SameRefl(bios);
    } else {
      var c := chunks[0];
      var t := Complete(bios, c.bytes, c.error);
      CompleteOk(bios, c.bytes, c.error);
      CompletePositive(bios, c.bytes, c.error);
      RunAsOne(t.bios, chunks[1..], error);
      CompleteTwice(bios, c.bytes, Sum(chunks[1..]), c.error, error, error);
      SameTrans(Run(bios, chunks).bios, Complete(t.bios, Sum(chunks[1..]), error).bios, Complete(bios, Sum(chunks), error).bios);
    }
  }
}
