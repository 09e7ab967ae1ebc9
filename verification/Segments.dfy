/**
 * Physical segments of a request, from omap/block/blk-merge.c.
 *
 * A request carries a count of physical segments that is kept up to date by bio and request merges without looking
 * at all its vectors again; later blk_rq_map_sg packs the vectors greedily into a scatterlist whose room is that
 * count. The two agree because the count is always the length of some partition into valid segments.
 */
module Segments {

  /** A bio_vec: `len` bytes at the physical address `addr`. */
  datatype Vec = Vec(addr: int, len: nat)

  /**
   * The limits of the request queue. `phys` and `boundary` are BIOVEC_PHYS_MERGEABLE and BIOVEC_SEG_BOUNDARY,
   * `high` says that a page lies above the bounce limit.
   */
  datatype Queue = Queue(
    cluster: bool,
    maxSegSize: nat,
    maxSegments: nat,
    maxSectors: nat,
    phys: (Vec, Vec) -> bool,
    boundary: (Vec, Vec) -> bool,
    high: Vec -> bool)

  /** Mergeable vectors are adjacent in memory. */
  ghost predicate Contiguous(q: Queue) {
    forall a, b :: q.phys(a, b) ==> a.addr + a.len == b.addr
  }

  function Size(seg: seq<Vec>): nat {
    if seg == [] then 0 else Size(seg[..|seg| - 1]) + seg[|seg| - 1].len
  }

  function Flatten(p: seq<seq<Vec>>): seq<Vec> {
    if p == [] then [] else Flatten(p[..|p| - 1]) + p[|p| - 1]
  }

  predicate Linked(q: Queue, a: Vec, b: Vec) { q.phys(a, b) && q.boundary(a, b) }

  /** What the hardware accepts as one segment: one vector, or a chain of adjacent ones that is not too long. */
  ghost predicate ValidSeg(q: Queue, seg: seq<Vec>) {
    && seg != []
    && (|seg| > 1 ==> q.cluster && Size(seg) <= q.maxSegSize)
    && forall i :: 0 <= i < |seg| - 1 ==> Linked(q, seg[i], seg[i + 1])
  }

  ghost predicate Partition(q: Queue, vecs: seq<Vec>, p: seq<seq<Vec>>) {
    Flatten(p) == vecs && forall i :: 0 <= i < |p| ==> ValidSeg(q, p[i])
  }

  // ---------------------------------------------------------------- greedy packing

  /** May `v` join the segment? `strict` is the counting rule, which keeps high pages apart. */
  predicate CanJoin(q: Queue, strict: bool, seg: seq<Vec>, v: Vec)
    requires seg != []
  {
    && q.cluster && Size(seg) + v.len <= q.maxSegSize && Linked(q, seg[|seg| - 1], v)
    && (strict ==> !q.high(v) && !q.high(seg[|seg| - 1]))
  }

  predicate AllNonEmpty(p: seq<seq<Vec>>) { forall i :: 0 <= i < |p| ==> p[i] != [] }

  /** One more vector in the greedy packing. */
  function Extend(q: Queue, strict: bool, p: seq<seq<Vec>>, v: Vec): (r: seq<seq<Vec>>)
    requires AllNonEmpty(p)
    ensures AllNonEmpty(r) && r != []
  {
    if p != [] && CanJoin(q, strict, p[|p| - 1], v)
    then p[..|p| - 1] + [p[|p| - 1] + [v]]
    else p + [[v]]
  }

  function Greedy(q: Queue, strict: bool, vecs: seq<Vec>): (p: seq<seq<Vec>>)
    ensures AllNonEmpty(p) && (p == [] <==> vecs == [])
  {
    if vecs == [] then [] else Extend(q, strict, Greedy(q, strict, vecs[..|vecs| - 1]), vecs[|vecs| - 1])
  }

  lemma GreedySnoc(q: Queue, strict: bool, vecs: seq<Vec>, v: Vec)
    ensures Greedy(q, strict, vecs + [v]) == Extend(q, strict, Greedy(q, strict, vecs), v)
  {
    assert (vecs + [v])[..|vecs|] == vecs;
  }

  lemma FlattenSnoc(p: seq<seq<Vec>>, seg: seq<Vec>)
    ensures Flatten(p + [seg]) == Flatten(p) + seg
  {
    assert (p + [seg])[..|p|] == p;
  }

  lemma SizeSnoc(seg: seq<Vec>, v: Vec)
    ensures Size(seg + [v]) == Size(seg) + v.len
  {
    assert (seg + [v])[..|seg|] == seg;
  }

  lemma {:induction false} SizeAppend(a: seq<Vec>, b: seq<Vec>)
    ensures Size(a + b) == Size(a) + Size(b)
    decreases |b|
  {
    if b == [] {
      assert a + b == a;
    } else {
      assert (a + b)[..|a + b| - 1] == a + b[..|b| - 1];
      SizeAppend(a, b[..|b| - 1]);
    }
  }

  lemma ValidSnoc(q: Queue, strict: bool, seg: seq<Vec>, v: Vec)
    requires ValidSeg(q, seg) && CanJoin(q, strict, seg, v)
    ensures ValidSeg(q, seg + [v])
  {
    SizeSnoc(seg, v);
    var s := seg + [v];
    forall i | 0 <= i < |s| - 1 ensures Linked(q, s[i], s[i + 1]) {
      if i < |seg| - 1 { assert s[i] == seg[i] && s[i + 1] == seg[i + 1]; }
    }
  }

  /** The greedy packing is a partition into valid segments. */
  lemma {:induction false} GreedyPartition(q: Queue, strict: bool, vecs: seq<Vec>)
    ensures Partition(q, vecs, Greedy(q, strict, vecs))
    decreases |vecs|
  {
    if vecs != [] {
      var init, v := vecs[..|vecs| - 1], vecs[|vecs| - 1];
      GreedyPartition(q, strict, init);
      ExtendPartition(q, strict, init, Greedy(q, strict, init), v);
      assert vecs == init + [v];
    }
  }

  lemma ExtendPartition(q: Queue, strict: bool, vecs: seq<Vec>, p: seq<seq<Vec>>, v: Vec)
    requires AllNonEmpty(p) && Partition(q, vecs, p)
    ensures Partition(q, vecs + [v], Extend(q, strict, p, v))
  {
    if p != [] && CanJoin(q, strict, p[|p| - 1], v) {
      var init, last := p[..|p| - 1], p[|p| - 1];
      ValidSnoc(q, strict, last, v);
      FlattenSnoc(init, last + [v]);
      assert Flatten(init) + (last + [v]) == Flatten(init) + last + [v];
    } else {
      FlattenSnoc(p, [v]);
    }
  }

  // ---------------------------------------------------------------- greedy is optimal

  ghost predicate IsSuffix(a: seq<Vec>, b: seq<Vec>) { |a| <= |b| && a == b[|b| - |a|..] }

  /** The greedy packing has opened fewer segments, or as many with the open one no longer than the other's. */
  ghost predicate Ahead(p: seq<seq<Vec>>, w: seq<seq<Vec>>) {
    |p| < |w| || (|p| == |w| && (p != [] ==> IsSuffix(p[|p| - 1], w[|w| - 1])))
  }

  lemma {:induction false} SizeSuffix(a: seq<Vec>, b: seq<Vec>)
    requires IsSuffix(a, b)
    ensures Size(a) <= Size(b)
  {
    SizeAppend(b[..|b| - |a|], a);
    assert b == b[..|b| - |a|] + a;
  }

  /** Whatever a valid segment takes in, a suffix of it may take in as well. */
  lemma SuffixJoins(q: Queue, seg: seq<Vec>, whole: seq<Vec>, v: Vec)
    requires seg != [] && IsSuffix(seg, whole) && ValidSeg(q, whole + [v])
    ensures CanJoin(q, false, seg, v)
  {
    SizeSnoc(whole, v);
    SizeSuffix(seg, whole);
    var s := whole + [v];
    assert Linked(q, s[|whole| - 1], s[|whole|]);
    assert seg[|seg| - 1] == whole[|whole| - 1];
  }

  /** A partition without its last vector. */
  function Shorten(w: seq<seq<Vec>>): seq<seq<Vec>>
    requires w != [] && w[|w| - 1] != []
  {
    var last := w[|w| - 1];
    if |last| == 1 then w[..|w| - 1] else w[..|w| - 1] + [last[..|last| - 1]]
  }

  lemma ShortenPartition(q: Queue, init: seq<Vec>, v: Vec, w: seq<seq<Vec>>)
    requires Partition(q, init + [v], w)
    ensures w != [] && w[|w| - 1] != [] && w[|w| - 1][|w[|w| - 1]| - 1] == v
    ensures Partition(q, init, Shorten(w))
  {
    assert w != [];
    var head, last := w[..|w| - 1], w[|w| - 1];
    assert ValidSeg(q, last);
    var all := Flatten(head) + last;
    assert all == init + [v];
    var short := last[..|last| - 1];
    assert last == short + [last[|last| - 1]];
    assert init == Flatten(head) + short by { assert all[..|all| - 1] == Flatten(head) + short; }
    if |last| == 1 {
      assert short == [];
    } else {
      FlattenSnoc(head, short);
      SizeSnoc(short, v);
      assert ValidSeg(q, short);
    }
  }

  lemma AheadStep(q: Queue, p: seq<seq<Vec>>, w: seq<seq<Vec>>, v: Vec)
    requires w != [] && w[|w| - 1] != [] && w[|w| - 1][|w[|w| - 1]| - 1] == v && ValidSeg(q, w[|w| - 1])
    requires AllNonEmpty(p) && Ahead(p, Shorten(w))
    ensures Ahead(Extend(q, false, p, v), w)
  {
    var last := w[|w| - 1];
    if |last| > 1 && |p| == |w| {
      var short := last[..|last| - 1];
      assert last == short + [v];
      SuffixJoins(q, p[|p| - 1], short, v);
      assert IsSuffix(p[|p| - 1] + [v], last);
    }
  }

  /** Greedy stays ahead of every partition into valid segments. */
  lemma {:induction false} GreedyAhead(q: Queue, vecs: seq<Vec>, w: seq<seq<Vec>>)
    requires Partition(q, vecs, w)
    ensures Ahead(Greedy(q, false, vecs), w)
    decreases |vecs|
  {
    if vecs != [] {
      var init, v := vecs[..|vecs| - 1], vecs[|vecs| - 1];
      assert vecs == init + [v];
      ShortenPartition(q, init, v, w);
      GreedyAhead(q, init, Shorten(w));
      hide Flatten, Ahead, Extend, Shorten;
      AheadStep(q, Greedy(q, false, init), w, v);
    }
  }

  /** No partition into valid segments is shorter than the greedy one. */
  lemma GreedyOptimal(q: Queue, vecs: seq<Vec>, w: seq<seq<Vec>>)
    requires Partition(q, vecs, w)
    ensures |Greedy(q, false, vecs)| <= |w|
  {
    GreedyAhead(q, vecs, w);
  }

  // ---------------------------------------------------------------- keeping high pages apart

  /** A queue on which vectors in high pages are not linked to anything. */
  function Apart(q: Queue): Queue {
    q.(boundary := (a: Vec, b: Vec) => q.boundary(a, b) && !q.high(a) && !q.high(b))
  }

  /** The counting rule is the packing rule of that queue. */
  lemma {:induction false} GreedyApart(q: Queue, vecs: seq<Vec>)
    ensures Greedy(q, true, vecs) == Greedy(Apart(q), false, vecs)
    decreases |vecs|
  {
    if vecs != [] {
      var init, v := vecs[..|vecs| - 1], vecs[|vecs| - 1];
      GreedyApart(q, init);
      var p := Greedy(q, true, init);
      if p != [] { assert CanJoin(q, true, p[|p| - 1], v) == CanJoin(Apart(q), false, p[|p| - 1], v); }
    }
  }

  /** Counting gives the fewest valid segments in which no high page is joined to another. */
  lemma CountOptimal(q: Queue, vecs: seq<Vec>, w: seq<seq<Vec>>)
    ensures Partition(Apart(q), vecs, Greedy(q, true, vecs))
    ensures Partition(Apart(q), vecs, w) ==> |Greedy(q, true, vecs)| <= |w|
  {
    GreedyApart(q, vecs);
    GreedyPartition(Apart(q), false, vecs);
    if Partition(Apart(q), vecs, w) { GreedyOptimal(Apart(q), vecs, w); }
  }

  /** Without high pages counting and packing agree. */
  lemma {:induction false} GreedyLow(q: Queue, vecs: seq<Vec>)
    requires forall v :: !q.high(v)
    ensures Greedy(q, true, vecs) == Greedy(q, false, vecs)
    decreases |vecs|
  {
    if vecs != [] { GreedyLow(q, vecs[..|vecs| - 1]); }
  }
}
