/**
 * The loops of blk-merge.c over the vectors of a request, and the request object that the merge functions update.
 */
module ScatterList {
  import opened Common
  import opened Segments
  import opened SegmentMerge

  /** A scatterlist entry. */
  datatype Sg = Sg(addr: int, length: nat)

  function SgOf(p: seq<seq<Vec>>): (r: seq<Sg>)
    requires AllNonEmpty(p)
    ensures |r| == |p|
  {
    if p == [] then [] else SgOf(p[..|p| - 1]) + [Sg(p[|p| - 1][0].addr, Size(p[|p| - 1]))]
  }

  /** `n` consecutive byte addresses. */
  function Range(addr: int, n: nat): (r: seq<int>)
    ensures |r| == n
  {
    if n == 0 then [] else Range(addr, n - 1) + [addr + n - 1]
  }

  function VecBytes(vecs: seq<Vec>): seq<int> {
    if vecs == [] then [] else VecBytes(vecs[..|vecs| - 1]) + Range(vecs[|vecs| - 1].addr, vecs[|vecs| - 1].len)
  }

  function SgBytes(sg: seq<Sg>): seq<int> {
    if sg == [] then [] else SgBytes(sg[..|sg| - 1]) + Range(sg[|sg| - 1].addr, sg[|sg| - 1].length)
  }

  // ---------------------------------------------------------------- the scatterlist covers the data

  lemma {:induction false} RangeAppend(addr: int, n: nat, m: nat)
    ensures Range(addr, n + m) == Range(addr, n) + Range(addr + n, m)
    decreases m
  {
    if m > 0 {
      RangeAppend(addr, n, m - 1);
      assert Range(addr, n) + Range(addr + n, m) == Range(addr, n) + Range(addr + n, m - 1) + [addr + n + m - 1];
    } else {
      assert Range(addr, n) + Range(addr + n, 0) == Range(addr, n);
    }
  }

  /** A chain of linked vectors is one stretch of memory. */
  lemma {:induction false} SegmentBytes(q: Queue, seg: seq<Vec>)
    requires Contiguous(q) && seg != [] && forall i :: 0 <= i < |seg| - 1 ==> Linked(q, seg[i], seg[i + 1])
    ensures VecBytes(seg) == Range(seg[0].addr, Size(seg))
    ensures seg[0].addr + Size(seg) == seg[|seg| - 1].addr + seg[|seg| - 1].len
    decreases |seg|
  {
    var init, v := seg[..|seg| - 1], seg[|seg| - 1];
    if init == [] {
      assert VecBytes(init) == [] && Size(init) == 0;
      assert VecBytes(seg) == Range(v.addr, v.len);
    } else {
      SegmentBytes(q, init);
      assert Linked(q, seg[|seg| - 2], seg[|seg| - 1]);
      RangeAppend(seg[0].addr, Size(init), v.len);
    }
  }

  lemma {:induction false} VecBytesAppend(a: seq<Vec>, b: seq<Vec>)
    ensures VecBytes(a + b) == VecBytes(a) + VecBytes(b)
    decreases |b|
  {
    if b == [] {
      assert a + b == a;
    } else {
      hide Range;
      var init, v := b[..|b| - 1], b[|b| - 1];
      assert (a + b)[..|a + b| - 1] == a + init;
      VecBytesAppend(a, init);
      var last := Range(v.addr, v.len);
      assert VecBytes(a) + VecBytes(init) + last == VecBytes(a) + (VecBytes(init) + last);
    }
  }

  /** The entries cover the bytes of the vectors, in order. */
  lemma {:induction false} SgCovers(q: Queue, p: seq<seq<Vec>>)
    requires Contiguous(q) && AllNonEmpty(p) && forall i :: 0 <= i < |p| ==> ValidSeg(q, p[i])
    ensures SgBytes(SgOf(p)) == VecBytes(Flatten(p))
    decreases |p|
  {
    if p != [] {
      var init, last := p[..|p| - 1], p[|p| - 1];
      SgCovers(q, init);
      assert ValidSeg(q, last);
      SegmentBytes(q, last);
      VecBytesAppend(Flatten(init), last);
      assert SgOf(p)[..|p| - 1] == SgOf(init);
    }
  }

  lemma SgSnoc(p: seq<seq<Vec>>, seg: seq<Vec>)
    requires AllNonEmpty(p) && seg != []
    ensures AllNonEmpty(p + [seg]) && SgOf(p + [seg]) == SgOf(p) + [Sg(seg[0].addr, Size(seg))]
  {
    assert (p + [seg])[..|p|] == p;
  }

  /** What packing one more vector does to the scatterlist. */
  lemma SgExtend(q: Queue, p: seq<seq<Vec>>, v: Vec)
    requires AllNonEmpty(p)
    ensures var s, t := SgOf(p), SgOf(Extend(q, false, p, v));
            if p != [] && CanJoin(q, false, p[|p| - 1], v)
            then t == s[|s| - 1 := s[|s| - 1].(length := s[|s| - 1].length + v.len)]
            else t == s + [Sg(v.addr, v.len)]
  {
    if p != [] && CanJoin(q, false, p[|p| - 1], v) {
      SgJoin(p, v);
    } else {
      SizeOne(v);
      SgSnoc(p, [v]);
    }
  }

  lemma SgJoin(p: seq<seq<Vec>>, v: Vec)
    requires AllNonEmpty(p) && p != []
    ensures var s, t := SgOf(p), p[..|p| - 1] + [p[|p| - 1] + [v]];
            AllNonEmpty(t) && SgOf(t) == s[|s| - 1 := s[|s| - 1].(length := s[|s| - 1].length + v.len)]
  {
    var init, last := p[..|p| - 1], p[|p| - 1];
    SizeSnoc(last, v);
    SgSnoc(init, last + [v]);
    assert p == init + [last];
    SgSnoc(init, last);
    hide SgOf, Size;
  }

  lemma {:induction false} LastOfGreedy(q: Queue, strict: bool, vecs: seq<Vec>)
    requires vecs != []
    ensures var p := Greedy(q, strict, vecs); p[|p| - 1][|p[|p| - 1]| - 1] == vecs[|vecs| - 1]
  {
  }

  lemma LastEntry(q: Queue, vecs: seq<Vec>)
    requires vecs != []
    ensures var p := Greedy(q, false, vecs); SgOf(p)[|p| - 1].length == Size(p[|p| - 1])
  {
  }

  /** The loop of blk_rq_map_sg has packed the vectors `done`; `prev` is the last of them. */
  ghost predicate Mapped(q: Queue, done: seq<Vec>, prev: Vec, sg: seq<Sg>) {
    sg == SgOf(Greedy(q, false, done)) && (done != [] ==> prev == done[|done| - 1])
  }

  /** The test of blk_rq_map_sg on the current entry is the one that packs greedily. */
  lemma MappedStep(q: Queue, done: seq<Vec>, prev: Vec, sg: seq<Sg>, v: Vec)
    requires Mapped(q, done, prev, sg)
    ensures sg == [] <==> done == []
    ensures var join := sg != [] && q.cluster && sg[|sg| - 1].length + v.len <= q.maxSegSize
                        && q.phys(prev, v) && q.boundary(prev, v);
            Mapped(q, done + [v], v,
                   if join then sg[|sg| - 1 := sg[|sg| - 1].(length := sg[|sg| - 1].length + v.len)]
                   else sg + [Sg(v.addr, v.len)])
  {
    GreedySnoc(q, false, done, v);
    SgExtend(q, Greedy(q, false, done), v);
    if done != [] {
      LastOfGreedy(q, false, done);
      LastEntry(q, done);
    }
    hide SgOf, Greedy, Size;
  }

  /** The vectors of one bio. */
  method MapBio(q: Queue, ghost before: seq<Vec>, prev0: Vec, sg0: seq<Sg>, vecs: seq<Vec>)
    returns (prev: Vec, sg: seq<Sg>)
    requires Mapped(q, before, prev0, sg0)
    ensures Mapped(q, before + vecs, prev, sg)
  {
    hide Mapped;
    prev, sg := prev0, sg0;
    assert before + vecs[..0] == before;
    for j := 0 to |vecs|
      invariant Mapped(q, before + vecs[..j], prev, sg)
    {
      var v := vecs[j];
      MappedStep(q, before + vecs[..j], prev, sg, v);
      assert before + vecs[..j + 1] == before + vecs[..j] + [v];
      if sg != [] && q.cluster && sg[|sg| - 1].length + v.len <= q.maxSegSize && q.phys(prev, v) && q.boundary(prev, v) {
        sg := sg[|sg| - 1 := sg[|sg| - 1].(length := sg[|sg| - 1].length + v.len)];
      } else {
        sg := sg + [Sg(v.addr, v.len)];
      }
      prev := v;
    }
    assert vecs[..|vecs|] == vecs;
  }

  lemma VecsPrefix(bios: seq<Bio>, k: nat)
    requires k < |bios|
    ensures Vecs(bios[..k + 1]) == Vecs(bios[..k]) + bios[k].vecs
  {
    assert bios[..k + 1] == bios[..k] + [bios[k]];
    VecsSnoc(bios[..k], bios[k]);
  }

  /** blk_rq_map_sg, before pad and drain. */
  method MapSg(q: Queue, bios: seq<Bio>) returns (sg: seq<Sg>)
    ensures sg == SgOf(Greedy(q, false, Vecs(bios)))
  {
    sg := [];
    var prev := Vec(0, 0);
    assert Mapped(q, Vecs(bios[..0]), prev, sg);
    for k := 0 to |bios|
      invariant Mapped(q, Vecs(bios[..k]), prev, sg)
    {
      hide Mapped;
      VecsPrefix(bios, k);
      prev, sg := MapBio(q, Vecs(bios[..k]), prev, sg, bios[k].vecs);
    }
    assert bios[..|bios|] == bios;
  }

  // ---------------------------------------------------------------- counting

  /** The variables of __blk_recalc_rq_segments after the vectors `done`. */
  datatype Counter = Counter(nr: nat, segSize: nat, prev: Vec, highPrv: bool, front: nat)

  ghost predicate CountedSoFar(q: Queue, done: seq<Vec>, front0: nat, c: Counter) {
    var p := Greedy(q, true, done);
    && c.nr == |p|
    && (p == [] ==> c.highPrv && c.segSize == 0)
    && (p != [] ==> c.segSize == Size(p[c.nr - 1]) && c.prev == done[|done| - 1] && c.highPrv == q.high(c.prev))
    && c.front == if c.nr >= 2 then Max(front0, Size(p[0])) else front0
  }

  /** The body of the loop: does the vector start a new segment? */
  function CountVec(q: Queue, c: Counter, v: Vec): Counter {
    var high := q.high(v);
    if !high && !c.highPrv && q.cluster && c.segSize + v.len <= q.maxSegSize && q.phys(c.prev, v) && q.boundary(c.prev, v)
    then c.(segSize := c.segSize + v.len, prev := v)
    else Counter(c.nr + 1, v.len, v, high, if c.nr == 1 && c.segSize > c.front then c.segSize else c.front)
  }

  lemma CountVecJoins(q: Queue, done: seq<Vec>, front0: nat, c: Counter, v: Vec)
    requires CountedSoFar(q, done, front0, c) && done != []
    requires CanJoin(q, true, Greedy(q, true, done)[c.nr - 1], v)
    ensures CountedSoFar(q, done + [v], front0, CountVec(q, c, v))
  {
    hide Greedy, Size;
    var p := Greedy(q, true, done);
    LastOfGreedy(q, true, done);
    GreedySnoc(q, true, done, v);
    SizeSnoc(p[c.nr - 1], v);
    var t := p[..c.nr - 1] + [p[c.nr - 1] + [v]];
    assert Extend(q, true, p, v) == t;
    assert t[c.nr - 1] == p[c.nr - 1] + [v];
    assert c.nr >= 2 ==> t[0] == p[0];
  }

  lemma CountVecOpens(q: Queue, done: seq<Vec>, front0: nat, c: Counter, v: Vec)
    requires CountedSoFar(q, done, front0, c)
    requires done != [] ==> !CanJoin(q, true, Greedy(q, true, done)[c.nr - 1], v)
    ensures CountedSoFar(q, done + [v], front0, CountVec(q, c, v))
  {
    assert Greedy(q, true, done) == [] <==> done == [];
    hide Greedy, Size;
    var p := Greedy(q, true, done);
    if done != [] { LastOfGreedy(q, true, done); }
    GreedySnoc(q, true, done, v);
    SizeOne(v);
    var t := p + [[v]];
    assert Extend(q, true, p, v) == t && t[c.nr] == [v];
    assert c.nr >= 1 ==> t[0] == p[0];
  }

  lemma SizeOne(v: Vec)
    ensures Size([v]) == v.len
  {
    SizeSnoc([], v);
    assert [] + [v] == [v];
  }

  lemma CountVecOk(q: Queue, done: seq<Vec>, front0: nat, c: Counter, v: Vec)
    requires CountedSoFar(q, done, front0, c)
    ensures CountedSoFar(q, done + [v], front0, CountVec(q, c, v))
  {
    if done != [] && CanJoin(q, true, Greedy(q, true, done)[c.nr - 1], v) {
      CountVecJoins(q, done, front0, c, v);
    } else {
      CountVecOpens(q, done, front0, c, v);
    }
  }

  method CountBio(q: Queue, ghost before: seq<Vec>, ghost front0: nat, c0: Counter, vecs: seq<Vec>) returns (c: Counter)
    requires CountedSoFar(q, before, front0, c0)
    ensures CountedSoFar(q, before + vecs, front0, c)
  {
    hide CountedSoFar, CountVec;
    c := c0;
    assert before + vecs[..0] == before;
    for j := 0 to |vecs|
      invariant CountedSoFar(q, before + vecs[..j], front0, c)
    {
      CountVecOk(q, before + vecs[..j], front0, c, vecs[j]);
      assert before + vecs[..j + 1] == before + vecs[..j] + [vecs[j]];
      c := CountVec(q, c, vecs[j]);
    }
    assert vecs[..|vecs|] == vecs;
  }

  method CountBios(q: Queue, bios: seq<Bio>, front0: nat) returns (c: Counter)
    ensures CountedSoFar(q, Vecs(bios), front0, c)
  {
    c := Counter(0, 0, Vec(0, 0), true, front0);
    assert CountedSoFar(q, Vecs(bios[..0]), front0, c);
    hide CountedSoFar;
    for k := 0 to |bios|
      invariant CountedSoFar(q, Vecs(bios[..k]), front0, c)
    {
      VecsPrefix(bios, k);
      c := CountBio(q, Vecs(bios[..k]), front0, c, bios[k].vecs);
    }
    assert bios[..|bios|] == bios;
  }

  /** __blk_recalc_rq_segments: the count, and the chain with its first and last segment sizes cached. */
  method RecalcSegments(q: Queue, bios: seq<Bio>) returns (nr: nat, out: seq<Bio>)
    ensures nr == |Greedy(q, true, Vecs(bios))|
    ensures if bios == [] then out == [] else out == Recached(q, bios)
  {
    hide Greedy, Size, Vecs, CountedSoFar, Recached;
    if bios == [] {
      NoBios(q);
      return 0, [];
    }
    var c := CountBios(q, bios, bios[0].front);
    CountTotals(q, Vecs(bios), bios[0].front, c);
    var front := c.front;
    if c.nr == 1 && c.segSize > front {
      front := c.segSize;
    }
    nr := c.nr;
    out := bios[0 := bios[0].(front := front)];
    var n := |out| - 1;
    if c.segSize > out[n].back {
      out := out[n := out[n].(back := c.segSize)];
    }
    CachedIs(q, bios, front, c.segSize);
  }

  lemma NoBios(q: Queue)
    ensures Greedy(q, true, Vecs([])) == []
  {
  }

  lemma CachedIs(q: Queue, bios: seq<Bio>, front: nat, segSize: nat)
    requires bios != [] && var p := Greedy(q, true, Vecs(bios));
             if p == [] then front == bios[0].front && segSize == 0
             else front == Max(bios[0].front, Size(p[0])) && segSize == Size(p[|p| - 1])
    ensures var out, n := bios[0 := bios[0].(front := front)], |bios| - 1;
            Recached(q, bios) == if segSize > out[n].back then out[n := out[n].(back := segSize)] else out
  {
    hide Greedy, Size, Vecs;
  }

  lemma CountTotals(q: Queue, vecs: seq<Vec>, front0: nat, c: Counter)
    requires CountedSoFar(q, vecs, front0, c)
    ensures var p := Greedy(q, true, vecs);
            && c.nr == |p|
            && (p == [] ==> c.front == front0 && c.segSize == 0)
            && (p != [] ==> c.segSize == Size(p[|p| - 1]))
            && (p != [] ==> Max(front0, Size(p[0])) == if c.nr == 1 then Max(c.front, c.segSize) else c.front)
  {
    hide Greedy, Size;
  }

  // ---------------------------------------------------------------- the request object

  class Request {
    const q: Queue
    var bios: seq<Bio>
    var nr: nat
    var noMerge: bool
    var special: bool

    ghost function View(): Rq
      reads this
    {
      Rq(bios, nr, noMerge, special)
    }

    ghost predicate Valid()
      reads this
    {
      RqOk(q, View())
    }

    /** blk_rq_bio_prep */
    constructor (q: Queue, bio: Bio)
      requires BioOk(q, bio)
      ensures Valid() && this.q == q && View() == Prepare(q, bio)
    {
      PrepareOk(q, bio);
      var b := Counted(q, bio);
      this.q, bios, nr, noMerge, special := q, [b], b.segs, false, false;
    }

    /** blk_recount_segments on one bio that has no valid count yet. */
    method EnsureCounted(b: Bio) returns (c: Bio)
      ensures c == Counted(q, b)
    {
      if b.valid {
        return b;
      }
      var segs, out := RecalcSegments(q, [b]);
      c := out[0].(segs := segs, valid := true);
    }

    /** ll_new_hw_segment: room for the segments of `bio`? */
    method NewHwSegment(bio: Bio) returns (ok: bool)
      modifies this`nr, this`noMerge
      ensures ok <==> old(nr) + bio.segs <= q.maxSegments
      ensures nr == old(nr) + (if ok then bio.segs else 0) && noMerge == (old(noMerge) || !ok)
    {
      if nr + bio.segs > q.maxSegments {
        noMerge := true;
        return false;
      }
      nr := nr + bio.segs;
      return true;
    }

    /** bio_attempt_back_merge */
    method AttemptBackMerge(bio: Bio) returns (ok: bool)
      requires Valid() && BioOk(q, bio)
      modifies this
      ensures Valid() && (ok, View()) == BackMerge(q, old(View()), bio)
      ensures Vecs(bios) == old(Vecs(bios)) + if ok then bio.vecs else []
      ensures ok ==> nr <= q.maxSegments && Sectors(old(Vecs(bios))) + Sectors(bio.vecs) <= q.maxSectors
    {
      hide RqOk, BioOk, Vecs, Counted, Sectors;
      CountPositive(q, View());
      BackMergeKeeps(q, View(), bio);
      if Sectors(Vecs(bios)) + Sectors(bio.vecs) > q.maxSectors {
        noMerge := true;
        return false;
      }
      var n := |bios| - 1;
      var tail := EnsureCounted(bios[n]);
      bios := bios[n := tail];
      var b := EnsureCounted(bio);
      ok := NewHwSegment(b);
      if ok {
        bios := bios + [b];
      }
    }

    /** bio_attempt_front_merge */
    method AttemptFrontMerge(bio: Bio) returns (ok: bool)
      requires Valid() && BioOk(q, bio)
      modifies this
      ensures Valid() && (ok, View()) == FrontMerge(q, old(View()), bio)
      ensures Vecs(bios) == (if ok then bio.vecs else []) + old(Vecs(bios))
      ensures ok ==> nr <= q.maxSegments && Sectors(old(Vecs(bios))) + Sectors(bio.vecs) <= q.maxSectors
    {
      hide RqOk, BioOk, Vecs, Counted, Sectors;
      CountPositive(q, View());
      FrontMergeKeeps(q, View(), bio);
      if Sectors(Vecs(bios)) + Sectors(bio.vecs) > q.maxSectors {
        noMerge := true;
        return false;
      }
      var b := EnsureCounted(bio);
      var head := EnsureCounted(bios[0]);
      bios := bios[0 := head];
      ok := NewHwSegment(b);
      if ok {
        bios := [b] + bios;
      }
    }

    /** attempt_merge: absorb `next`, which is given up if that succeeds. */
    method AttemptMerge(next: Request) returns (ok: bool)
      requires Valid() && next.Valid() && next != this && next.q == q
      modifies this, next
      ensures Valid() && next.Valid()
      ensures old(nr) > 0 && old(next.bios) != [] && Outcome(ok, View(), next.View()) == MergeRequests(q, old(View()), old(next.View()))
      ensures ok ==> Vecs(bios) == old(Vecs(bios)) + old(Vecs(next.bios))
      ensures ok ==> nr <= q.maxSegments && Sectors(old(Vecs(bios))) + Sectors(old(Vecs(next.bios))) <= q.maxSectors
    {
      hide RqOk, Vecs, Sectors, PhysContig;
      MergeRequestsKeeps(q, View(), next.View());
      CountPositive(q, View());
      CountPositive(q, next.View());
      if special || next.special {
        return false;
      }
      if Sectors(Vecs(bios)) + Sectors(Vecs(next.bios)) > q.maxSectors {
        return false;
      }
      var total := nr + next.nr;
      var size := bios[|bios| - 1].back + next.bios[0].front;
      if PhysContig(q, bios[|bios| - 1], next.bios[0]) {
        if nr == 1 {
          bios := bios[0 := bios[0].(front := size)];
        }
        if next.nr == 1 {
          var n := |next.bios| - 1;
          next.bios := next.bios[n := next.bios[n].(back := size)];
        }
        total := total - 1;
      }
      if total > q.maxSegments {
        return false;
      }
      nr := total;
      bios := bios + next.bios;
      return true;
    }

    /** blk_rq_map_sg into a table of nr_phys_segments entries: it fits, and covers the data in order. */
    method MapIntoTable() returns (sg: seq<Sg>)
      requires Valid() && Contiguous(q)
      ensures |sg| <= nr
      ensures SgBytes(sg) == VecBytes(Vecs(bios))
    {
      sg := MapSg(q, bios);
      ghost var p :| Witness(q, Vecs(bios), nr, bios[0].front, bios[|bios| - 1].back, p);
      GreedyOptimal(q, Vecs(bios), p);
      GreedyPartition(q, false, Vecs(bios));
      SgCovers(q, Greedy(q, false, Vecs(bios)));
    }
  }
}
