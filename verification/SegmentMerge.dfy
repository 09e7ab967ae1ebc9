/**
 * Bio and request merging of omap/block/blk-merge.c and blk-core.c, and the proof that the segment count they
 * maintain is always enough room for the scatterlist.
 */
module SegmentMerge {
  import opened Common
  import opened Segments

  /** `front` and `back` are bi_seg_front_size and bi_seg_back_size; `valid` is BIO_SEG_VALID. */
  datatype Bio = Bio(vecs: seq<Vec>, front: nat, back: nat, segs: nat, valid: bool)

  /** `nr` is nr_phys_segments; `special` marks a requeued request. */
  datatype Rq = Rq(bios: seq<Bio>, nr: nat, noMerge: bool, special: bool)

  function Vecs(bios: seq<Bio>): seq<Vec> {
    if bios == [] then [] else Vecs(bios[..|bios| - 1]) + bios[|bios| - 1].vecs
  }

  function Sectors(vecs: seq<Vec>): nat { Size(vecs) / 512 }

  function RaiseFront(bios: seq<Bio>, size: nat): (r: seq<Bio>)
    requires bios != []
  {
    bios[0 := bios[0].(front := Max(bios[0].front, size))]
  }

  function RaiseBack(bios: seq<Bio>, size: nat): (r: seq<Bio>)
    requires bios != []
  {
    var n := |bios| - 1;
    bios[n := bios[n].(back := Max(bios[n].back, size))]
  }

  /** __blk_recalc_rq_segments: the chain after its first and last segment sizes were cached. */
  function Recached(q: Queue, bios: seq<Bio>): seq<Bio>
    requires bios != []
  {
    var p := Greedy(q, true, Vecs(bios));
    if p == [] then bios else RaiseBack(RaiseFront(bios, Size(p[0])), Size(p[|p| - 1]))
  }

  /** blk_recount_segments */
  function Recounted(q: Queue, b: Bio): Bio {
    Recached(q, [b])[0].(segs := |Greedy(q, true, Vecs([b]))|, valid := true)
  }

  function Counted(q: Queue, b: Bio): Bio { if b.valid then b else Recounted(q, b) }

  /** blk_rq_bio_prep for a bio with data. */
  function Prepare(q: Queue, b: Bio): Rq {
    var b := Counted(q, b);
    Rq([b], b.segs, false, false)
  }

  /** ll_back_merge_fn, ll_new_hw_segment and bio_attempt_back_merge: whether the bio was appended. */
  function BackMerge(q: Queue, r: Rq, bio: Bio): (bool, Rq)
    requires r.bios != []
  {
    var n := |r.bios| - 1;
    if Sectors(Vecs(r.bios)) + Sectors(bio.vecs) > q.maxSectors then (false, r.(noMerge := true))
    else
      var r := r.(bios := r.bios[n := Counted(q, r.bios[n])]);
      var bio := Counted(q, bio);
      if r.nr + bio.segs > q.maxSegments then (false, r.(noMerge := true))
      else (true, r.(bios := r.bios + [bio], nr := r.nr + bio.segs))
  }

  /** ll_front_merge_fn, ll_new_hw_segment and bio_attempt_front_merge: whether the bio was prepended. */
  function FrontMerge(q: Queue, r: Rq, bio: Bio): (bool, Rq)
    requires r.bios != []
  {
    if Sectors(Vecs(r.bios)) + Sectors(bio.vecs) > q.maxSectors then (false, r.(noMerge := true))
    else
      var r := r.(bios := r.bios[0 := Counted(q, r.bios[0])]);
      var bio := Counted(q, bio);
      if r.nr + bio.segs > q.maxSegments then (false, r.(noMerge := true))
      else (true, r.(bios := [bio] + r.bios, nr := r.nr + bio.segs))
  }

  /** blk_phys_contig_segment */
  predicate PhysContig(q: Queue, bio: Bio, nxt: Bio)
    requires nxt.vecs != []
  {
    && q.cluster
    && bio.back + nxt.front <= q.maxSegSize
    && (bio.vecs == [] || Linked(q, bio.vecs[|bio.vecs| - 1], nxt.vecs[0]))
  }

  /** A request of one segment caches the size of the segment it is fused into, at its front or at its back. */
  function WithFront(r: Rq, size: nat): (t: Rq)
    requires r.bios != []
    ensures t.bios != [] && t.nr == r.nr
  {
    if r.nr == 1 then r.(bios := r.bios[0 := r.bios[0].(front := size)]) else r
  }

  function WithBack(r: Rq, size: nat): (t: Rq)
    requires r.bios != []
    ensures t.bios != [] && t.nr == r.nr
  {
    var n := |r.bios| - 1;
    if r.nr == 1 then r.(bios := r.bios[n := r.bios[n].(back := size)]) else r
  }

  datatype Outcome = Outcome(ok: bool, req: Rq, next: Rq)

  /** ll_merge_requests_fn and attempt_merge: whether `next` was absorbed, and both requests afterwards. */
  function MergeRequests(q: Queue, req: Rq, next: Rq): Outcome
    requires req.bios != [] && next.bios != [] && next.bios[0].vecs != [] && req.nr > 0
  {
    var tail, head := req.bios[|req.bios| - 1], next.bios[0];
    if req.special || next.special || Sectors(Vecs(req.bios)) + Sectors(Vecs(next.bios)) > q.maxSectors
    then Outcome(false, req, next)
    else
      var contig := PhysContig(q, tail, head);
      var total := req.nr + next.nr - if contig then 1 else 0;
      var r := if contig then WithFront(req, tail.back + head.front) else req;
      var n := if contig then WithBack(next, tail.back + head.front) else next;
      if total > q.maxSegments then Outcome(false, r, n)
      else Outcome(true, req.(bios := r.bios + n.bios, nr := total), n)
  }

  // ---------------------------------------------------------------- the invariant

  /** A partition with exactly `n` segments, the outer ones no longer than the cached sizes. */
  ghost predicate Witness(q: Queue, vecs: seq<Vec>, n: nat, front: nat, back: nat, p: seq<seq<Vec>>) {
    Partition(q, vecs, p) && |p| == n && p != [] && Size(p[0]) <= front && Size(p[n - 1]) <= back
  }

  ghost predicate Bound(q: Queue, vecs: seq<Vec>, n: nat, front: nat, back: nat) {
    exists p :: Witness(q, vecs, n, front, back, p)
  }

  /** A bio handed to the block layer carries data; a cached count is one its vectors have. */
  ghost predicate BioOk(q: Queue, b: Bio) {
    b.vecs != [] && (b.valid ==> Bound(q, b.vecs, b.segs, b.front, b.back))
  }

  ghost predicate RqOk(q: Queue, r: Rq) {
    && r.bios != [] && (forall i :: 0 <= i < |r.bios| ==> r.bios[i].vecs != [])
    && Bound(q, Vecs(r.bios), r.nr, r.bios[0].front, r.bios[|r.bios| - 1].back)
  }

  lemma VecsSnoc(bios: seq<Bio>, b: Bio)
    ensures Vecs(bios + [b]) == Vecs(bios) + b.vecs
  {
    assert (bios + [b])[..|bios|] == bios;
  }

  lemma {:induction false} VecsAppend(a: seq<Bio>, b: seq<Bio>)
    ensures Vecs(a + b) == Vecs(a) + Vecs(b)
    decreases |b|
  {
    if b == [] {
      assert a + b == a;
    } else {
      assert (a + b)[..|a + b| - 1] == a + b[..|b| - 1];
      VecsAppend(a, b[..|b| - 1]);
    }
  }

  lemma VecsSingle(b: Bio)
    ensures Vecs([b]) == b.vecs
  {
    assert [b][..0] == [];
  }

  /** The vectors depend on the vectors of the bios only. */
  lemma {:induction false} VecsSame(a: seq<Bio>, b: seq<Bio>)
    requires |a| == |b| && forall i :: 0 <= i < |a| ==> a[i].vecs == b[i].vecs
    ensures Vecs(a) == Vecs(b)
    decreases |a|
  {
    if a != [] { VecsSame(a[..|a| - 1], b[..|b| - 1]); }
  }

  lemma {:induction false} FlattenAppend(a: seq<seq<Vec>>, b: seq<seq<Vec>>)
    ensures Flatten(a + b) == Flatten(a) + Flatten(b)
    decreases |b|
  {
    if b == [] {
      assert a + b == a;
    } else {
      var init, last := b[..|b| - 1], b[|b| - 1];
      assert (a + b)[..|a + b| - 1] == a + init;
      FlattenAppend(a, init);
      assert Flatten(a) + Flatten(init) + last == Flatten(a) + (Flatten(init) + last);
    }
  }

  lemma BoundGrows(q: Queue, vecs: seq<Vec>, n: nat, front: nat, back: nat, front': nat, back': nat)
    requires Bound(q, vecs, n, front, back) && front <= front' && back <= back'
    ensures Bound(q, vecs, n, front', back')
  {
    var p :| Witness(q, vecs, n, front, back, p);
    assert Witness(q, vecs, n, front', back', p);
  }

  /** Counting is itself a witness. */
  lemma GreedyBound(q: Queue, vecs: seq<Vec>, front: nat, back: nat)
    requires vecs != []
    ensures var p := Greedy(q, true, vecs);
            Bound(q, vecs, |p|, Max(front, Size(p[0])), Max(back, Size(p[|p| - 1])))
  {
    hide Greedy, Partition, Size;
    GreedyPartition(q, true, vecs);
    var p := Greedy(q, true, vecs);
    assert Witness(q, vecs, |p|, Max(front, Size(p[0])), Max(back, Size(p[|p| - 1])), p);
  }

  lemma CountedOk(q: Queue, b: Bio)
    requires BioOk(q, b)
    ensures var c := Counted(q, b);
            && c.vecs == b.vecs && c.front >= b.front && c.back >= b.back
            && Bound(q, c.vecs, c.segs, c.front, c.back)
  {
    if !b.valid {
      VecsSingle(b);
      GreedyBound(q, b.vecs, b.front, b.back);
    }
  }

  lemma CountedGrows(q: Queue, b: Bio)
    ensures var c := Counted(q, b); c.vecs == b.vecs && c.front >= b.front && c.back >= b.back
  {
  }

  /** Two witnesses side by side. */
  lemma BoundConcat(q: Queue, a: seq<Vec>, n: nat, front: nat, ab: nat, b: seq<Vec>, m: nat, bf: nat, back: nat)
    requires Bound(q, a, n, front, ab) && Bound(q, b, m, bf, back)
    ensures Bound(q, a + b, n + m, front, back)
  {
    var p :| Witness(q, a, n, front, ab, p);
    var r :| Witness(q, b, m, bf, back, r);
    FlattenAppend(p, r);
    hide Flatten, Size, ValidSeg;
    assert Partition(q, a + b, p + r);
    assert Witness(q, a + b, n + m, front, back, p + r);
  }

  /** The chain of two valid segments is valid if it is not too long and the inner ends are linked. */
  lemma FusedValid(q: Queue, s: seq<Vec>, t: seq<Vec>)
    requires ValidSeg(q, s) && ValidSeg(q, t) && q.cluster && Size(s) + Size(t) <= q.maxSegSize
    requires Linked(q, s[|s| - 1], t[0])
    ensures ValidSeg(q, s + t)
  {
    SizeAppend(s, t);
    var w := s + t;
    forall i | 0 <= i < |w| - 1 ensures Linked(q, w[i], w[i + 1]) {
      if i < |s| - 1 {
        assert w[i] == s[i] && w[i + 1] == s[i + 1];
      } else if i >= |s| {
        assert w[i] == t[i - |s|] && w[i + 1] == t[i - |s| + 1];
      }
    }
  }

  lemma EndsOfPartition(q: Queue, vecs: seq<Vec>, p: seq<seq<Vec>>)
    requires Partition(q, vecs, p) && p != []
    ensures vecs != [] && p[0] != [] && p[|p| - 1] != []
    ensures vecs[|vecs| - 1] == p[|p| - 1][|p[|p| - 1]| - 1] && vecs[0] == p[0][0]
  {
    assert ValidSeg(q, p[0]) && ValidSeg(q, p[|p| - 1]);
    assert Flatten(p) == Flatten(p[..|p| - 1]) + p[|p| - 1];
    assert p == [p[0]] + p[1..];
    FlattenAppend([p[0]], p[1..]);
    FlattenSnoc([], p[0]);
    assert [] + [p[0]] == [p[0]];
  }

  /** Two witnesses with the inner segments fused into one. */
  lemma BoundFuse(q: Queue, a: seq<Vec>, n: nat, front: nat, ab: nat, b: seq<Vec>, m: nat, bf: nat, back: nat)
    requires Bound(q, a, n, front, ab) && Bound(q, b, m, bf, back) && a != [] && b != []
    requires q.cluster && ab + bf <= q.maxSegSize && Linked(q, a[|a| - 1], b[0])
    ensures Bound(q, a + b, n + m - 1, if n == 1 then ab + bf else front, if m == 1 then ab + bf else back)
  {
    hide Partition, Size, ValidSeg, Linked;
    var p :| Witness(q, a, n, front, ab, p);
    var r :| Witness(q, b, m, bf, back, r);
    InnerEndsFuse(q, a, p, b, r, ab, bf);
    var w := FuseAt(q, p, r, a, b);
    assert Witness(q, a + b, n + m - 1, if n == 1 then ab + bf else front, if m == 1 then ab + bf else back, w);
  }

  lemma InnerEndsFuse(q: Queue, a: seq<Vec>, p: seq<seq<Vec>>, b: seq<Vec>, r: seq<seq<Vec>>, ab: nat, bf: nat)
    requires Partition(q, a, p) && Partition(q, b, r) && p != [] && r != [] && a != [] && b != []
    requires Size(p[|p| - 1]) <= ab && Size(r[0]) <= bf
    requires q.cluster && ab + bf <= q.maxSegSize && Linked(q, a[|a| - 1], b[0])
    ensures ValidSeg(q, p[|p| - 1] + r[0]) && Size(p[|p| - 1] + r[0]) <= ab + bf
  {
    EndsOfPartition(q, a, p);
    EndsOfPartition(q, b, r);
    assert ValidSeg(q, p[|p| - 1]) && ValidSeg(q, r[0]);
    FusedValid(q, p[|p| - 1], r[0]);
    SizeAppend(p[|p| - 1], r[0]);
  }

  lemma FlattenFused(p: seq<seq<Vec>>, r: seq<seq<Vec>>)
    requires p != [] && r != []
    ensures Flatten(p[..|p| - 1] + [p[|p| - 1] + r[0]] + r[1..]) == Flatten(p) + Flatten(r)
  {
    hide Flatten;
    var pi, rt, last, mid := p[..|p| - 1], r[1..], p[|p| - 1], p[|p| - 1] + r[0];
    FlattenAppend(pi + [mid], rt);
    FlattenSnoc(pi, mid);
    FlattenHead(r);
    assert p == pi + [last];
    FlattenSnoc(pi, last);
    Regroup(Flatten(pi), last, r[0], Flatten(rt));
  }

  lemma Regroup(a: seq<Vec>, b: seq<Vec>, c: seq<Vec>, d: seq<Vec>)
    ensures a + (b + c) + d == (a + b) + (c + d)
  {
  }

  lemma FlattenHead(r: seq<seq<Vec>>)
    requires r != []
    ensures Flatten(r) == r[0] + Flatten(r[1..])
  {
    assert r == [r[0]] + r[1..];
    FlattenAppend([r[0]], r[1..]);
    FlattenSnoc([], r[0]);
    assert [] + [r[0]] == [r[0]];
    hide Flatten;
  }

  lemma FuseAt(q: Queue, p: seq<seq<Vec>>, r: seq<seq<Vec>>, a: seq<Vec>, b: seq<Vec>) returns (w: seq<seq<Vec>>)
    requires Partition(q, a, p) && Partition(q, b, r) && p != [] && r != []
    requires ValidSeg(q, p[|p| - 1] + r[0])
    ensures Partition(q, a + b, w) && |w| == |p| + |r| - 1
    ensures w[0] == if |p| == 1 then p[0] + r[0] else p[0]
    ensures w[|w| - 1] == if |r| == 1 then p[|p| - 1] + r[0] else r[|r| - 1]
  {
    hide Flatten, ValidSeg;
    var pi, rt, mid := p[..|p| - 1], r[1..], p[|p| - 1] + r[0];
    w := pi + [mid] + rt;
    FlattenFused(p, r);
    forall i | 0 <= i < |w| ensures ValidSeg(q, w[i]) {
      if i < |pi| { assert w[i] == p[i]; } else if i > |pi| { assert w[i] == r[i - |pi|]; }
    }
  }

  // ---------------------------------------------------------------- every operation keeps the invariant

  lemma PrepareOk(q: Queue, b: Bio)
    requires BioOk(q, b)
    ensures RqOk(q, Prepare(q, b))
  {
    CountedOk(q, b);
    VecsSingle(Counted(q, b));
  }

  lemma ReplaceCounted(q: Queue, r: Rq, k: nat)
    requires RqOk(q, r) && k < |r.bios|
    ensures RqOk(q, r.(bios := r.bios[k := Counted(q, r.bios[k])]))
    ensures Vecs(r.bios[k := Counted(q, r.bios[k])]) == Vecs(r.bios)
  {
    var t := r.bios[k := Counted(q, r.bios[k])];
    CountedGrows(q, r.bios[k]);
    VecsSame(r.bios, t);
    BoundGrows(q, Vecs(t), r.nr, r.bios[0].front, r.bios[|r.bios| - 1].back, t[0].front, t[|t| - 1].back);
  }

  lemma AppendBioOk(q: Queue, r: Rq, b: Bio)
    requires RqOk(q, r) && b.vecs != [] && Bound(q, b.vecs, b.segs, b.front, b.back)
    ensures RqOk(q, r.(bios := r.bios + [b], nr := r.nr + b.segs)) && Vecs(r.bios + [b]) == Vecs(r.bios) + b.vecs
  {
    hide Bound, Vecs;
    VecsSnoc(r.bios, b);
    BoundConcat(q, Vecs(r.bios), r.nr, r.bios[0].front, r.bios[|r.bios| - 1].back, b.vecs, b.segs, b.front, b.back);
  }

  lemma PrependBioOk(q: Queue, r: Rq, b: Bio)
    requires RqOk(q, r) && b.vecs != [] && Bound(q, b.vecs, b.segs, b.front, b.back)
    ensures RqOk(q, r.(bios := [b] + r.bios, nr := r.nr + b.segs)) && Vecs([b] + r.bios) == b.vecs + Vecs(r.bios)
  {
    hide Bound, Vecs;
    VecsAppend([b], r.bios);
    VecsSingle(b);
    BoundConcat(q, b.vecs, b.segs, b.front, b.back, Vecs(r.bios), r.nr, r.bios[0].front, r.bios[|r.bios| - 1].back);
  }

  /** A back merge keeps the bound and appends the bio's data. */
  lemma BackMergeKeeps(q: Queue, r: Rq, bio: Bio)
    requires RqOk(q, r) && BioOk(q, bio)
    ensures var (ok, t) := BackMerge(q, r, bio);
            RqOk(q, t) && Vecs(t.bios) == Vecs(r.bios) + if ok then bio.vecs else []
  {
    hide Vecs, Bound, Counted, Sectors;
    var n := |r.bios| - 1;
    var t := r.bios[n := Counted(q, r.bios[n])];
    ReplaceCounted(q, r, n);
    CountedOk(q, bio);
    AppendBioOk(q, r.(bios := t), Counted(q, bio));
  }

  /** A front merge keeps the bound and prepends the bio's data. */
  lemma FrontMergeKeeps(q: Queue, r: Rq, bio: Bio)
    requires RqOk(q, r) && BioOk(q, bio)
    ensures var (ok, t) := FrontMerge(q, r, bio);
            RqOk(q, t) && Vecs(t.bios) == (if ok then bio.vecs else []) + Vecs(r.bios)
  {
    hide Vecs, Bound, Counted, Sectors;
    var t := r.bios[0 := Counted(q, r.bios[0])];
    ReplaceCounted(q, r, 0);
    CountedOk(q, bio);
    PrependBioOk(q, r.(bios := t), Counted(q, bio));
  }

  lemma LastVec(bios: seq<Bio>)
    requires bios != [] && forall i :: 0 <= i < |bios| ==> bios[i].vecs != []
    ensures var b := bios[|bios| - 1]; Vecs(bios) != [] && Vecs(bios)[|Vecs(bios)| - 1] == b.vecs[|b.vecs| - 1]
  {
  }

  lemma FirstVec(bios: seq<Bio>)
    requires bios != [] && forall i :: 0 <= i < |bios| ==> bios[i].vecs != []
    ensures Vecs(bios) != [] && Vecs(bios)[0] == bios[0].vecs[0]
  {
    assert bios == [bios[0]] + bios[1..];
    VecsAppend([bios[0]], bios[1..]);
    VecsSingle(bios[0]);
  }

  lemma WithFrontOk(q: Queue, r: Rq, size: nat)
    requires RqOk(q, r) && size >= r.bios[|r.bios| - 1].back
    ensures RqOk(q, WithFront(r, size)) && Vecs(WithFront(r, size).bios) == Vecs(r.bios)
    ensures r.nr >= 1 && WithFront(r, size).bios[0].front == if r.nr == 1 then size else r.bios[0].front
  {
    var n := |r.bios| - 1;
    var t := WithFront(r, size).bios;
    VecsSame(r.bios, t);
    var p :| Witness(q, Vecs(r.bios), r.nr, r.bios[0].front, r.bios[n].back, p);
    hide Vecs, Partition, Size;
    if r.nr == 1 { assert Witness(q, Vecs(t), 1, t[0].front, t[n].back, p); }
  }

  lemma WithBackOk(q: Queue, r: Rq, size: nat)
    requires RqOk(q, r) && size >= r.bios[0].front
    ensures RqOk(q, WithBack(r, size)) && Vecs(WithBack(r, size).bios) == Vecs(r.bios)
    ensures var t := WithBack(r, size).bios;
            r.nr >= 1 && t[|t| - 1].back == if r.nr == 1 then size else r.bios[|r.bios| - 1].back
  {
    var n := |r.bios| - 1;
    var t := WithBack(r, size).bios;
    VecsSame(r.bios, t);
    var p :| Witness(q, Vecs(r.bios), r.nr, r.bios[0].front, r.bios[n].back, p);
    hide Vecs, Partition, Size;
    if r.nr == 1 { assert Witness(q, Vecs(t), 1, t[0].front, t[n].back, p); }
  }

  /** The chains of two requests, one after the other. */
  lemma ChainOk(q: Queue, r: Rq, a: seq<Bio>, b: seq<Bio>, n: nat)
    requires a != [] && (forall i :: 0 <= i < |a| ==> a[i].vecs != [])
    requires b != [] && (forall i :: 0 <= i < |b| ==> b[i].vecs != [])
    requires Bound(q, Vecs(a) + Vecs(b), n, a[0].front, b[|b| - 1].back)
    ensures RqOk(q, r.(bios := a + b, nr := n)) && Vecs(a + b) == Vecs(a) + Vecs(b)
  {
    hide Bound, Vecs;
    VecsAppend(a, b);
  }

  lemma JoinOk(q: Queue, r: Rq, s: Rq)
    requires RqOk(q, r) && RqOk(q, s)
    ensures RqOk(q, r.(bios := r.bios + s.bios, nr := r.nr + s.nr)) && Vecs(r.bios + s.bios) == Vecs(r.bios) + Vecs(s.bios)
  {
    hide Bound, Vecs;
    BoundConcat(q, Vecs(r.bios), r.nr, r.bios[0].front, r.bios[|r.bios| - 1].back,
                Vecs(s.bios), s.nr, s.bios[0].front, s.bios[|s.bios| - 1].back);
    ChainOk(q, r, r.bios, s.bios, r.nr + s.nr);
  }

  lemma CountPositive(q: Queue, r: Rq)
    requires RqOk(q, r)
    ensures r.nr > 0 && r.bios != [] && r.bios[0].vecs != []
  {
  }

  lemma LinkedEnds(q: Queue, r: Rq, s: Rq)
    requires RqOk(q, r) && RqOk(q, s) && PhysContig(q, r.bios[|r.bios| - 1], s.bios[0])
    ensures Vecs(r.bios) != [] && Vecs(s.bios) != [] && Linked(q, Vecs(r.bios)[|Vecs(r.bios)| - 1], Vecs(s.bios)[0])
  {
    hide Vecs, Bound;
    LastVec(r.bios);
    FirstVec(s.bios);
  }

  lemma FuseOk(q: Queue, r: Rq, s: Rq, size: nat)
    requires RqOk(q, r) && RqOk(q, s)
    requires var tail, head := r.bios[|r.bios| - 1], s.bios[0]; PhysContig(q, tail, head) && size == tail.back + head.front
    ensures var rb, sb := WithFront(r, size).bios, WithBack(s, size).bios;
            RqOk(q, r.(bios := rb + sb, nr := r.nr + s.nr - 1)) && Vecs(rb + sb) == Vecs(r.bios) + Vecs(s.bios)
  {
    hide Bound, Vecs, WithFront, WithBack;
    var rb, sb := WithFront(r, size).bios, WithBack(s, size).bios;
    LinkedEnds(q, r, s);
    WithFrontOk(q, r, size);
    WithBackOk(q, s, size);
    BoundFuse(q, Vecs(r.bios), r.nr, r.bios[0].front, r.bios[|r.bios| - 1].back,
              Vecs(s.bios), s.nr, s.bios[0].front, s.bios[|s.bios| - 1].back);
    ChainOk(q, r, rb, sb, r.nr + s.nr - 1);
  }

  lemma MergeContigKeeps(q: Queue, r: Rq, s: Rq)
    requires RqOk(q, r) && RqOk(q, s) && r.nr > 0 && r.bios != [] && s.bios != [] && s.bios[0].vecs != []
    requires PhysContig(q, r.bios[|r.bios| - 1], s.bios[0])
    ensures var o := MergeRequests(q, r, s);
            && RqOk(q, o.req) && RqOk(q, o.next)
            && (o.ok ==> Vecs(o.req.bios) == Vecs(r.bios) + Vecs(s.bios))
  {
    hide RqOk, Vecs, Sectors, WithFront, WithBack, PhysContig;
    var size := r.bios[|r.bios| - 1].back + s.bios[0].front;
    WithFrontOk(q, r, size);
    WithBackOk(q, s, size);
    FuseOk(q, r, s, size);
  }

  lemma MergeApartKeeps(q: Queue, r: Rq, s: Rq)
    requires RqOk(q, r) && RqOk(q, s) && r.nr > 0 && r.bios != [] && s.bios != [] && s.bios[0].vecs != []
    requires !PhysContig(q, r.bios[|r.bios| - 1], s.bios[0])
    ensures var o := MergeRequests(q, r, s);
            && RqOk(q, o.req) && RqOk(q, o.next)
            && (o.ok ==> Vecs(o.req.bios) == Vecs(r.bios) + Vecs(s.bios))
  {
    hide RqOk, Vecs, Sectors, WithFront, WithBack, PhysContig;
    JoinOk(q, r, s);
  }

  /**
   * A request merge keeps the bound on both sides, also when it is refused after the cached sizes were written,
   * and joins their data if it goes through.
   */
  lemma MergeRequestsKeeps(q: Queue, r: Rq, s: Rq)
    requires RqOk(q, r) && RqOk(q, s)
    ensures r.nr > 0
    ensures var o := MergeRequests(q, r, s);
            && RqOk(q, o.req) && RqOk(q, o.next)
            && (o.ok ==> Vecs(o.req.bios) == Vecs(r.bios) + Vecs(s.bios))
  {
    CountPositive(q, r);
    CountPositive(q, s);
    hide RqOk, Vecs, MergeRequests, PhysContig;
    if PhysContig(q, r.bios[|r.bios| - 1], s.bios[0]) {
      MergeContigKeeps(q, r, s);
    } else {
      MergeApartKeeps(q, r, s);
    }
  }

  /** blk_recalc_rq_segments */
  function Recalc(q: Queue, r: Rq): Rq
    requires r.bios != []
  {
    r.(bios := Recached(q, r.bios), nr := |Greedy(q, true, Vecs(r.bios))|)
  }

  lemma RecalcKeeps(q: Queue, r: Rq)
    requires r.bios != [] && forall i :: 0 <= i < |r.bios| ==> r.bios[i].vecs != []
    ensures RqOk(q, Recalc(q, r)) && Vecs(Recalc(q, r).bios) == Vecs(r.bios)
  {
    LastVec(r.bios);
    VecsSame(r.bios, Recached(q, r.bios));
    GreedyBound(q, Vecs(r.bios), r.bios[0].front, r.bios[|r.bios| - 1].back);
    hide Bound, Vecs, Greedy, Size;
  }

  // ---------------------------------------------------------------- the limits of the queue

  /** Data in whole sectors, as all block I/O has it. */
  predicate Whole(vecs: seq<Vec>) { Size(vecs) % 512 == 0 }

  lemma SectorsAdd(a: seq<Vec>, b: seq<Vec>)
    requires Whole(a)
    ensures Sectors(a + b) == Sectors(a) + Sectors(b) && (Whole(b) ==> Whole(a + b))
  {
    SizeAppend(a, b);
    hide Size;
    var x, y := Size(a), Size(b);
    assert (x + y) / 512 == x / 512 + y / 512;
  }

  /** bio_phys_segments */
  function SegsOf(q: Queue, b: Bio): nat { if b.valid then b.segs else |Greedy(q, true, b.vecs)| }

  lemma CountedIs(q: Queue, b: Bio)
    ensures Counted(q, b).vecs == b.vecs && Counted(q, b).segs == SegsOf(q, b)
  {
    VecsSingle(b);
  }

  /**
   * A bio is appended exactly if the request then keeps to the limits of the queue on sectors and on segments; else the
   * request is closed to further merges.
   */
  lemma BackMergeIff(q: Queue, r: Rq, bio: Bio)
    requires RqOk(q, r) && BioOk(q, bio) && Whole(Vecs(r.bios)) && Whole(bio.vecs)
    ensures var (ok, t) := BackMerge(q, r, bio);
            && (ok <==> Sectors(Vecs(r.bios) + bio.vecs) <= q.maxSectors && r.nr + SegsOf(q, bio) <= q.maxSegments)
            && (ok ==> t.nr == r.nr + SegsOf(q, bio) <= q.maxSegments && Sectors(Vecs(t.bios)) <= q.maxSectors && t.noMerge == r.noMerge)
            && (!ok ==> t.nr == r.nr && t.noMerge) && t.special == r.special && Whole(Vecs(t.bios))
  {
    hide Vecs, Bound, Counted, Sectors, Whole;
    SectorsAdd(Vecs(r.bios), bio.vecs);
    CountedIs(q, bio);
    BackMergeKeeps(q, r, bio);
    assert Vecs(r.bios) + [] == Vecs(r.bios);
  }

  /** The same in front of the request. */
  lemma FrontMergeIff(q: Queue, r: Rq, bio: Bio)
    requires RqOk(q, r) && BioOk(q, bio) && Whole(Vecs(r.bios)) && Whole(bio.vecs)
    ensures var (ok, t) := FrontMerge(q, r, bio);
            && (ok <==> Sectors(bio.vecs + Vecs(r.bios)) <= q.maxSectors && r.nr + SegsOf(q, bio) <= q.maxSegments)
            && (ok ==> t.nr == r.nr + SegsOf(q, bio) <= q.maxSegments && Sectors(Vecs(t.bios)) <= q.maxSectors && t.noMerge == r.noMerge)
            && (!ok ==> t.nr == r.nr && t.noMerge) && t.special == r.special && Whole(Vecs(t.bios))
  {
    hide Vecs, Bound, Counted, Sectors, Whole;
    SectorsAdd(bio.vecs, Vecs(r.bios));
    CountedIs(q, bio);
    FrontMergeKeeps(q, r, bio);
    assert [] + Vecs(r.bios) == Vecs(r.bios);
  }

  /**
   * Two requests are joined exactly if neither was requeued and together they keep to the limits, where the two segments
   * that meet count as one if they are adjacent and short enough.
   */
  lemma MergeRequestsIff(q: Queue, r: Rq, s: Rq)
    requires RqOk(q, r) && RqOk(q, s) && Whole(Vecs(r.bios)) && Whole(Vecs(s.bios))
    ensures r.nr > 0 && s.bios[0].vecs != [] && r.bios[|r.bios| - 1].vecs != []
    ensures var tail, head := r.bios[|r.bios| - 1], s.bios[0];
            var fused := q.cluster && tail.back + head.front <= q.maxSegSize && Linked(q, tail.vecs[|tail.vecs| - 1], head.vecs[0]);
            var total := r.nr + s.nr - if fused then 1 else 0;
            var o := MergeRequests(q, r, s);
            && (o.ok <==> !r.special && !s.special && Sectors(Vecs(r.bios) + Vecs(s.bios)) <= q.maxSectors && total <= q.maxSegments)
            && (o.ok ==> o.req.nr == total && Sectors(Vecs(o.req.bios)) <= q.maxSectors)
            && (!o.ok ==> o.req.nr == r.nr && Vecs(o.req.bios) == Vecs(r.bios)) && o.next.nr == s.nr
            && o.req.noMerge == r.noMerge && o.req.special == r.special && Whole(Vecs(o.req.bios))
  {
    CountPositive(q, r);
    CountPositive(q, s);
    SectorsAdd(Vecs(r.bios), Vecs(s.bios));
    hide Vecs, Bound, Sectors, Whole;
    MergeRequestsKeeps(q, r, s);
    RefusedSame(q, r, s);
  }

  lemma RefusedSame(q: Queue, r: Rq, s: Rq)
    requires RqOk(q, r) && RqOk(q, s) && r.nr > 0
    ensures var o := MergeRequests(q, r, s); !o.ok ==> Vecs(o.req.bios) == Vecs(r.bios)
  {
    var o := MergeRequests(q, r, s);
    hide Bound, Sectors;
    if !o.ok { VecsSame(o.req.bios, r.bios); }
  }

  // ---------------------------------------------------------------- whole histories

  /** How a request came to be; a merge that is refused leaves the first request. */
  datatype History =
    | Start(bio: Bio)
    | Back(h: History, bio: Bio)
    | Front(h: History, bio: Bio)
    | Join(h: History, next: History)
    | Recount(h: History)

  ghost predicate BiosOk(q: Queue, h: History) {
    match h
    case Start(b) => BioOk(q, b)
    case Back(h, b) => BiosOk(q, h) && BioOk(q, b)
    case Front(h, b) => BiosOk(q, h) && BioOk(q, b)
    case Join(h, n) => BiosOk(q, h) && BiosOk(q, n)
    case Recount(h) => BiosOk(q, h)
  }

  ghost function Build(q: Queue, h: History): (r: Rq)
    requires BiosOk(q, h)
    ensures RqOk(q, r)
  {
    match h
    case Start(b) => PrepareOk(q, b); Prepare(q, b)
    case Back(h, b) => BackMergeKeeps(q, Build(q, h), b); BackMerge(q, Build(q, h), b).1
    case Front(h, b) => FrontMergeKeeps(q, Build(q, h), b); FrontMerge(q, Build(q, h), b).1
    case Join(h, n) => MergeRequestsKeeps(q, Build(q, h), Build(q, n)); MergeRequests(q, Build(q, h), Build(q, n)).req
    case Recount(h) => RecalcKeeps(q, Build(q, h)); Recalc(q, Build(q, h))
  }

  /** However a request was merged together, its scatterlist never needs more entries than its segment count. */
  lemma SegmentBound(q: Queue, h: History)
    requires BiosOk(q, h)
    ensures var r := Build(q, h); |Greedy(q, false, Vecs(r.bios))| <= r.nr
  {
    var r := Build(q, h);
    var p :| Witness(q, Vecs(r.bios), r.nr, r.bios[0].front, r.bios[|r.bios| - 1].back, p);
    GreedyOptimal(q, Vecs(r.bios), p);
  }

  /** Every bio has whole sectors, and those that requests start from keep to the limits by themselves. */
  ghost predicate BiosFit(q: Queue, h: History) {
    match h
    case Start(b) => Whole(b.vecs) && Sectors(b.vecs) <= q.maxSectors && SegsOf(q, b) <= q.maxSegments
    case Back(h, b) => BiosFit(q, h) && Whole(b.vecs)
    case Front(h, b) => BiosFit(q, h) && Whole(b.vecs)
    case Join(h, n) => BiosFit(q, h) && BiosFit(q, n)
    case Recount(h) => BiosFit(q, h)
  }

  predicate NeverRecounted(h: History) {
    match h
    case Start(_) => true
    case Back(h, _) => NeverRecounted(h)
    case Front(h, _) => NeverRecounted(h)
    case Join(h, n) => NeverRecounted(h) && NeverRecounted(n)
    case Recount(_) => false
  }

  ghost predicate WithinLimits(q: Queue, r: Rq) {
    r.nr <= q.maxSegments && Sectors(Vecs(r.bios)) <= q.maxSectors
  }

  /**
   * Every history keeps to the limits of the queue. On segments that holds as long as nothing is counted again, or the
   * queue has no high pages.
   */
  lemma {:induction false} LimitsKept(q: Queue, h: History)
    requires BiosOk(q, h) && BiosFit(q, h)
    ensures Whole(Vecs(Build(q, h).bios)) && Sectors(Vecs(Build(q, h).bios)) <= q.maxSectors
    ensures NeverRecounted(h) || (forall v :: !q.high(v)) ==> WithinLimits(q, Build(q, h))
  {
    hide Vecs, Whole, Sectors, BackMerge, FrontMerge, MergeRequests, Recalc, RqOk, BioOk;
    match h
    case Start(b) =>
      PrepareOk(q, b);
      CountedIs(q, b);
      VecsSingle(Counted(q, b));
    case Back(h', b) =>
      LimitsKept(q, h');
      BackMergeIff(q, Build(q, h'), b);
      BackMergeKeeps(q, Build(q, h'), b);
      assert Vecs(Build(q, h').bios) + [] == Vecs(Build(q, h').bios);
    case Front(h', b) =>
      LimitsKept(q, h');
      FrontMergeIff(q, Build(q, h'), b);
      FrontMergeKeeps(q, Build(q, h'), b);
      assert [] + Vecs(Build(q, h').bios) == Vecs(Build(q, h').bios);
    case Join(h', n) =>
      LimitsKept(q, h');
      LimitsKept(q, n);
      MergeRequestsIff(q, Build(q, h'), Build(q, n));
    case Recount(h') =>
      LimitsKept(q, h');
      RecountLimits(q, h');
  }

  lemma RecountLimits(q: Queue, h: History)
    requires BiosOk(q, h)
    ensures var r := Build(q, h);
            && r.bios != [] && Vecs(Recalc(q, r).bios) == Vecs(r.bios)
            && ((forall v :: !q.high(v)) ==> Recalc(q, r).nr <= r.nr)
  {
    var r := Build(q, h);
    RecalcKeeps(q, r);
    SegmentBound(q, h);
    hide Vecs, Greedy, Build;
    if forall v :: !q.high(v) { GreedyLow(q, Vecs(r.bios)); }
  }
}
