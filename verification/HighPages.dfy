/**
 * When counting the segments of a request again can raise the count, in omap/block/blk-merge.c.
 *
 * blk_recalc_rq_segments keeps pages above the bounce limit in segments of their own. blk_phys_contig_segment does not
 * look at that limit when two requests are joined, so the two rules can disagree about the pages that meet.
 */
module HighPages {
  import opened Common
  import opened Segments
  import opened SegmentMerge

  /** Two vectors that a join makes one segment of and a count does not. */
  ghost predicate HighJoin(q: Queue, v: Vec, w: Vec) {
    && q.cluster && Linked(q, v, w) && (q.high(v) || q.high(w)) && v.len + w.len <= q.maxSegSize
    && v.len % 512 == 0 == w.len % 512 && (v.len + w.len) / 512 <= q.maxSectors
  }

  /** Vectors in whole sectors. */
  ghost predicate Blocks(vecs: seq<Vec>) { forall v :: v in vecs ==> v.len % 512 == 0 }

  /** The bios come with their segments not counted yet. */
  ghost predicate Uncounted(h: History) {
    match h
    case Start(b) => !b.valid && Blocks(b.vecs)
    case Back(h, b) => Uncounted(h) && !b.valid && Blocks(b.vecs)
    case Front(h, b) => Uncounted(h) && !b.valid && Blocks(b.vecs)
    case Join(h, n) => Uncounted(h) && Uncounted(n)
    case Recount(h) => Uncounted(h)
  }

  ghost predicate Fresh(q: Queue, h: History) { BiosOk(q, h) && BiosFit(q, h) && Uncounted(h) }

  // ---------------------------------------------------------------- the two rules agree

  lemma {:induction false} StrictApart(q: Queue, vecs: seq<Vec>)
    ensures Greedy(Apart(q), true, vecs) == Greedy(q, true, vecs)
    decreases |vecs|
  {
    if vecs != [] {
      var init, v := vecs[..|vecs| - 1], vecs[|vecs| - 1];
      StrictApart(q, init);
      var p := Greedy(q, true, init);
      if p != [] { assert CanJoin(q, true, p[|p| - 1], v) == CanJoin(Apart(q), true, p[|p| - 1], v); }
    }
  }

  lemma CountedApart(q: Queue, b: Bio)
    ensures Counted(Apart(q), b) == Counted(q, b)
  {
    StrictApart(q, Vecs([b]));
    hide Greedy;
  }

  lemma RecalcApart(q: Queue, r: Rq)
    requires r.bios != []
    ensures Recalc(Apart(q), r) == Recalc(q, r)
  {
    StrictApart(q, Vecs(r.bios));
    hide Greedy;
  }

  lemma {:induction false} LenFits(vecs: seq<Vec>, i: nat)
    requires i < |vecs|
    ensures vecs[i].len <= Size(vecs)
    decreases |vecs|
  {
    if i < |vecs| - 1 { LenFits(vecs[..|vecs| - 1], i); }
  }

  /** The cached sizes cover the vectors at the ends. */
  lemma EndsFit(q: Queue, r: Rq)
    requires RqOk(q, r)
    ensures var vecs, tail := Vecs(r.bios), r.bios[|r.bios| - 1];
            && vecs != [] && tail.vecs != [] && r.bios[0].vecs != []
            && vecs[0] == r.bios[0].vecs[0] && vecs[|vecs| - 1] == tail.vecs[|tail.vecs| - 1]
            && vecs[0].len <= r.bios[0].front && vecs[|vecs| - 1].len <= tail.back
  {
    var vecs := Vecs(r.bios);
    var p :| Witness(q, vecs, r.nr, r.bios[0].front, r.bios[|r.bios| - 1].back, p);
    EndsOfPartition(q, vecs, p);
    FirstVec(r.bios);
    LastVec(r.bios);
    LenFits(p[0], 0);
    LenFits(p[|p| - 1], |p[|p| - 1]| - 1);
  }

  lemma SectorsCover(a: nat, b: nat, x: nat, y: nat)
    requires a <= x && b <= y && a % 512 == 0 == b % 512
    ensures (a + b) / 512 <= x / 512 + y / 512
  {
    assert a / 512 <= x / 512 && b / 512 <= y / 512;
  }

  lemma ContigApart(q: Queue, tail: Bio, head: Bio)
    requires tail.vecs != [] && head.vecs != [] && var v, w := tail.vecs[|tail.vecs| - 1], head.vecs[0];
             v.len <= tail.back && w.len <= head.front && v.len % 512 == 0 == w.len % 512
             && (v.len + w.len) / 512 <= q.maxSectors && !HighJoin(q, v, w)
    ensures PhysContig(Apart(q), tail, head) == PhysContig(q, tail, head)
  {
  }

  /** Without such vectors a join looks the same on the queue that keeps high pages apart. */
  lemma JoinApart(q: Queue, r: Rq, s: Rq)
    requires RqOk(q, r) && RqOk(q, s) && r.nr > 0 && s.bios[0].vecs != []
    requires Blocks(Vecs(r.bios)) && Blocks(Vecs(s.bios)) && forall v, w :: !HighJoin(q, v, w)
    ensures MergeRequests(Apart(q), r, s) == MergeRequests(q, r, s)
  {
    hide Vecs, Size, RqOk, HighJoin, PhysContig, Sectors;
    EndsFit(q, r);
    EndsFit(q, s);
    EndsMeet(q, r, s);
    CountPositive(q, r);
    CountPositive(q, s);
    if Sectors(Vecs(r.bios)) + Sectors(Vecs(s.bios)) <= q.maxSectors {
      ContigApart(q, r.bios[|r.bios| - 1], s.bios[0]);
    }
  }

  lemma EndsMeet(q: Queue, r: Rq, s: Rq)
    requires Vecs(r.bios) != [] && Vecs(s.bios) != [] && Blocks(Vecs(r.bios)) && Blocks(Vecs(s.bios))
    ensures var v, w := Vecs(r.bios)[|Vecs(r.bios)| - 1], Vecs(s.bios)[0];
            && v.len % 512 == 0 == w.len % 512
            && (Sectors(Vecs(r.bios)) + Sectors(Vecs(s.bios)) <= q.maxSectors ==> (v.len + w.len) / 512 <= q.maxSectors)
  {
    hide Vecs, Size;
    var a, b := Vecs(r.bios), Vecs(s.bios);
    assert a[|a| - 1] in a && b[0] in b;
    LenFits(a, |a| - 1);
    LenFits(b, 0);
    SectorsCover(a[|a| - 1].len, b[0].len, Size(a), Size(b));
  }

  /** Without such vectors a request is built as on the queue that keeps high pages apart. */
  lemma {:induction false} BuildApart(q: Queue, h: History)
    requires BiosOk(q, h) && Uncounted(h) && forall v, w :: !HighJoin(q, v, w)
    ensures BiosOk(Apart(q), h) && Build(Apart(q), h) == Build(q, h) && Blocks(Vecs(Build(q, h).bios))
  {
    hide Vecs, RqOk, MergeRequests, Recalc, Counted, HighJoin, Apart;
    match h
    case Start(b) =>
      CountedApart(q, b);
      VecsSingle(Counted(q, b));
      CountedIs(q, b);
    case Back(h', b) =>
      BuildApart(q, h');
      CountPositive(q, Build(q, h'));
      BackApart(q, Build(q, h'), b);
      BackMergeKeeps(q, Build(q, h'), b);
    case Front(h', b) =>
      BuildApart(q, h');
      CountPositive(q, Build(q, h'));
      FrontApart(q, Build(q, h'), b);
      FrontMergeKeeps(q, Build(q, h'), b);
    case Join(h', n) =>
      BuildApart(q, h');
      BuildApart(q, n);
      CountPositive(q, Build(q, h'));
      CountPositive(q, Build(q, n));
      JoinApart(q, Build(q, h'), Build(q, n));
      MergeRequestsKeeps(q, Build(q, h'), Build(q, n));
      RefusedSame(q, Build(q, h'), Build(q, n));
    case Recount(h') =>
      BuildApart(q, h');
      CountPositive(q, Build(q, h'));
      RecalcApart(q, Build(q, h'));
      RecountLimits(q, h');
  }

  lemma BackApart(q: Queue, r: Rq, b: Bio)
    requires r.bios != []
    ensures BackMerge(Apart(q), r, b) == BackMerge(q, r, b)
  {
    CountedApart(q, r.bios[|r.bios| - 1]);
    CountedApart(q, b);
    hide Counted;
  }

  lemma FrontApart(q: Queue, r: Rq, b: Bio)
    requires r.bios != []
    ensures FrontMerge(Apart(q), r, b) == FrontMerge(q, r, b)
  {
    CountedApart(q, r.bios[0]);
    CountedApart(q, b);
    hide Counted;
  }

  /** Counting again is then no more. */
  lemma CountedAgain(q: Queue, h: History)
    requires BiosOk(q, h) && Uncounted(h) && forall v, w :: !HighJoin(q, v, w)
    ensures Build(q, Recount(h)).nr <= Build(q, h).nr
  {
    hide HighJoin, Greedy, Vecs, RqOk, MergeRequests;
    BuildApart(q, h);
    SegmentBound(Apart(q), h);
    GreedyApart(q, Vecs(Build(q, h).bios));
  }

  // ---------------------------------------------------------------- the two rules disagree

  /** A bio of one vector. */
  function Single(v: Vec): Bio { Bio([v], 0, 0, 0, false) }

  lemma SingleCounts(q: Queue, v: Vec)
    ensures Greedy(q, true, [v]) == [[v]] && Size([v]) == v.len
  {
    GreedySnoc(q, true, [], v);
    SizeSnoc([], v);
    assert [] + [v] == [v];
  }

  lemma SingleStart(q: Queue, v: Vec)
    ensures BiosOk(q, Start(Single(v)))
    ensures var r := Build(q, Start(Single(v)));
            && r.nr == 1 && !r.special && |r.bios| == 1 && r.bios[0].front == v.len == r.bios[0].back
            && r.bios[0].vecs == [v] && Vecs(r.bios) == [v]
  {
    SingleCounts(q, v);
    VecsSingle(Single(v));
    VecsSingle(Counted(q, Single(v)));
    hide Greedy, Size;
  }

  lemma PairCounts(q: Queue, v: Vec, w: Vec)
    requires q.high(v) || q.high(w)
    ensures |Greedy(q, true, [v, w])| == 2
  {
    SingleCounts(q, v);
    GreedySnoc(q, true, [v], w);
    assert [v] + [w] == [v, w];
    hide Greedy;
  }

  lemma PairSectors(v: Vec, w: Vec)
    requires v.len % 512 == 0 == w.len % 512
    ensures Whole([v]) && Whole([w]) && Sectors([v, w]) == (v.len + w.len) / 512
    ensures Sectors([v]) <= Sectors([v, w]) && Sectors([w]) <= Sectors([v, w])
  {
    SizeSnoc([], v);
    SizeSnoc([], w);
    SizeSnoc([v], w);
    assert [] + [v] == [v] && [] + [w] == [w] && [v] + [w] == [v, w];
  }

  lemma PairJoins(q: Queue, v: Vec, w: Vec, r: Rq, s: Rq)
    requires HighJoin(q, v, w) && q.maxSegments > 0 && RqOk(q, r) && RqOk(q, s)
    requires r.nr == 1 == s.nr && !r.special && !s.special && |r.bios| == 1 == |s.bios| && s.bios[0].vecs != []
    requires r.bios[0].vecs == [v] == Vecs(r.bios) && s.bios[0].vecs == [w] == Vecs(s.bios)
    requires r.bios[0].back == v.len && s.bios[0].front == w.len
    ensures var o := MergeRequests(q, r, s); o.ok && o.req.nr == 1 && Vecs(o.req.bios) == [v, w]
  {
    hide Bound, Size, Vecs, MergeRequests, RqOk, Whole, Sectors;
    PairSectors(v, w);
    MergeRequestsIff(q, r, s);
    MergeRequestsKeeps(q, r, s);
    assert [v] + [w] == [v, w];
  }

  /**
   * Two adjacent vectors, one of them high, in two requests: they are joined as one segment and counted as two
   * afterwards, which is too many if the queue takes one.
   */
  lemma RecountExceeds(q: Queue, v: Vec, w: Vec)
    requires HighJoin(q, v, w) && q.maxSegments > 0
    ensures var h := Join(Start(Single(v)), Start(Single(w)));
            Fresh(q, h) && Build(q, h).nr == 1 && Build(q, Recount(h)).nr == 2
  {
    var h := Join(Start(Single(v)), Start(Single(w)));
    PairFresh(q, v, w);
    hide Greedy, Vecs, MergeRequests, RqOk, BioOk, HighJoin, Build, BiosFit, Uncounted, Recached;
    SingleStart(q, v);
    SingleStart(q, w);
    JoinIs(q, Start(Single(v)), Start(Single(w)));
    PairJoins(q, v, w, Build(q, Start(Single(v))), Build(q, Start(Single(w))));
    PairCounts(q, v, w);
    RecountIs(q, h);
  }

  lemma JoinIs(q: Queue, h: History, n: History)
    requires BiosOk(q, h) && BiosOk(q, n)
    ensures BiosOk(q, Join(h, n))
    ensures var r, s := Build(q, h), Build(q, n);
            r.bios != [] && s.bios != [] && s.bios[0].vecs != [] && r.nr > 0 && Build(q, Join(h, n)) == MergeRequests(q, r, s).req
  {
    hide MergeRequests;
    CountPositive(q, Build(q, h));
    CountPositive(q, Build(q, n));
  }

  lemma RecountIs(q: Queue, h: History)
    requires BiosOk(q, h)
    ensures var r := Build(q, h); r.bios != [] && Build(q, Recount(h)).nr == |Greedy(q, true, Vecs(r.bios))|
  {
    hide Greedy, Vecs;
    CountPositive(q, Build(q, h));
  }

  lemma PairFresh(q: Queue, v: Vec, w: Vec)
    requires HighJoin(q, v, w) && q.maxSegments > 0
    ensures Fresh(q, Join(Start(Single(v)), Start(Single(w))))
  {
    hide Greedy, Sectors, Whole;
    PairSectors(v, w);
    SingleCounts(q, v);
    SingleCounts(q, w);
    assert forall u :: u in {v, w} ==> BiosOk(q, Start(Single(u))) && Uncounted(Start(Single(u)));
    assert BiosFit(q, Start(Single(v))) && BiosFit(q, Start(Single(w)));
  }

  /** No request whose segments are counted again has more of them than before. */
  ghost predicate NeverRises(q: Queue) {
    forall h :: Fresh(q, h) ==> Build(q, Recount(h)).nr <= Build(q, h).nr
  }

  /** Counting again never raises a count if and only if no vectors exist that the two rules disagree about. */
  lemma NeverRisesIff(q: Queue)
    requires q.maxSegments > 0
    ensures NeverRises(q) <==> forall v, w :: !HighJoin(q, v, w)
  {
    hide HighJoin, Build;
    if v, w :| HighJoin(q, v, w) {
      RecountExceeds(q, v, w);
      assert !NeverRises(q);
    } else {
      forall h | Fresh(q, h) ensures Build(q, Recount(h)).nr <= Build(q, h).nr {
        CountedAgain(q, h);
      }
    }
  }

  /** Then every request keeps to the limits of the queue, however often it is counted again. */
  lemma {:induction false} LimitsHold(q: Queue, h: History)
    requires Fresh(q, h) && forall v, w :: !HighJoin(q, v, w)
    ensures WithinLimits(q, Build(q, h))
  {
    hide HighJoin, Vecs, RqOk, BackMerge, FrontMerge, MergeRequests, Recalc, Whole, Sectors, BioOk;
    LimitsKept(q, h);
    match h
    case Start(b) =>
    case Back(h', b) =>
      LimitsHold(q, h');
      LimitsKept(q, h');
      BackMergeIff(q, Build(q, h'), b);
    case Front(h', b) =>
      LimitsHold(q, h');
      LimitsKept(q, h');
      FrontMergeIff(q, Build(q, h'), b);
    case Join(h', n) =>
      LimitsHold(q, h');
      LimitsKept(q, h');
      LimitsKept(q, n);
      MergeRequestsIff(q, Build(q, h'), Build(q, n));
    case Recount(h') =>
      LimitsHold(q, h');
      CountedAgain(q, h');
  }
}
