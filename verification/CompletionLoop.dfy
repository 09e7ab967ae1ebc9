/**
 * req_bio_endio and blk_update_request of omap/block/blk-core.c, as loops over a request that is updated in place.
 */
module CompletionLoop {
  import opened Common
  import opened Segments
  import opened Completion
  import SegmentMerge
  import ScatterList

  /** The variables of the loop of blk_update_request; `ended` collects the bios ended so far. */
  datatype Scan = Scan(bios: seq<Bio>, ended: seq<End>, nr: nat, nextIdx: nat, bioBytes: nat, total: nat)

  /** Some vectors of the first bio have been passed already. */
  ghost predicate Inside(b: Bio, s: Scan) {
    && BioOk(b) && s.nr > 0 && s.nr + s.bioBytes < b.size
    && s.nextIdx <= |Rest(b)| && s.bioBytes == Size(Rest(b)[..s.nextIdx])
    && Skip(Rest(b), s.nr + s.bioBytes) == s.nextIdx + Skip(Rest(b)[s.nextIdx..], s.nr)
  }

  /** What is still to do completes the whole. */
  ghost predicate Scanning(bios: seq<Bio>, n: nat, error: int, s: Scan) {
    && AllOk(bios) && AllOk(s.bios)
    && s.total + s.nr == n
    && s.total + Total(s.bios) == Total(bios) + s.bioBytes
    && Complete(bios, n, error).bios == Complete(s.bios, s.nr + s.bioBytes, error).bios
    && Complete(bios, n, error).ended == s.ended + Complete(s.bios, s.nr + s.bioBytes, error).ended
    && (s.nextIdx == 0 ==> s.bioBytes == 0)
    && (s.nextIdx > 0 ==> s.bios != [] && Inside(s.bios[0], s))
  }

  /** Only the first bio is left to be shortened. */
  ghost predicate Stopped(bios: seq<Bio>, n: nat, error: int, s: Scan) {
    && AllOk(bios) && AllOk(s.bios)
    && var t := Complete(bios, n, error);
    && t.ended == s.ended
    && (s.bios == [] ==> t.bios == [])
    && (s.bios != [] ==>
          && s.bioBytes < s.bios[0].size + (if s.bioBytes == 0 then 1 else 0)
          && s.total + Total(s.bios) == Total(bios) + s.bioBytes
          && t.bios == (if s.bioBytes == 0 then s.bios else [Advance(s.bios[0], s.bioBytes, error)] + s.bios[1..])
          && (s.bioBytes > 0 ==> StopsInside(s.bios[0], s)))
  }

  ghost predicate StopsInside(b: Bio, s: Scan)
    requires BioOk(b)
  {
    && s.nextIdx == Skip(Rest(b), s.bioBytes) && s.nextIdx < |Rest(b)|
    && Size(Rest(b)[..s.nextIdx]) + s.nr == s.bioBytes
  }

  // ---------------------------------------------------------------- one turn of the loop

  lemma ScanStarts(bios: seq<Bio>, n: nat, error: int)
    requires AllOk(bios)
    ensures Scanning(bios, n, error, Scan(bios, [], n, 0, 0, 0))
  {
    hide Complete;
  }

  /** The first bio is used up. */
  function EndHead(s: Scan, error: int): Scan
    requires s.bios != [] && s.nr >= s.bios[0].size
  {
    var b := s.bios[0];
    Scan(s.bios[1..], s.ended + [End(b.id, Code(b, error))], s.nr - b.size, 0, 0, s.total + b.size)
  }

  lemma CompleteHead(bios: seq<Bio>, n: nat, error: int)
    requires AllOk(bios) && bios != [] && n >= bios[0].size
    ensures var t, e := Complete(bios, n, error), End(bios[0].id, Code(bios[0], error));
            if n == bios[0].size && |bios| > 1 then t == Left(bios[1..], [e])
            else var u := Complete(bios[1..], n - bios[0].size, error); t == Left(u.bios, [e] + u.ended)
  {
  }

  lemma CompleteEmpty(n: nat, error: int)
    ensures Complete([], n, error) == Left([], [])
  {
  }

  lemma ScanEnds(bios: seq<Bio>, n: nat, error: int, s: Scan)
    requires Scanning(bios, n, error, s) && s.bios != [] && s.nr >= s.bios[0].size
    ensures var t := EndHead(s, error);
            if t.bios == [] || t.nr == 0 then Stopped(bios, n, error, t) else Scanning(bios, n, error, t)
  {
    hide Complete, BioOk, Code, Advance;
    assert s.nextIdx == 0;
    CompleteHead(s.bios, s.nr, error);
    var t := EndHead(s, error);
    var e := End(s.bios[0].id, Code(s.bios[0], error));
    if t.bios == [] {
      CompleteEmpty(t.nr, error);
      assert s.ended + ([e] + []) == t.ended;
    } else if t.nr == 0 {
      assert s.ended + [e] == t.ended;
    } else {
      var u := Complete(s.bios[1..], s.nr - s.bios[0].size, error);
      assert s.ended + ([e] + u.ended) == t.ended + u.ended;
    }
  }

  lemma SizeSplit(vecs: seq<Vec>, k: nat)
    requires k <= |vecs|
    ensures Size(vecs) == Size(vecs[..k]) + Size(vecs[k..])
  {
    assert vecs == vecs[..k] + vecs[k..];
    SizeAppend(vecs[..k], vecs[k..]);
  }

  lemma SizeNext(vecs: seq<Vec>, k: nat)
    requires k < |vecs|
    ensures Size(vecs[..k + 1]) == Size(vecs[..k]) + vecs[k].len
  {
    assert vecs[..k + 1] == vecs[..k] + [vecs[k]];
    SizeSnoc(vecs[..k], vecs[k]);
  }

  /** Where the loop stands inside the first bio. */
  ghost predicate At(b: Bio, s: Scan) {
    && BioOk(b) && s.nr + s.bioBytes < b.size && s.nextIdx < |Rest(b)|
    && s.bioBytes == Size(Rest(b)[..s.nextIdx])
    && Skip(Rest(b), s.nr + s.bioBytes) == s.nextIdx + Skip(Rest(b)[s.nextIdx..], s.nr)
    && Rest(b)[s.nextIdx].len <= b.size
  }

  lemma ScanAt(bios: seq<Bio>, n: nat, error: int, s: Scan)
    requires Scanning(bios, n, error, s) && s.bios != [] && s.nr < s.bios[0].size
    ensures At(s.bios[0], s)
  {
    hide Complete;
    var b := s.bios[0];
    assert BioOk(b);
    var v := Rest(b);
    SizeSplit(v, s.nextIdx);
    assert v[s.nextIdx..] != [];
    SizeNext(v, s.nextIdx);
    SizeSplit(v, s.nextIdx + 1);
    if s.nextIdx == 0 { assert v[0..] == v; }
  }

  lemma SkipOne(vecs: seq<Vec>, k: nat, n: nat)
    requires k < |vecs| && n > 0
    ensures if vecs[k].len > n then Skip(vecs[k..], n) == 0
            else Skip(vecs[k..], n) == 1 + Skip(vecs[k + 1..], n - vecs[k].len)
  {
    assert vecs[k..][0] == vecs[k] && vecs[k..][1..] == vecs[k + 1..];
  }

  /** The current vector is only partly done. */
  function StopInVec(s: Scan): Scan { s.(bioBytes := s.bioBytes + s.nr, total := s.total + s.nr) }

  lemma CompleteInside(bios: seq<Bio>, n: nat, error: int)
    requires AllOk(bios) && bios != [] && n < bios[0].size
    ensures Complete(bios, n, error) == Left(if n == 0 then bios else [Advance(bios[0], n, error)] + bios[1..], [])
  {
    if n == 0 { assert bios == [bios[0]] + bios[1..]; }
  }

  lemma StopsIn(b: Bio, s: Scan)
    requires At(b, s) && s.nr > 0 && Rest(b)[s.nextIdx].len > s.nr
    ensures StopsInside(b, StopInVec(s))
  {
    hide Size, Skip;
    SkipOne(Rest(b), s.nextIdx, s.nr);
  }

  lemma ScanStops(bios: seq<Bio>, n: nat, error: int, s: Scan)
    requires Scanning(bios, n, error, s) && s.bios != [] && s.nr < s.bios[0].size && At(s.bios[0], s)
    requires Rest(s.bios[0])[s.nextIdx].len > s.nr
    ensures Stopped(bios, n, error, StopInVec(s))
  {
    hide Complete, Advance, At, BioOk, StopsInside, Total;
    var b := s.bios[0];
    AtLess(b, s);
    CompleteInside(s.bios, s.nr + s.bioBytes, error);
    if s.nr > 0 { StopsIn(b, s); }
  }

  lemma AtLess(b: Bio, s: Scan)
    requires At(b, s)
    ensures s.nr + s.bioBytes < b.size && b.idx <= |b.table| && s.nextIdx < |Rest(b)|
  {
  }

  /** The current vector is done, too. */
  function NextVec(s: Scan, len: nat): Scan
    requires len <= s.nr
  {
    s.(nextIdx := s.nextIdx + 1, bioBytes := s.bioBytes + len, total := s.total + len, nr := s.nr - len)
  }

  lemma NextIn(b: Bio, s: Scan)
    requires At(b, s) && Rest(b)[s.nextIdx].len <= s.nr
    ensures var t := NextVec(s, Rest(b)[s.nextIdx].len);
            (t.nr > 0 ==> Inside(b, t)) && (t.nr == 0 && t.bioBytes > 0 && s.nr > 0 ==> StopsInside(b, t))
  {
    hide Size, Skip;
    var v := Rest(b);
    SizeNext(v, s.nextIdx);
    if s.nr > 0 {
      SkipOne(v, s.nextIdx, s.nr);
      SkipNothing(v[s.nextIdx + 1..]);
      SkipInside(v, s.nr + s.bioBytes);
    }
  }

  lemma ScanNext(bios: seq<Bio>, n: nat, error: int, s: Scan)
    requires Scanning(bios, n, error, s) && s.bios != [] && s.nr < s.bios[0].size && At(s.bios[0], s)
    requires Rest(s.bios[0])[s.nextIdx].len <= s.nr
    ensures var t := NextVec(s, Rest(s.bios[0])[s.nextIdx].len);
            if t.nr == 0 then Stopped(bios, n, error, t) else Scanning(bios, n, error, t)
  {
    hide Complete, Advance, At, BioOk, StopsInside, Total;
    var b := s.bios[0];
    AtLess(b, s);
    NextIn(b, s);
    var t := NextVec(s, Rest(b)[s.nextIdx].len);
    if t.nr == 0 { CompleteInside(s.bios, s.nr + s.bioBytes, error); }
  }

  lemma SkipNothing(vecs: seq<Vec>)
    ensures Skip(vecs, 0) == 0
  {
  }

  // ---------------------------------------------------------------- cached segments

  function SegView(b: Bio): SegmentMerge.Bio
    requires b.idx <= |b.table|
  {
    SegmentMerge.Bio(Rest(b), b.front, b.back, b.segs, b.valid)
  }

  function SegViews(bios: seq<Bio>): (r: seq<SegmentMerge.Bio>)
    requires AllOk(bios)
    ensures |r| == |bios| && forall i :: 0 <= i < |bios| ==> r[i] == SegView(bios[i])
  {
    if bios == [] then [] else [SegView(bios[0])] + SegViews(bios[1..])
  }

  function WithSegments(bios: seq<Bio>, segs: seq<SegmentMerge.Bio>): (r: seq<Bio>)
    requires |segs| == |bios|
    ensures |r| == |bios|
    ensures forall i :: 0 <= i < |bios| ==> r[i] == bios[i].(front := segs[i].front, back := segs[i].back)
  {
    if bios == [] then [] else [bios[0].(front := segs[0].front, back := segs[0].back)] + WithSegments(bios[1..], segs[1..])
  }

  /** Two chains that differ in the cached segment sizes only. */
  ghost predicate SameButSegments(x: seq<Bio>, y: seq<Bio>) {
    |x| == |y| && forall i :: 0 <= i < |x| ==> y[i] == x[i].(front := y[i].front, back := y[i].back)
  }

  lemma SameButSegmentsOk(x: seq<Bio>, y: seq<Bio>)
    requires AllOk(x) && SameButSegments(x, y)
    ensures AllOk(y) && SameChain(x, y)
  {
    forall i | 0 <= i < |x| ensures BioOk(y[i]) && Same(x[i], y[i]) {
      assert BioOk(x[i]) && y[i] == x[i].(front := y[i].front, back := y[i].back);
    }
  }

  lemma {:induction false} SameButSegmentsBytes(x: seq<Bio>, y: seq<Bio>)
    requires AllOk(x) && SameButSegments(x, y)
    ensures AllOk(y) && Bytes(y) == Bytes(x) && Total(y) == Total(x) && Ids(y) == Ids(x) && SameChain(x, y)
    decreases |x|
  {
    SameButSegmentsOk(x, y);
    if x != [] {
      assert Same(x[0], y[0]);
      hide Same, SameChain, BioOk, ScatterList.VecBytes;
      SameButSegmentsBytes(x[1..], y[1..]);
    }
  }

  // ---------------------------------------------------------------- the request

  class Request {
    const q: Queue
    /** REQ_TYPE_FS or REQ_DISCARD: the start sector is meaningful. */
    const hasSector: bool
    /** REQ_FLUSH_SEQ: the flush machinery ends the bios itself. */
    const flushSeq: bool
    var bios: seq<Bio>
    var dataLen: nat
    var sector: nat
    var nr: nat
    var ended: seq<End>

    ghost predicate Valid()
      reads this
    {
      AllOk(bios) && dataLen == Total(bios)
    }

    /** req_bio_endio */
    method ReqBioEndio(bio: Bio, bytes: nat, error: int) returns (b: Bio)
      modifies this`ended
      ensures b == Consumed(bio, Min(bytes, bio.size), error)
      ensures ended == old(ended) + if bio.size <= bytes && !flushSeq then [End(bio.id, Code(bio, error))] else []
      ensures b.uptodate <==> bio.uptodate && error == 0
      ensures bio.size <= bytes && !flushSeq ==>
                && |ended| == |old(ended)| + 1
                && ended[|ended| - 1].error == if error != 0 then error else if bio.uptodate then 0 else -5
    {
      b := bio;
      var err, nbytes := error, bytes;
      if error != 0 {
        b := b.(uptodate := false);
      } else if !b.uptodate {
        err := EIO;
      }
      if nbytes > b.size {
        nbytes := b.size;
      }
      b := b.(size := b.size - nbytes, sector := b.sector + nbytes / 512);
      if b.size == 0 && !flushSeq {
        ended := ended + [End(b.id, err)];
      }
    }

    /** The loop of blk_update_request: ends the bios that are used up and finds where the last one stops. */
    method ScanBios(error: int, bytes: nat) returns (ghost log: seq<End>, nr': nat, nextIdx: nat, bioBytes: nat, total: nat)
      requires AllOk(bios) && bios != []
      modifies this`bios, this`ended
      ensures Stopped(old(bios), bytes, error, Scan(bios, log, nr', nextIdx, bioBytes, total))
      ensures ended == old(ended) + if flushSeq then [] else log
    {
      hide Stopped, Scanning, BioOk, At, Code, AllOk;
      nr', nextIdx, bioBytes, total, log := bytes, 0, 0, 0, [];
      ScanStarts(bios, bytes, error);
      while bios != []
        invariant bios != [] ==> Scanning(old(bios), bytes, error, Scan(bios, log, nr', nextIdx, bioBytes, total))
        invariant bios == [] ==> Stopped(old(bios), bytes, error, Scan(bios, log, nr', nextIdx, bioBytes, total))
        invariant ended == old(ended) + if flushSeq then [] else log
        decreases |bios|, if bios == [] then 0 else |bios[0].table| - bios[0].idx - nextIdx
      {
        ghost var s := Scan(bios, log, nr', nextIdx, bioBytes, total);
        var bio := bios[0];
        var done: nat;
        if nr' >= bio.size {
          ScanEnds(old(bios), bytes, error, s);
          bios := bios[1..];
          done := bio.size;
          var _ := ReqBioEndio(bio, done, error);
          log := log + [End(bio.id, Code(bio, error))];
          nextIdx, bioBytes := 0, 0;
        } else {
          ScanAt(old(bios), bytes, error, s);
          AtLess(bio, s);
          done := bio.table[bio.idx + nextIdx].len;
          assert done == Rest(bio)[nextIdx].len;
          if done > nr' {
            ScanStops(old(bios), bytes, error, s);
            bioBytes, total := bioBytes + nr', total + nr';
            break;
          }
          ScanNext(old(bios), bytes, error, s);
          nextIdx, bioBytes := nextIdx + 1, bioBytes + done;
        }
        total, nr' := total + done, nr' - done;
        if bios != [] && nr' == 0 {
          break;
        }
      }
    }

    /** bio_cur_bytes */
    function CurBytes(): nat
      requires bios != []
      reads this
    {
      if bios[0].idx < |bios[0].table| then bios[0].table[bios[0].idx].len else bios[0].size
    }

    /** blk_recalc_rq_segments */
    method RecalcSegments()
      requires AllOk(bios) && bios != []
      modifies this`bios, this`nr
      ensures SameButSegments(old(bios), bios) && AllOk(bios)
      ensures SegViews(bios) == SegmentMerge.Recached(q, SegViews(old(bios)))
      ensures nr == |Greedy(q, true, SegmentMerge.Vecs(SegViews(old(bios))))|
      ensures Positive(bios) ==> SegmentMerge.RqOk(q, SegmentMerge.Rq(SegViews(bios), nr, false, false))
    {
      hide SegmentMerge.RqOk, BioOk, SegmentMerge.Vecs, Greedy, SegmentMerge.Recached;
      var views := SegViews(bios);
      var out;
      nr, out := ScatterList.RecalcSegments(q, views);
      RecachedShape(q, views);
      RecalcOk(q, bios, nr, out);
      bios := WithSegments(bios, out);
    }

    /** The end of blk_update_request: the first bio is shortened. */
    method ShortenHead(error: int, bytes: nat, ghost s: Scan, nr': nat, nextIdx: nat)
      requires s.bios == bios && s.bioBytes == bytes > 0 && s.nr == nr' && s.nextIdx == nextIdx
      requires bios != [] && BioOk(bios[0]) && bytes < bios[0].size && StopsInside(bios[0], s)
      modifies this`bios, this`ended
      ensures bios == [Advance(old(bios)[0], bytes, error)] + old(bios)[1..] && ended == old(ended)
    {
      hide Size, Skip, Advance;
      var bio := bios[0];
      AdvanceIs(bio, bytes, nextIdx, nr', error);
      var b := ReqBioEndio(bio, bytes, error);
      b := b.(idx := b.idx + nextIdx);
      var v := b.table[b.idx];
      b := b.(table := b.table[b.idx := Vec(v.addr + nr', v.len - nr')]);
      bios := bios[0 := b];
    }

    /** The counters and the segments follow the chain. */
    method Settle(total: nat)
      requires bios != [] && AllOk(bios) && dataLen == Total(bios) + total
      modifies this`bios, this`dataLen, this`sector, this`nr
      ensures Valid() && SameButSegments(old(bios), bios)
      ensures sector == old(sector) + if hasSector then total / 512 else 0
      ensures SegViews(bios) == SegmentMerge.Recached(q, SegViews(old(bios)))
      ensures nr == |Greedy(q, true, SegmentMerge.Vecs(SegViews(old(bios))))|
      ensures Positive(bios) ==> SegmentMerge.RqOk(q, SegmentMerge.Rq(SegViews(bios), nr, false, false))
    {
      hide BioOk, SegmentMerge.RqOk, SegmentMerge.Recached, Greedy, SegmentMerge.Vecs;
      dataLen := dataLen - total;
      if hasSector {
        sector := sector + total / 512;
      }
      HeadFits(bios);
      dataLen := Max(dataLen, CurBytes());
      RecalcSegments();
      SameButSegmentsBytes(old(bios), bios);
    }

    /** blk_update_request: whether the request has more data. */
    method UpdateRequest(error: int, bytes: nat) returns (more: bool)
      requires Valid()
      modifies this
      ensures Valid()
      ensures SameButSegments(Complete(old(bios), bytes, error).bios, bios)
      ensures ended == old(ended) + if flushSeq then [] else Complete(old(bios), bytes, error).ended
      ensures more <==> bios != []
      ensures sector == old(sector) + if more && hasSector then Min(bytes, old(dataLen)) / 512 else 0
      ensures more ==>
                var left := Complete(old(bios), bytes, error).bios;
                && left != [] && AllOk(left) && SegViews(bios) == SegmentMerge.Recached(q, SegViews(left))
                && nr == |Greedy(q, true, SegmentMerge.Vecs(SegViews(left)))|
      ensures more && Positive(bios) ==> SegmentMerge.RqOk(q, SegmentMerge.Rq(SegViews(bios), nr, false, false))
    {
      hide Complete, Stopped, BioOk, SegmentMerge.RqOk, Advance, SegmentMerge.Recached, Greedy, SegmentMerge.Vecs;
      if bios == [] {
        CompleteEmpty(bytes, error);
        return false;
      }
      var log, nr', nextIdx, bioBytes, total := ScanBios(error, bytes);
      ghost var s := Scan(bios, log, nr', nextIdx, bioBytes, total);
      StoppedMeans(old(bios), bytes, error, s);
      if bios == [] {
        dataLen := 0;
        return false;
      }
      if bioBytes > 0 {
        ShortenHead(error, bioBytes, s, nr', nextIdx);
      }
      assert bios == Complete(old(bios), bytes, error).bios;
      CompleteBytes(old(bios), bytes, error);
      Settle(total);
      return true;
    }
  }

  lemma AdvanceIs(b: Bio, n: nat, k: nat, r: nat, error: int)
    requires BioOk(b) && 0 < n < b.size && k == Skip(Rest(b), n) && k < |Rest(b)| && Size(Rest(b)[..k]) + r == n
    ensures var v := b.table[b.idx + k];
            r <= v.len && Advance(b, n, error) ==
            Consumed(b, n, error).(idx := b.idx + k, table := b.table[b.idx + k := Vec(v.addr + r, v.len - r)])
  {
    SkipInside(Rest(b), n);
    assert Rest(b)[k] == b.table[b.idx + k];
  }

  lemma StoppedMeans(bios: seq<Bio>, n: nat, error: int, s: Scan)
    requires Stopped(bios, n, error, s)
    ensures AllOk(bios) && AllOk(s.bios)
    ensures var t := Complete(bios, n, error);
            && t.ended == s.ended
            && (s.bios == [] ==> t.bios == [])
            && (s.bios != [] ==> s.total + Total(t.bios) == Total(bios))
            && (s.bios != [] && s.bioBytes == 0 ==> t.bios == s.bios)
            && (s.bios != [] && s.bioBytes > 0 ==>
                  && BioOk(s.bios[0]) && s.bioBytes < s.bios[0].size && StopsInside(s.bios[0], s)
                  && t.bios == [Advance(s.bios[0], s.bioBytes, error)] + s.bios[1..])
  {
    hide Complete, Advance;
    if s.bios != [] && s.bioBytes > 0 {
      assert BioOk(s.bios[0]) && s.bios == [s.bios[0]] + s.bios[1..];
      AdvanceHead(s.bios[0], s.bios[1..], s.bioBytes, error);
    }
  }

  /** The current vector is within the data left, so the request is not "botched". */
  lemma HeadFits(bios: seq<Bio>)
    requires AllOk(bios) && bios != []
    ensures var b := bios[0]; (if b.idx < |b.table| then b.table[b.idx].len else b.size) <= Total(bios)
  {
    var b := bios[0];
    assert BioOk(b);
    if b.idx < |b.table| { SizeHead(Rest(b)); }
  }

  lemma RecachedShape(q: Queue, views: seq<SegmentMerge.Bio>)
    requires views != []
    ensures var out := SegmentMerge.Recached(q, views);
            |out| == |views| && forall i :: 0 <= i < |out| ==> out[i] == views[i].(front := out[i].front, back := out[i].back)
  {
    hide Greedy, SegmentMerge.Vecs, Size;
  }

  lemma RecalcOk(q: Queue, bios: seq<Bio>, nr: nat, out: seq<SegmentMerge.Bio>)
    requires AllOk(bios) && bios != [] && out == SegmentMerge.Recached(q, SegViews(bios)) && |out| == |bios|
    requires nr == |Greedy(q, true, SegmentMerge.Vecs(SegViews(bios)))|
    ensures var t := WithSegments(bios, out);
            && SameButSegments(bios, t) && AllOk(t) && SegViews(t) == out
            && (Positive(t) ==> SegmentMerge.RqOk(q, SegmentMerge.Rq(SegViews(t), nr, false, false)))
  {
    hide SegmentMerge.RqOk, BioOk, SegmentMerge.Vecs, Greedy, SegmentMerge.Recached, Max;
    var t := WithSegments(bios, out);
    SameButSegmentsBytes(bios, t);
    RecachedShape(q, SegViews(bios));
    ViewsOfWith(bios, out);
    if Positive(t) {
      PositiveHasVecs(bios, t);
      SegmentMerge.RecalcKeeps(q, SegmentMerge.Rq(SegViews(bios), 0, false, false));
    }
  }

  lemma ViewsOfWith(bios: seq<Bio>, out: seq<SegmentMerge.Bio>)
    requires AllOk(bios) && |out| == |bios|
    requires forall i :: 0 <= i < |out| ==> out[i] == SegViews(bios)[i].(front := out[i].front, back := out[i].back)
    ensures AllOk(WithSegments(bios, out)) && SegViews(WithSegments(bios, out)) == out
  {
    var t := WithSegments(bios, out);
    forall i | 0 <= i < |t| ensures BioOk(t[i]) && SegView(t[i]) == out[i] {
      assert BioOk(bios[i]) && out[i] == SegViews(bios)[i].(front := out[i].front, back := out[i].back);
    }
    assert AllOk(t);
  }

  lemma PositiveHasVecs(x: seq<Bio>, y: seq<Bio>)
    requires AllOk(x) && SameButSegments(x, y) && Positive(y)
    ensures forall i :: 0 <= i < |x| ==> SegViews(x)[i].vecs != []
  {
    forall i | 0 <= i < |x| ensures SegViews(x)[i].vecs != [] {
      assert BioOk(x[i]) && y[i].size > 0 && y[i] == x[i].(front := y[i].front, back := y[i].back);
    }
  }
}
