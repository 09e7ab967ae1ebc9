/**
 * The deadline scheduler of omap/block/deadline-iosched.c, with the accounting of the elevator around it.
 */
module Deadline {
  import opened Common
  import opened Lists
  import opened DeadlineLists

  // ---------------------------------------------------------------- selection, and starvation

  /** What a dispatch call sees: is the fifo of a direction non-empty, is its next request set? */
  datatype View = View(readers: bool, writers: bool, nextRead: bool, nextWrite: bool)

  /** A next request is a queued one, and batches are reads or writes, not both. */
  predicate ViewOk(v: View) {
    (v.nextRead ==> v.readers) && (v.nextWrite ==> v.writers) && !(v.nextRead && v.nextWrite)
  }

  datatype Counters = Counters(batching: nat, starved: nat)

  datatype Choice = Nothing | Dispatch(write: bool, continued: bool)

  /** The conversion of an int setting in a comparison with an unsigned counter. */
  function Unsigned(n: int): nat
    requires -0x8000_0000 <= n < 0x8000_0000
  {
    if n < 0 then n + 0x1_0000_0000 else n
  }

  /** deadline_dispatch_requests: the direction that is served, and the counters afterwards. */
  function Select(v: View, c: Counters, fifoBatch: nat, writesStarved: nat): (Choice, Counters) {
    if (v.nextWrite || v.nextRead) && c.batching < fifoBatch
    then (Dispatch(v.nextWrite, true), c.(batching := c.batching + 1))
    else if v.readers then
      if v.writers && c.starved >= writesStarved then (Dispatch(true, false), Counters(1, 0))
      else (Dispatch(false, false), Counters(1, if v.writers then c.starved + 1 else c.starved))
    else if v.writers then (Dispatch(true, false), Counters(1, 0))
    else (Nothing, c)
  }

  /** Something is dispatched exactly when something is queued. */
  lemma SelectsIfAny(v: View, c: Counters, fifoBatch: nat, writesStarved: nat)
    requires ViewOk(v)
    ensures Select(v, c, fifoBatch, writesStarved).0.Nothing? <==> !v.readers && !v.writers
    ensures var (ch, _) := Select(v, c, fifoBatch, writesStarved);
            ch.Dispatch? ==> if ch.write then v.writers else v.readers
  {
  }

  /** How many more reads can go first: the rest of this batch, and the batches until writes count as starved. */
  function Patience(c: Counters, fifoBatch: nat, writesStarved: nat): nat {
    fifoBatch - Min(fifoBatch, c.batching) + (writesStarved - Min(writesStarved, c.starved)) * Max(fifoBatch, 1)
  }

  lemma ReadCosts(v: View, c: Counters, fifoBatch: nat, writesStarved: nat)
    requires ViewOk(v) && v.writers
    ensures var (ch, d) := Select(v, c, fifoBatch, writesStarved);
            ch.Dispatch? && (!ch.write ==> Patience(d, fifoBatch, writesStarved) + 1 <= Patience(c, fifoBatch, writesStarved))
  {
    var b := Max(fifoBatch, 1);
    var (ch, d) := Select(v, c, fifoBatch, writesStarved);
    if !ch.write && !ch.continued {
      var k := writesStarved - c.starved;
      assert (k - 1) * b == k * b - b;
    }
  }

  /** Every one of these calls found a write queued and chose a read. */
  ghost predicate OnlyReads(views: seq<View>, c: Counters, fifoBatch: nat, writesStarved: nat)
    decreases |views|
  {
    views != [] ==>
      && ViewOk(views[0]) && views[0].writers
      && var (ch, d) := Select(views[0], c, fifoBatch, writesStarved);
      ch.Dispatch? && !ch.write && OnlyReads(views[1..], d, fifoBatch, writesStarved)
  }

  lemma {:induction false} PatienceRunsOut(views: seq<View>, c: Counters, fifoBatch: nat, writesStarved: nat)
    requires OnlyReads(views, c, fifoBatch, writesStarved)
    ensures |views| <= Patience(c, fifoBatch, writesStarved)
    decreases |views|
  {
    if views != [] {
      ReadCosts(views[0], c, fifoBatch, writesStarved);
      PatienceRunsOut(views[1..], Select(views[0], c, fifoBatch, writesStarved).1, fifoBatch, writesStarved);
    }
  }

  /** The reads that can go first at the best: none of the batch is used up and writes have not waited yet. */
  function Bound(fifoBatch: nat, writesStarved: nat): nat { (writesStarved + 1) * Max(fifoBatch, 1) }

  lemma PatienceBounded(c: Counters, fifoBatch: nat, writesStarved: nat)
    ensures Patience(c, fifoBatch, writesStarved) <= Bound(fifoBatch, writesStarved)
  {
    var w, b := writesStarved, Max(fifoBatch, 1);
    var k := w - Min(w, c.starved);
    assert k * b <= w * b;
    assert (w + 1) * b == w * b + b;
  }

  /** The reads in a row past a waiting write, after a choice. */
  function NextRow(ch: Choice, v: View, row: nat): nat { if ch.Dispatch? && !ch.write && v.writers then row + 1 else 0 }

  /** What is left and what has gone in a row stay within the bound together. */
  lemma RowKept(v: View, c: Counters, fifoBatch: nat, writesStarved: nat, row: nat)
    requires ViewOk(v) && Patience(c, fifoBatch, writesStarved) + row <= Bound(fifoBatch, writesStarved)
    ensures var (ch, d) := Select(v, c, fifoBatch, writesStarved);
            Patience(d, fifoBatch, writesStarved) + NextRow(ch, v, row) <= Bound(fifoBatch, writesStarved)
  {
    hide Patience, Bound;
    if v.writers { ReadCosts(v, c, fifoBatch, writesStarved); }
    PatienceBounded(Select(v, c, fifoBatch, writesStarved).1, fifoBatch, writesStarved);
  }

  /** While a write waits, at most (writes_starved + 1) * max(fifo_batch, 1) dispatch calls in a row choose reads. */
  lemma NoStarvation(views: seq<View>, c: Counters, fifoBatch: nat, setting: int)
    requires -0x8000_0000 <= setting < 0x8000_0000 && OnlyReads(views, c, fifoBatch, Unsigned(setting))
    ensures |views| <= Bound(fifoBatch, Unsigned(setting))
    ensures setting >= 0 ==> |views| <= (setting + 1) * Max(fifoBatch, 1)
  {
    PatienceRunsOut(views, c, fifoBatch, Unsigned(setting));
    PatienceBounded(c, fifoBatch, Unsigned(setting));
  }

  /** A reader batch that never runs dry. */
  function Busy(n: nat): (r: seq<View>)
    ensures |r| == n
  {
    if n == 0 then [] else [View(true, true, true, false)] + Busy(n - 1)
  }

  /** Any number of reads up to the patience left does go first. */
  lemma {:induction false} PatienceIsUsed(n: nat, c: Counters, fifoBatch: nat, writesStarved: nat)
    requires n <= Patience(c, fifoBatch, writesStarved)
    ensures OnlyReads(Busy(n), c, fifoBatch, writesStarved)
    decreases n
  {
    if n > 0 {
      var v := View(true, true, true, false);
      var (ch, d) := Select(v, c, fifoBatch, writesStarved);
      assert Busy(n)[0] == v && Busy(n)[1..] == Busy(n - 1);
      if c.batching >= fifoBatch {
        var k, b := writesStarved - Min(writesStarved, c.starved), Max(fifoBatch, 1);
        assert k > 0;
        assert (k - 1) * b == k * b - b;
      }
      PatienceIsUsed(n - 1, d, fifoBatch, writesStarved);
    }
  }

  /** From any counters, a run of `n` reads past a waiting write exists exactly if the patience allows it. */
  lemma BoundIsSharp(n: nat, c: Counters, fifoBatch: nat, writesStarved: nat)
    ensures (exists views :: |views| == n && OnlyReads(views, c, fifoBatch, writesStarved))
            <==> n <= Patience(c, fifoBatch, writesStarved)
  {
    hide OnlyReads, Patience;
    if n <= Patience(c, fifoBatch, writesStarved) {
      PatienceIsUsed(n, c, fifoBatch, writesStarved);
    }
    forall views | |views| == n && OnlyReads(views, c, fifoBatch, writesStarved)
      ensures n <= Patience(c, fifoBatch, writesStarved)
    {
      PatienceRunsOut(views, c, fifoBatch, writesStarved);
    }
  }

  /** A negative writes_starved is compared as a huge unsigned number: writes can wait for 2^31 reads and more. */
  lemma NegativeSettingStarves(n: nat, fifoBatch: nat, setting: int)
    requires -0x8000_0000 <= setting < 0 && n <= 0x8000_0000
    ensures OnlyReads(Busy(n), Counters(0, 0), fifoBatch, Unsigned(setting))
  {
    hide OnlyReads, Busy;
    var w, b := Unsigned(setting), Max(fifoBatch, 1);
    assert w * b >= w;
    PatienceIsUsed(n, Counters(0, 0), fifoBatch, w);
  }

  /** What the settings promise: no run of reads past a waiting write is longer than this. */
  ghost predicate KeepsPromise(fifoBatch: nat, setting: int)
    requires -0x8000_0000 <= setting < 0x8000_0000
  {
    forall views, c :: OnlyReads(views, c, fifoBatch, Unsigned(setting)) ==> |views| <= (setting + 1) * Max(fifoBatch, 1)
  }

  /** The promise is kept, whatever fifo_batch is, if and only if writes_starved is not negative. */
  lemma PromiseKeptIff(fifoBatch: nat, setting: int)
    requires -0x8000_0000 <= setting < 0x8000_0000
    ensures KeepsPromise(fifoBatch, setting) <==> setting >= 0
  {
    hide OnlyReads;
    if setting >= 0 {
      forall views, c | OnlyReads(views, c, fifoBatch, Unsigned(setting)) ensures |views| <= (setting + 1) * Max(fifoBatch, 1) {
        NoStarvation(views, c, fifoBatch, setting);
      }
    } else {
      NegativeSettingStarves(1, fifoBatch, setting);
      assert (setting + 1) * Max(fifoBatch, 1) <= 0;
    }
  }

  /** Every one of these calls found a read queued and chose a write. */
  ghost predicate OnlyWrites(views: seq<View>, c: Counters, fifoBatch: nat, writesStarved: nat)
    decreases |views|
  {
    views != [] ==>
      && ViewOk(views[0]) && views[0].readers
      && var (ch, d) := Select(views[0], c, fifoBatch, writesStarved);
      ch.Dispatch? && ch.write && OnlyWrites(views[1..], d, fifoBatch, writesStarved)
  }

  /** How many more writes can go first: the rest of this batch, and one batch if writes count as starved. */
  function WritePatience(c: Counters, fifoBatch: nat, writesStarved: nat): nat {
    fifoBatch - Min(fifoBatch, c.batching) + if c.starved >= writesStarved then Max(fifoBatch, 1) else 0
  }

  lemma {:induction false} WritesRunOut(views: seq<View>, c: Counters, fifoBatch: nat, writesStarved: nat)
    requires OnlyWrites(views, c, fifoBatch, writesStarved) && writesStarved > 0
    ensures |views| <= WritePatience(c, fifoBatch, writesStarved)
    decreases |views|
  {
    if views != [] {
      WritesRunOut(views[1..], Select(views[0], c, fifoBatch, writesStarved).1, fifoBatch, writesStarved);
    }
  }

  /** A writer batch that never runs dry while a read waits. */
  function BusyWrites(n: nat): (r: seq<View>)
    ensures |r| == n
  {
    if n == 0 then [] else [View(true, true, false, true)] + BusyWrites(n - 1)
  }

  lemma {:induction false} WritesGoOn(n: nat, c: Counters, fifoBatch: nat)
    ensures OnlyWrites(BusyWrites(n), c, fifoBatch, 0)
    decreases n
  {
    if n > 0 {
      var v := View(true, true, false, true);
      assert BusyWrites(n)[0] == v && BusyWrites(n)[1..] == BusyWrites(n - 1);
      WritesGoOn(n - 1, Select(v, c, fifoBatch, 0).1, fifoBatch);
    }
  }

  /** No run of writes past a waiting read is longer than two batches. */
  ghost predicate ReadsServed(fifoBatch: nat, writesStarved: nat) {
    forall views, c :: OnlyWrites(views, c, fifoBatch, writesStarved) ==> |views| <= 2 * Max(fifoBatch, 1)
  }

  /** Reads are not starved by writes if and only if writes_starved is not zero. */
  lemma ReadsServedIff(fifoBatch: nat, writesStarved: nat)
    ensures ReadsServed(fifoBatch, writesStarved) <==> writesStarved > 0
  {
    hide OnlyWrites, BusyWrites;
    if writesStarved > 0 {
      forall views, c | OnlyWrites(views, c, fifoBatch, writesStarved) ensures |views| <= 2 * Max(fifoBatch, 1) {
        WritesRunOut(views, c, fifoBatch, writesStarved);
      }
    } else {
      WritesGoOn(2 * Max(fifoBatch, 1) + 1, Counters(0, 0), fifoBatch);
    }
  }

  /** The counters after a run of dispatch calls. */
  function After(views: seq<View>, c: Counters, fifoBatch: nat, writesStarved: nat): Counters
    decreases |views|
  {
    if views == [] then c else After(views[1..], Select(views[0], c, fifoBatch, writesStarved).1, fifoBatch, writesStarved)
  }

  /** A batch goes on: while its direction has a next request, it is served until the batch is used up. */
  lemma {:induction false} BatchGoesOn(views: seq<View>, v: View, c: Counters, fifoBatch: nat, writesStarved: nat, write: bool)
    requires c.batching + |views| < fifoBatch
    requires forall u :: u in views ==> ViewOk(u) && (if write then u.nextWrite else u.nextRead)
    requires ViewOk(v) && if write then v.nextWrite else v.nextRead
    ensures Select(v, After(views, c, fifoBatch, writesStarved), fifoBatch, writesStarved).0 == Dispatch(write, true)
    decreases |views|
  {
    if views != [] {
      assert views[0] in views;
      BatchGoesOn(views[1..], v, Select(views[0], c, fifoBatch, writesStarved).1, fifoBatch, writesStarved, write);
    }
  }

  // ---------------------------------------------------------------- the lists

  /** One direction. */
  datatype Side = Side(sort: seq<Rq>, fifo: seq<Rq>, next: Option<Rq>)

  /** The two lists hold the same requests, except that `hole` may be missing from one of them. */
  ghost predicate SideOk(s: Side, pos: Keys, time: Keys, hole: Option<Rq>) {
    && Strict(s.sort, pos) && NoDup(s.fifo) && Ordered(s.fifo, time)
    && (forall r :: hole != Some(r) ==> (r in s.sort <==> r in s.fifo))
    && (s.next.Some? ==> s.next.value in s.fifo)
  }

  /** deadline_remove_request */
  function Removed(s: Side, r: Rq): Side {
    Side(Without(s.sort, r), Without(s.fifo, r), if s.next == Some(r) then Latter(s.sort, r) else s.next)
  }

  lemma RemovedOk(s: Side, pos: Keys, time: Keys, hole: Option<Rq>, r: Rq)
    requires SideOk(s, pos, time, hole) && hole != Some(r)
    requires hole.Some? && Latter(s.sort, r) == hole ==> hole.value in s.fifo
    ensures SideOk(Removed(s, r), pos, time, hole)
  {
    StrictWithout(s.sort, pos, r);
    StrictNoDup(s.sort, pos);
    OrderedWithout(s.fifo, time, r);
    LatterOther(s.sort, r);
    hide Strict, Ordered, NoDup, Latter;
  }

  /** One direction `d`, none of whose requests expires after `limit`. */
  ghost predicate DirOk(s: Side, d: nat, m: Requests, limit: int, hole: Option<Rq>) {
    && SideOk(s, m.pos, m.time, hole)
    && (forall r :: r in s.fifo || r in s.sort ==> r in m.dir && m.dir[r] == d)
    && (forall r :: r in s.fifo ==> m.time[r] <= limit)
  }

  /** What the requests say about themselves: start sector, expiry time and direction. */
  datatype Requests = Requests(pos: Keys, time: Keys, dir: map<Rq, nat>)

  lemma RemovedDirOk(s: Side, d: nat, m: Requests, limit: int, hole: Option<Rq>, r: Rq)
    requires DirOk(s, d, m, limit, hole) && hole != Some(r) && (hole.Some? ==> hole.value !in s.sort)
    ensures DirOk(Removed(s, r), d, m, limit, hole)
  {
    RemovedOk(s, m.pos, m.time, hole, r);
    hide SideOk, Latter;
  }

  lemma NextDirOk(s: Side, d: nat, m: Requests, limit: int, hole: Option<Rq>, next: Option<Rq>)
    requires DirOk(s, d, m, limit, hole) && (next.Some? ==> next.value in s.fifo)
    ensures DirOk(s.(next := next), d, m, limit, hole)
  {
    hide Strict, Ordered, NoDup;
  }

  /** deadline_move_request on the side of the request: it is taken off and the search goes on behind it. */
  function MovedFrom(s: Side, r: Rq): Side { Side(Without(s.sort, r), Without(s.fifo, r), Latter(s.sort, r)) }

  lemma MovedDirOk(s: Side, d: nat, m: Requests, limit: int, hole: Option<Rq>, r: Rq)
    requires DirOk(s, d, m, limit, hole) && r in s.sort && hole != Some(r) && (hole.Some? ==> hole.value !in s.sort)
    ensures DirOk(MovedFrom(s, r), d, m, limit, hole)
  {
    RemovedDirOk(s, d, m, limit, hole, r);
    LatterQueued(s, m.pos, m.time, hole, r);
    NextDirOk(Removed(s, r), d, m, limit, hole, Latter(s.sort, r));
    hide DirOk, Latter;
  }

  lemma LatterQueued(s: Side, pos: Keys, time: Keys, hole: Option<Rq>, r: Rq)
    requires SideOk(s, pos, time, hole) && (hole.Some? ==> hole.value !in s.sort)
    ensures Latter(s.sort, r).Some? ==> Latter(s.sort, r).value in Without(s.fifo, r)
  {
    StrictNoDup(s.sort, pos);
    LatterOther(s.sort, r);
    hide Strict, Ordered, NoDup, Latter;
  }

  lemma MovedIsRemoved(s: Side, d: nat, m: Requests, limit: int, hole: Option<Rq>, r: Rq)
    requires DirOk(s, d, m, limit, hole) && (hole.Some? ==> hole.value !in s.sort)
    ensures Removed(s.(next := Latter(s.sort, r)), r) == MovedFrom(s, r)
  {
    LatterQueued(s, m.pos, m.time, hole, r);
    hide DirOk, Latter;
  }

  /** A request that is in neither list may get a new position. */
  lemma RekeyDirOk(s: Side, d: nat, m: Requests, limit: int, r: Rq, p: int)
    requires DirOk(s, d, m, limit, Some(r)) && r !in s.sort
    ensures DirOk(s, d, m.(pos := m.pos[r := p]), limit, Some(r))
  {
    StrictRekey(s.sort, m.pos, r, p);
    hide Strict, Ordered, NoDup;
  }

  lemma InsertDirOk(s: Side, d: nat, m: Requests, limit: int, r: Rq)
    requires DirOk(s, d, m, limit, Some(r)) && r in m.pos && r in m.dir && m.dir[r] == d
    requires Known(s.sort, m.pos) && At(s.sort, m.pos, m.pos[r]) == None
    ensures DirOk(s.(sort := Insert(s.sort, m.pos, r)), d, m, limit, Some(r))
  {
    StrictInsert(s.sort, m.pos, r);
    hide Strict, Ordered, NoDup;
  }

  /** There is at most one alias. */
  lemma AliasGone(l: seq<Rq>, pos: Keys, key: int, r: Rq)
    requires Strict(l, pos) && At(l, pos, key) == Some(r)
    ensures Known(Without(l, r), pos) && At(Without(l, r), pos, key) == None
  {
    hide At, Without;
  }

  /** The side after deadline_add_rq_rb: an alias has been sent off, the request takes its place. */
  function Added(s: Side, pos: Keys, r: Rq): Side
    requires Known(s.sort, pos) && r in pos
  {
    var alias := At(s.sort, pos, pos[r]);
    var t := if alias.Some? then MovedFrom(s, alias.value) else s;
    t.(sort := Insert(t.sort, pos, r))
  }

  lemma LaterDirOk(s: Side, d: nat, m: Requests, limit: int, limit': int, hole: Option<Rq>)
    requires DirOk(s, d, m, limit, None) && limit <= limit'
    ensures DirOk(s, d, m, limit', hole)
  {
    hide Strict, Ordered, NoDup;
  }

  /** A request that is nowhere yet may be given a direction. */
  lemma NewDirOk(s: Side, d: nat, m: Requests, limit: int, r: Rq, p: int, e: nat)
    requires DirOk(s, d, m, limit, Some(r)) && r !in s.fifo && r !in s.sort
    ensures DirOk(s, d, m.(pos := m.pos[r := p], dir := m.dir[r := e]), limit, Some(r))
  {
    StrictRekey(s.sort, m.pos, r, p);
    hide Strict, Ordered, NoDup;
  }

  lemma CloseHole(s: Side, d: nat, m: Requests, limit: int, r: Rq)
    requires DirOk(s, d, m, limit, Some(r)) && (r in s.sort <==> r in s.fifo)
    ensures DirOk(s, d, m, limit, None)
  {
    hide Strict, Ordered, NoDup;
  }

  lemma AppendDirOk(s: Side, d: nat, m: Requests, limit: int, r: Rq)
    requires DirOk(s, d, m, limit, Some(r)) && r in s.sort && r !in s.fifo
    ensures DirOk(s.(fifo := s.fifo + [r]), d, m.(time := m.time[r := limit]), limit, None)
  {
    OrderedSnoc(s.fifo, m.time, r, limit);
    NoDupAppend(s.fifo, r);
    hide Strict, Ordered, NoDup;
  }

  lemma RetimeDirOk(s: Side, d: nat, m: Requests, limit: int, hole: Option<Rq>, r: Rq, t: int)
    requires DirOk(s, d, m, limit, hole) && r !in s.fifo
    ensures DirOk(s, d, m.(time := m.time[r := t]), limit, hole)
  {
    OrderedRekey(s.fifo, m.time, r, t);
    hide Strict, Ordered, NoDup;
  }

  /** deadline_merged_requests: the merged request takes the earlier of the two places. */
  lemma MergedDirOk(s: Side, d: nat, m: Requests, limit: int, req: Rq, next: Rq)
    requires DirOk(s, d, m, limit, None) && req in s.fifo && next in s.fifo && req != next
    ensures req in m.time && next in m.time
    ensures DirOk(s.(fifo := InsertAfter(Without(s.fifo, req), next, req)), d, m.(time := m.time[req := m.time[next]]), limit, None)
  {
    hide Strict, Ordered, NoDup, InsertAfter, Without, Latter;
    MergedFifo(s.fifo, m.time, req, next);
  }

  lemma MergedFifo(l: seq<Rq>, time: Keys, req: Rq, next: Rq)
    requires NoDup(l) && Ordered(l, time) && req in l && next in l && req != next
    ensures req in time && next in time
    ensures var t := InsertAfter(Without(l, req), next, req);
            NoDup(t) && Ordered(t, time[req := time[next]]) && forall r :: r in t <==> r in l
  {
    assert Known(l, time);
    OrderedWithout(l, time, req);
    OrderedAfter(Without(l, req), time, next, req);
    NoDupAfter(Without(l, req), next, req);
    hide Ordered, NoDup, InsertAfter, Without;
  }

  // ---------------------------------------------------------------- the scan in sector order

  /** The last dispatch: its direction and position, and the requests that were sorted in since. */
  datatype Scan = Scan(dir: nat, pos: int, young: set<Rq>)

  /** A queued request that the scan still has in front of it. */
  predicate Ahead(s: Side, pos: Keys, c: Scan, r: Rq) { r in s.sort && r !in c.young && r in pos && pos[r] > c.pos }

  /** The next request is above the last one, and nothing that was there when that was dispatched lies between. */
  ghost predicate ScanOk(s: Side, pos: Keys, c: Scan) {
    && (s.next.Some? ==> s.next.value in pos && pos[s.next.value] > c.pos)
    && forall r :: Ahead(s, pos, c, r) ==> s.next.Some? && pos[s.next.value] <= pos[r]
  }

  ghost predicate Scanning(sides: seq<Side>, pos: Keys, scan: Option<Scan>) {
    scan.Some? ==>
      && |sides| == 2 && scan.value.dir < 2
      && ScanOk(sides[scan.value.dir], pos, scan.value) && sides[1 - scan.value.dir].next == None
  }

  lemma ScanMoved(s: Side, pos: Keys, d: nat, r: Rq)
    requires Strict(s.sort, pos) && r in s.sort
    ensures ScanOk(MovedFrom(s, r), pos, Scan(d, pos[r], {}))
  {
    LatterLeast(s.sort, pos, r);
    hide Strict, Latter, Without;
  }

  lemma ScanRemoved(s: Side, pos: Keys, c: Scan, r: Rq)
    requires ScanOk(s, pos, c) && Strict(s.sort, pos) && (s.next == Some(r) ==> r in s.sort)
    ensures ScanOk(Removed(s, r), pos, c)
  {
    if r in s.sort { LatterLeast(s.sort, pos, r); }
    hide Strict, Latter, Without;
    var t := Removed(s, r);
    forall x | Ahead(t, pos, c, x) ensures t.next.Some? && pos[t.next.value] <= pos[x] {
      assert Ahead(s, pos, c, x);
      if s.next == Some(r) { DifferentKeys(s.sort, pos, r, x); }
    }
  }

  lemma DifferentKeys(l: seq<Rq>, pos: Keys, r: Rq, x: Rq)
    requires Strict(l, pos) && r in l && x in l && r != x
    ensures pos[r] != pos[x]
  {
    var i :| 0 <= i < |l| && l[i] == r;
    var j :| 0 <= j < |l| && l[j] == x;
    assert i < j || j < i;
  }

  /** A request that is sorted in is young. */
  lemma ScanInserted(s: Side, pos: Keys, c: Scan, r: Rq)
    requires ScanOk(s, pos, c) && Known(s.sort, pos) && r in pos
    ensures ScanOk(s.(sort := Insert(s.sort, pos, r)), pos, c.(young := c.young + {r}))
  {
    hide Insert;
    var t, c' := s.(sort := Insert(s.sort, pos, r)), c.(young := c.young + {r});
    forall x | Ahead(t, pos, c', x) ensures t.next.Some? && pos[t.next.value] <= pos[x] {
      assert Ahead(s, pos, c, x);
    }
  }

  /** A request off the tree gets a new position; if it is the next one, it must stay above the last one. */
  lemma ScanRekeyed(s: Side, pos: Keys, c: Scan, r: Rq, p: int)
    requires ScanOk(s, pos, c) && (s.next == Some(r) ==> c.pos < p <= pos[r])
    ensures ScanOk(s.(sort := Without(s.sort, r)), pos[r := p], c)
  {
    hide Without;
    var t, pos' := s.(sort := Without(s.sort, r)), pos[r := p];
    forall x | Ahead(t, pos', c, x) ensures t.next.Some? && pos'[t.next.value] <= pos'[x] {
      assert Ahead(s, pos, c, x);
    }
  }

  lemma Younger(sides: seq<Side>, sides': seq<Side>, pos: Keys, c: Scan, d: nat, r: Rq)
    requires Scanning(sides, pos, Some(c)) && d < 2 && Known(sides[d].sort, pos) && r in pos
    requires sides' == sides[d := sides[d].(sort := Insert(sides[d].sort, pos, r))]
    ensures Scanning(sides', pos, Some(c.(young := c.young + {r})))
  {
    if c.dir == d {
      ScanInserted(sides[d], pos, c, r);
    } else {
      ScanYounger(sides[c.dir], pos, c, r);
    }
    hide ScanOk, Insert;
  }

  lemma ScanYounger(s: Side, pos: Keys, c: Scan, r: Rq)
    requires ScanOk(s, pos, c)
    ensures ScanOk(s, pos, c.(young := c.young + {r}))
  {
    var c' := c.(young := c.young + {r});
    forall x | Ahead(s, pos, c', x) ensures s.next.Some? && pos[s.next.value] <= pos[x] {
      assert Ahead(s, pos, c, x);
    }
  }

  /** A request that is on neither list may get a position. */
  lemma ScanNew(sides: seq<Side>, pos: Keys, scan: Option<Scan>, r: Rq, p: int)
    requires Scanning(sides, pos, scan) && |sides| == 2
    requires forall d :: 0 <= d < 2 ==> r !in sides[d].sort && sides[d].next != Some(r)
    ensures Scanning(sides, pos[r := p], scan)
  {
    if scan.Some? && scan.value.dir < 2 {
      var s, c, pos' := sides[scan.value.dir], scan.value, pos[r := p];
      forall x | Ahead(s, pos', c, x) ensures s.next.Some? && pos'[s.next.value] <= pos'[x] {
        assert Ahead(s, pos, c, x);
      }
    }
  }

  /** What is known of the scan when a request of direction `d` is to be sorted in again at `p`. */
  function AfterFront(s: Side, pos: Keys, scan: Option<Scan>, d: nat, r: Rq, p: int): Option<Scan> {
    if scan.Some? && scan.value.dir == d && s.next == Some(r) && !(r in pos && scan.value.pos < p <= pos[r]) then None else scan
  }

  lemma ScanFront(sides: seq<Side>, pos: Keys, scan: Option<Scan>, d: nat, r: Rq, p: int)
    requires Scanning(sides, pos, scan) && |sides| == 2 && d < 2 && r !in sides[1 - d].sort && sides[1 - d].next != Some(r)
    ensures Scanning(sides[d := sides[d].(sort := Without(sides[d].sort, r))], pos[r := p], AfterFront(sides[d], pos, scan, d, r, p))
  {
    hide Without;
    var scan' := AfterFront(sides[d], pos, scan, d, r, p);
    if scan'.Some? {
      var c := scan'.value;
      if c.dir == d {
        ScanRekeyed(sides[d], pos, c, r, p);
      } else {
        OtherRekeyed(sides[c.dir], pos, c, r, p);
      }
    }
    hide ScanOk;
  }

  lemma OtherRekeyed(s: Side, pos: Keys, c: Scan, r: Rq, p: int)
    requires ScanOk(s, pos, c) && r !in s.sort && s.next != Some(r)
    ensures ScanOk(s, pos[r := p], c)
  {
    var pos' := pos[r := p];
    forall x | Ahead(s, pos', c, x) ensures s.next.Some? && pos'[s.next.value] <= pos'[x] {
      assert Ahead(s, pos, c, x);
    }
  }

  /** Removing a request, and moving others in the fifo, leaves the scan in order. */
  lemma ScanMerged(sides: seq<Side>, pos: Keys, scan: Option<Scan>, d: nat, t: Side, r: Rq)
    requires Scanning(sides, pos, scan) && |sides| == 2 && d < 2 && Strict(sides[d].sort, pos) && r in sides[d].sort
    requires t.sort == sides[d].sort && t.next == sides[d].next
    ensures Scanning(sides[d := Removed(t, r)], pos, scan)
  {
    hide Strict, Removed;
    if scan.Some? && scan.value.dir == d {
      ScanSame(sides[d], t, pos, scan.value);
      ScanRemoved(t, pos, scan.value, r);
    } else if scan.Some? {
      StaysNone(t, r);
    }
    hide ScanOk;
  }

  lemma ScanFifo(sides: seq<Side>, pos: Keys, scan: Option<Scan>, d: nat, fifo: seq<Rq>)
    requires Scanning(sides, pos, scan) && |sides| == 2 && d < 2
    ensures Scanning(sides[d := sides[d].(fifo := fifo)], pos, scan)
  {
    if scan.Some? && scan.value.dir == d { ScanSame(sides[d], sides[d].(fifo := fifo), pos, scan.value); }
    hide ScanOk;
  }

  lemma StaysNone(t: Side, r: Rq)
    ensures t.next == None ==> Removed(t, r).next == None
  {
  }

  lemma ScanSame(s: Side, t: Side, pos: Keys, c: Scan)
    requires ScanOk(s, pos, c) && t.sort == s.sort && t.next == s.next
    ensures ScanOk(t, pos, c)
  {
    forall x | Ahead(t, pos, c, x) ensures t.next.Some? && pos[t.next.value] <= pos[x] {
      assert Ahead(s, pos, c, x);
    }
  }

  /** The request deadline_dispatch_requests picks in the chosen direction. */
  function Chosen(s: Side, continued: bool, time: Keys, jiffies: int): Rq
    requires s.fifo != [] && s.fifo[0] in time
  {
    if s.next.Some? && (continued || jiffies <= time[s.fifo[0]]) then s.next.value else s.fifo[0]
  }

  // ---------------------------------------------------------------- what is dispatched

  /** Some request of the fifo has expired. */
  ghost predicate Expired(fifo: seq<Rq>, time: Keys, jiffies: int) {
    exists r :: r in fifo && r in time && time[r] < jiffies
  }

  /** The request of the fifo that expires first. */
  ghost predicate Oldest(fifo: seq<Rq>, time: Keys, x: Rq) {
    x in fifo && x in time && forall r :: r in fifo && r in time ==> time[x] <= time[r]
  }

  /** Of what the scan had in front of it, the request that comes first. */
  ghost predicate Onward(s: Side, pos: Keys, c: Scan, x: Rq) {
    x in pos && pos[x] > c.pos && forall r :: Ahead(s, pos, c, r) ==> pos[x] <= pos[r]
  }

  lemma HeadIsOldest(fifo: seq<Rq>, time: Keys)
    requires Ordered(fifo, time) && fifo != []
    ensures Oldest(fifo, time, fifo[0])
  {
  }

  /** A new batch starts with a request that has expired, if there is one, and with the oldest then. */
  lemma ChosenExpired(s: Side, time: Keys, jiffies: int)
    requires Ordered(s.fifo, time) && s.fifo != [] && s.fifo[0] in time && Expired(s.fifo, time, jiffies)
    ensures Oldest(s.fifo, time, Chosen(s, false, time, jiffies))
  {
    HeadIsOldest(s.fifo, time);
    hide Ordered;
  }

  lemma NotExpired(s: Side, time: Keys, jiffies: int)
    requires s.fifo != [] && s.fifo[0] in time && !Expired(s.fifo, time, jiffies)
    ensures jiffies <= time[s.fifo[0]]
  {
    assert s.fifo[0] in s.fifo;
  }

  /** Otherwise, and within a batch, the scan goes on, and starts again from the oldest request when it is through. */
  lemma ChosenOnward(s: Side, continued: bool, time: Keys, jiffies: int, pos: Keys, c: Scan)
    requires Ordered(s.fifo, time) && s.fifo != [] && s.fifo[0] in time && ScanOk(s, pos, c)
    requires continued || !Expired(s.fifo, time, jiffies)
    ensures var x := Chosen(s, continued, time, jiffies);
            Onward(s, pos, c, x) || (Oldest(s.fifo, time, x) && forall r :: !Ahead(s, pos, c, r))
  {
    if !continued { NotExpired(s, time, jiffies); }
    HeadIsOldest(s.fifo, time);
    hide Ordered;
  }

  /** A direction that was not served last starts from its oldest request. */
  lemma ChosenAfterTurn(s: Side, continued: bool, time: Keys, jiffies: int)
    requires Ordered(s.fifo, time) && s.fifo != [] && s.fifo[0] in time && s.next == None
    ensures Oldest(s.fifo, time, Chosen(s, continued, time, jiffies))
  {
    HeadIsOldest(s.fifo, time);
    hide Ordered;
  }

  /** A request that is sorted in behind the last one waits for the next scan: 2 arrives between 1 and 3, and 3 goes first. */
  lemma LateArrivalWaits()
    ensures var pos: Keys := map[1 := 10, 2 := 20, 3 := 30];
            var s := Side([1, 3], [1, 3], None);
            var t := MovedFrom(s, 1);
            && Known(t.sort, pos)
            && var u := Added(t, pos, 2);
            u.sort == [2, 3] && u.next == Some(3) && pos[1] < pos[2] < pos[3]
  {
    var pos: Keys := map[1 := 10, 2 := 20, 3 := 30];
    var s := Side([1, 3], [1, 3], None);
    assert [1, 3][1..] == [3] && [3][1..] == [];
    assert MovedFrom(s, 1) == Side([3], [3], Some(3));
    assert At([3], pos, 20) == None;
    assert Insert([3], pos, 2) == [2, 3];
  }

  class DeadlineData {
    const expire: seq<nat>
    const fifoBatch: nat
    const writesStarved: nat
    var sides: seq<Side>
    var m: Requests
    var batching: nat
    var starved: nat
    /** The dispatch queue of the elevator, and its count of sorted requests. */
    var dispatched: seq<Rq>
    var nrSorted: int
    ghost var now: int
    /** The reads in a row that went past a waiting write. */
    ghost var row: nat
    /** Where the scan is; nothing is known before the first dispatch, and after the next request was moved below the last. */
    ghost var scan: Option<Scan>

    ghost predicate Ok(hole: Option<Rq>)
      reads this
    {
      && |sides| == 2 && |expire| == 2
      && DirOk(sides[0], 0, m, now + expire[0], hole) && DirOk(sides[1], 1, m, now + expire[1], hole)
      && !(sides[0].next.Some? && sides[1].next.Some?)
    }

    ghost function Count(): int
      requires |sides| == 2
      reads this
    {
      |sides[0].fifo| + |sides[1].fifo|
    }

    ghost predicate Valid()
      reads this
    {
      Ok(None) && nrSorted == Count() && Scanning(sides, m.pos, scan)
      && Patience(Counters(batching, starved), fifoBatch, writesStarved) + row <= Bound(fifoBatch, writesStarved)
    }

    constructor (expire: seq<nat>, fifoBatch: nat, writesStarved: nat, now: int)
      requires |expire| == 2
      ensures Valid() && dispatched == [] && nrSorted == 0
    {
      this.expire, this.fifoBatch, this.writesStarved, this.now := expire, fifoBatch, writesStarved, now;
      sides, m := [Side([], [], None), Side([], [], None)], Requests(map[], map[], map[]);
      batching, starved, dispatched, nrSorted, row, scan := 0, 0, [], 0, 0, None;
      PatienceBounded(Counters(0, 0), fifoBatch, writesStarved);
    }

    /** deadline_remove_request */
    method RemoveRequest(r: Rq, ghost hole: Option<Rq>)
      requires Ok(hole) && r in m.dir && m.dir[r] < 2 && hole != Some(r)
      requires hole.Some? ==> hole.value !in sides[0].sort && hole.value !in sides[1].sort
      modifies this`sides
      ensures Ok(hole) && sides == old(sides)[m.dir[r] := Removed(old(sides)[m.dir[r]], r)]
    {
      hide DirOk, Latter, Without;
      var d := m.dir[r];
      RemovedDirOk(sides[d], d, m, now + expire[d], hole, r);
      var s := sides[d];
      s := s.(fifo := Without(s.fifo, r));
      if s.next == Some(r) {
        s := s.(next := Latter(s.sort, r));
      }
      s := s.(sort := Without(s.sort, r));
      sides := sides[d := s];
    }

    /** deadline_move_request with deadline_move_to_dispatch and elv_dispatch_add_tail. */
    method MoveRequest(r: Rq, ghost hole: Option<Rq>)
      requires Ok(hole) && r in m.dir && m.dir[r] < 2 && r in sides[m.dir[r]].sort && hole != Some(r)
      requires hole.Some? ==> hole.value !in sides[0].sort && hole.value !in sides[1].sort
      modifies this`sides, this`dispatched, this`nrSorted, this`scan
      ensures Ok(hole) && Scanning(sides, m.pos, scan) && r in m.pos && scan == Some(Scan(m.dir[r], m.pos[r], {}))
      ensures var d := m.dir[r]; sides[d] == MovedFrom(old(sides)[d], r) && sides[1 - d] == old(sides)[1 - d].(next := None)
      ensures dispatched == old(dispatched) + [r] && nrSorted == old(nrSorted) - 1
    {
      hide DirOk, SideOk, Latter, Without;
      var d := m.dir[r];
      MovedDirOk(sides[d], d, m, now + expire[d], hole, r);
      NextDirOk(sides[1 - d], 1 - d, m, now + expire[1 - d], hole, None);
      MovedIsRemoved(sides[d], d, m, now + expire[d], hole, r);
      SortStrict(sides[d], d, m, now + expire[d], hole);
      ScanMoved(sides[d], m.pos, d, r);
      hide ScanOk, Known, Strict;
      ghost var p := m.pos[r];
      sides := [sides[0].(next := None), sides[1].(next := None)];
      sides := sides[d := sides[d].(next := Latter(sides[d].sort, r))];
      // the request itself is not the one behind it, so removing it leaves the pointer alone
      sides := sides[d := Removed(sides[d], r)];
      scan := Some(Scan(d, p, {}));
      dispatched := dispatched + [r];
      nrSorted := nrSorted - 1;
    }

    /** deadline_add_rq_rb: the loop over aliases sends off at most one request. */
    method AddRqRb(r: Rq)
      requires Ok(Some(r)) && r in m.pos && r in m.dir && m.dir[r] < 2
      requires r !in sides[0].sort && r !in sides[1].sort
      requires Known(sides[m.dir[r]].sort, m.pos) && Scanning(sides, m.pos, scan)
      modifies this`sides, this`dispatched, this`nrSorted, this`scan
      ensures Ok(Some(r)) && Scanning(sides, m.pos, scan)
      ensures var alias := At(old(sides)[m.dir[r]].sort, m.pos, m.pos[r]);
              scan == if alias.Some? then Some(Scan(m.dir[r], m.pos[r], {r}))
                      else if old(scan).Some? then Some(old(scan).value.(young := old(scan).value.young + {r})) else None
      ensures var d := m.dir[r];
              var alias := At(old(sides)[d].sort, m.pos, m.pos[r]);
              && sides[d] == Added(old(sides)[d], m.pos, r)
              && sides[1 - d] == (if alias.Some? then old(sides)[1 - d].(next := None) else old(sides)[1 - d])
              && dispatched == old(dispatched) + (if alias.Some? then [alias.value] else [])
              && nrSorted == old(nrSorted) - (if alias.Some? then 1 else 0)
    {
      hide DirOk, SideOk, At, Insert, Without, Latter, Strict, ScanOk;
      var d := m.dir[r];
      SortStrict(sides[d], d, m, now + expire[d], Some(r));
      var alias := At(sides[d].sort, m.pos, m.pos[r]);
      ghost var first, moves := alias, 0;
      while alias.Some?
        invariant Ok(Some(r)) && 0 <= moves <= 1 && Known(sides[d].sort, m.pos)
        invariant alias == At(sides[d].sort, m.pos, m.pos[r])
        invariant Scanning(sides, m.pos, scan)
        invariant moves == 0 ==> sides == old(sides) && dispatched == old(dispatched) && nrSorted == old(nrSorted) && scan == old(scan)
        invariant moves == 1 ==>
                    && alias.None? && first.Some? && nrSorted == old(nrSorted) - 1 && scan == Some(Scan(d, m.pos[r], {}))
                    && dispatched == old(dispatched) + [first.value]
                    && sides[d] == MovedFrom(old(sides)[d], first.value) && sides[1 - d] == old(sides)[1 - d].(next := None)
        decreases 1 - moves
      {
        AliasGone(sides[d].sort, m.pos, m.pos[r], alias.value);
        AliasDir(sides[d], d, m, now + expire[d], Some(r), alias.value);
        MoveRequest(alias.value, Some(r));
        alias, moves := At(sides[d].sort, m.pos, m.pos[r]), moves + 1;
      }
      SortStrict(sides[d], d, m, now + expire[d], Some(r));
      InsertDirOk(sides[d], d, m, now + expire[d], r);
      ghost var before := sides;
      sides := sides[d := sides[d].(sort := Insert(sides[d].sort, m.pos, r))];
      if scan.Some? {
        Younger(before, sides, m.pos, scan.value, d, r);
        assert {} + {r} == {r};
        scan := Some(scan.value.(young := scan.value.young + {r}));
      }
    }

    /** The sorted insertion of __elv_add_request, and deadline_add_request. */
    method AddRequest(r: Rq, p: int, d: nat, jiffies: int)
      requires Valid() && d < 2 && jiffies >= now && r !in sides[0].fifo && r !in sides[1].fifo
      modifies this`sides, this`m, this`dispatched, this`nrSorted, this`now, this`scan
      ensures Valid() && m.pos == old(m.pos)[r := p] && m.time == old(m.time)[r := jiffies + expire[d]]
      ensures Known(old(sides)[d].sort, m.pos)
      ensures var s := Added(old(sides)[d], m.pos, r);
              var alias := At(old(sides)[d].sort, m.pos, p);
              && sides[d] == s.(fifo := s.fifo + [r])
              && sides[1 - d] == (if alias.Some? then old(sides)[1 - d].(next := None) else old(sides)[1 - d])
              && dispatched == old(dispatched) + if alias.Some? then [alias.value] else []
    {
      hide DirOk, SideOk, At, Insert, Without, Latter, Strict, Known, Scanning, Patience, Bound;
      NewReady(sides, m, now, jiffies, expire, scan, r, p, d);
      nrSorted := nrSorted + 1;
      m, now := m.(pos := m.pos[r := p], dir := m.dir[r := d]), jiffies;
      AddedCount(sides[d], d, m, now + expire[d], r);
      AddRqRb(r);
      AppendDirOk(sides[d], d, m, now + expire[d], r);
      CloseHole(sides[1 - d], 1 - d, m, now + expire[1 - d], r);
      RetimeDirOk(sides[1 - d], 1 - d, m, now + expire[1 - d], None, r, now + expire[d]);
      ScanFifo(sides, m.pos, scan, d, sides[d].fifo + [r]);
      m := m.(time := m.time[r := jiffies + expire[d]]);
      sides := sides[d := sides[d].(fifo := sides[d].fifo + [r])];
    }

    /** deadline_merged_request after a front merge: the request now starts at `p` and is sorted in again. */
    method MergedFront(r: Rq, p: int)
      requires Valid() && r in m.dir && m.dir[r] < 2 && r in sides[m.dir[r]].fifo
      modifies this`sides, this`m, this`dispatched, this`nrSorted, this`scan
      ensures Valid() && m == old(m).(pos := old(m.pos)[r := p])
      ensures var d := m.dir[r];
              var s := old(sides)[d].(sort := Without(old(sides)[d].sort, r));
              && Known(s.sort, m.pos) && sides[d] == Added(s, m.pos, r) && r in sides[d].fifo
              && var alias := At(s.sort, m.pos, p);
              && sides[1 - d] == (if alias.Some? then old(sides)[1 - d].(next := None) else old(sides)[1 - d])
              && dispatched == old(dispatched) + if alias.Some? then [alias.value] else []
    {
      hide DirOk, SideOk, At, Insert, Without, Latter, Strict, Known, Scanning, Patience, Bound;
      var d := m.dir[r];
      FrontReady(sides, m, now + expire[0], now + expire[1], scan, r, p);
      scan := AfterFront(sides[d], m.pos, scan, d, r, p);
      sides := sides[d := sides[d].(sort := Without(sides[d].sort, r))];
      m := m.(pos := m.pos[r := p]);
      AddedCount(sides[d], d, m, now + expire[d], r);
      AddRqRb(r);
      CloseHole(sides[d], d, m, now + expire[d], r);
      CloseHole(sides[1 - d], 1 - d, m, now + expire[1 - d], r);
    }

    /** deadline_merged_requests and elv_merge_requests: `next` is swallowed by `req`. */
    method MergedRequests(req: Rq, next: Rq)
      requires Valid() && req in m.dir && next in m.dir && m.dir[req] == m.dir[next] < 2 && req != next
      requires req in sides[m.dir[req]].fifo && next in sides[m.dir[next]].fifo
      modifies this`sides, this`m, this`nrSorted
      ensures Valid() && m.pos == old(m.pos) && m.dir == old(m.dir)
      ensures req in old(m.time) && next in old(m.time)
      ensures m.time == old(m.time)[req := if old(m.time)[next] < old(m.time)[req] then old(m.time)[next] else old(m.time)[req]]
      ensures var d := m.dir[req]; forall r :: r in sides[d].fifo <==> r in old(sides)[d].fifo && r != next
      ensures var d, s := m.dir[req], old(sides)[m.dir[req]];
              var t := if old(m.time)[next] < old(m.time)[req] then s.(fifo := InsertAfter(Without(s.fifo, req), next, req)) else s;
              sides == old(sides)[d := Removed(t, next)]
      ensures nrSorted == old(nrSorted) - 1
    {
      hide DirOk, SideOk, InsertAfter, Without, Latter, Scanning, Patience, Bound;
      var d := m.dir[req];
      ghost var before := sides;
      SortStrict(sides[d], d, m, now + expire[d], None);
      QueuedSorted(sides[d], d, m, now + expire[d], next);
      ScanMerged(sides, m.pos, scan, d, sides[d], next);
      ScanMerged(sides, m.pos, scan, d, sides[d].(fifo := InsertAfter(Without(sides[d].fifo, req), next, req)), next);
      MergedDirOk(sides[d], d, m, now + expire[d], req, next);
      OtherFifo(sides[1 - d], 1 - d, m, now + expire[1 - d], req, next);
      FifoCount(sides[d], d, m, now + expire[d], req, next);
      if m.time[next] < m.time[req] {
        RetimeDirOk(sides[1 - d], 1 - d, m, now + expire[1 - d], None, req, m.time[next]);
        sides := sides[d := sides[d].(fifo := InsertAfter(Without(sides[d].fifo, req), next, req))];
        m := m.(time := m.time[req := m.time[next]]);
      }
      ghost var t := sides[d];
      RemoveRequest(next, None);
      assert sides == before[d := Removed(t, next)];
      nrSorted := nrSorted - 1;
    }

    function Sees(): View
      requires |sides| == 2
      reads this
    {
      View(sides[0].fifo != [], sides[1].fifo != [], sides[0].next.Some?, sides[1].next.Some?)
    }

    /** What a dispatch call sees is always in order, so the bound on waiting writes applies to every run. */
    lemma SeesOk()
      requires Valid()
      ensures ViewOk(Sees())
    {
      NextQueued(sides[0], 0, m, now + expire[0]);
      NextQueued(sides[1], 1, m, now + expire[1]);
    }

    /** The first part of deadline_dispatch_requests, up to the label dispatch_request: which request goes next. */
    method Choose(jiffies: int) returns (choice: Choice, r: Rq)
      requires Valid()
      modifies this`batching, this`starved
      ensures (choice, Counters(batching, starved)) ==
              Select(old(Sees()), Counters(old(batching), old(starved)), fifoBatch, writesStarved)
      ensures choice.Dispatch? ==>
                var d := if choice.write then 1 else 0;
                && sides[d].fifo != [] && sides[d].fifo[0] in m.time
                && r == Chosen(sides[d], choice.continued, m.time, jiffies) && r in sides[d].fifo
                && (!choice.continued && Expired(sides[d].fifo, m.time, jiffies) ==> Oldest(sides[d].fifo, m.time, r))
    {
      hide DirOk, SideOk, Patience, Bound, Expired, Oldest, ScanOk, Onward;
      var reads', writes' := sides[0].fifo != [], sides[1].fifo != [];
      NextQueued(sides[0], 0, m, now + expire[0]);
      NextQueued(sides[1], 1, m, now + expire[1]);
      var d;
      if (sides[1].next.Some? || sides[0].next.Some?) && batching < fifoBatch {
        d := if sides[1].next.Some? then 1 else 0;
        r := sides[d].next.value;
        choice := Dispatch(d == 1, true);
      } else {
        if reads' {
          d := 0;
          if writes' {
            if starved >= writesStarved {
              d := 1;
            }
            starved := starved + 1;
          }
        } else if writes' {
          d := 1;
        } else {
          return Nothing, 0;
        }
        if d == 1 {
          starved := 0;
        }
        var head := sides[d].fifo[0];
        if jiffies > m.time[head] || sides[d].next.None? {
          r := head;
        } else {
          r := sides[d].next.value;
        }
        RightChoice(sides[d], d, m, now + expire[d], false, jiffies, scan);
        batching := 0;
        choice := Dispatch(d == 1, false);
      }
      batching := batching + 1;
    }

    /** deadline_dispatch_requests */
    method DispatchRequests(jiffies: int) returns (choice: Choice)
      requires Valid()
      modifies this`sides, this`batching, this`starved, this`dispatched, this`nrSorted, this`row, this`scan
      ensures Valid()
      ensures (choice, Counters(batching, starved)) ==
              Select(old(Sees()), Counters(old(batching), old(starved)), fifoBatch, writesStarved)
      ensures row == NextRow(choice, old(Sees()), old(row))
      ensures choice.Nothing? <==> old(nrSorted) == 0
      ensures choice.Nothing? ==> sides == old(sides) && dispatched == old(dispatched) && nrSorted == old(nrSorted)
      ensures choice.Dispatch? ==> nrSorted == old(nrSorted) - 1
      ensures choice.Dispatch? ==>
                var d := if choice.write then 1 else 0;
                && old(sides)[d].fifo != [] && old(sides)[d].fifo[0] in m.time
                && var r := Chosen(old(sides)[d], choice.continued, m.time, jiffies);
                && r in old(sides)[d].fifo && dispatched == old(dispatched) + [r]
                && sides[d] == MovedFrom(old(sides)[d], r) && sides[1 - d] == old(sides)[1 - d].(next := None)
      // outside a batch an expired request comes first, and the one that expired first
      ensures choice.Dispatch? && !choice.continued ==>
                var s := old(sides)[if choice.write then 1 else 0];
                Expired(s.fifo, m.time, jiffies) ==> Oldest(s.fifo, m.time, dispatched[|dispatched| - 1])
      // a direction that was not served last starts from its oldest request
      ensures choice.Dispatch? && old(scan).Some? && old(scan).value.dir != (if choice.write then 1 else 0) ==>
                Oldest(old(sides)[if choice.write then 1 else 0].fifo, m.time, dispatched[|dispatched| - 1])
      // one that was goes on in sector order from the last dispatch
      ensures choice.Dispatch? && old(scan).Some? && old(scan).value.dir == (if choice.write then 1 else 0) ==>
                var s, x := old(sides)[old(scan).value.dir], dispatched[|dispatched| - 1];
                choice.continued || !Expired(s.fifo, m.time, jiffies) ==>
                  || Onward(s, m.pos, old(scan).value, x)
                  || (Oldest(s.fifo, m.time, x) && forall r :: !Ahead(s, m.pos, old(scan).value, r))
      ensures choice.Dispatch? ==>
                var x := dispatched[|dispatched| - 1];
                x in m.pos && scan == Some(Scan(if choice.write then 1 else 0, m.pos[x], {}))
      ensures choice.Nothing? ==> scan == old(scan)
    {
      hide DirOk, SideOk, Without, Latter, Patience, Bound, MovedFrom, Chosen, Select, Expired, Oldest, Onward, ScanOk;
      ghost var seen := Sees();
      SeesOk();
      SelectsIfAny(seen, Counters(batching, starved), fifoBatch, writesStarved);
      RowKept(seen, Counters(batching, starved), fifoBatch, writesStarved, row);
      var r;
      choice, r := Choose(jiffies);
      row := NextRow(choice, seen, row);
      if choice.Nothing? {
        return;
      }
      var d := if choice.write then 1 else 0;
      QueuedSorted(sides[d], d, m, now + expire[d], r);
      RightChoice(sides[d], d, m, now + expire[d], choice.continued, jiffies, scan);
      MoveRequest(r, None);
    }

    /** elv_drain_elevator: every queued request is dispatched exactly once, and nothing is left. */
    method Drain(jiffies: int)
      requires Valid()
      modifies this`sides, this`batching, this`starved, this`dispatched, this`nrSorted, this`row, this`scan
      ensures Valid() && nrSorted == 0 && sides[0].fifo == [] && sides[1].fifo == []
      ensures old(dispatched) <= dispatched
      ensures var l := dispatched[|old(dispatched)|..];
              NoDup(l) && forall r :: r in l <==> r in old(sides)[0].fifo || r in old(sides)[1].fifo
    {
      hide DirOk, SideOk, Without, Latter, NoDup, Chosen;
      ghost var l: seq<Rq> := [];
      NoDupEmpty<Rq>();
      var more := true;
      while more
        invariant Valid() && |old(sides)| == 2 && dispatched == old(dispatched) + l && Draining(old(sides), sides, l)
        invariant !more ==> nrSorted == 0
        decreases more, nrSorted
      {
        ghost var before := sides;
        var choice := DispatchRequests(jiffies);
        more := choice.Dispatch?;
        if more {
          ghost var d, r := if choice.write then 1 else 0, dispatched[|dispatched| - 1];
          OneSideOnly(before, m, now + expire[0], now + expire[1], d, r);
          DrainStep(old(sides), before, sides, l, d, r);
          l := l + [r];
        }
      }
      assert dispatched[|old(dispatched)|..] == l;
    }
  }

  /** The requests of `from` are those on the fifos and those in `l`, each in one place. */
  ghost predicate Draining(from: seq<Side>, to: seq<Side>, l: seq<Rq>)
    requires |from| == 2 && |to| == 2
  {
    && NoDup(l)
    && (forall r :: r in l || r in to[0].fifo || r in to[1].fifo <==> r in from[0].fifo || r in from[1].fifo)
    && (forall r :: r in l ==> r !in to[0].fifo && r !in to[1].fifo)
  }

  lemma OneSideOnly(sides: seq<Side>, m: Requests, limit0: int, limit1: int, d: nat, r: Rq)
    requires |sides| == 2 && DirOk(sides[0], 0, m, limit0, None) && DirOk(sides[1], 1, m, limit1, None)
    requires d < 2 && r in sides[d].fifo
    ensures r !in sides[1 - d].fifo
  {
  }

  lemma DrainStep(from: seq<Side>, before: seq<Side>, after: seq<Side>, l: seq<Rq>, d: nat, r: Rq)
    requires |from| == 2 && |before| == 2 && |after| == 2 && Draining(from, before, l) && d < 2
    requires r in before[d].fifo && r !in before[1 - d].fifo
    requires after[d].fifo == Without(before[d].fifo, r) && after[1 - d].fifo == before[1 - d].fifo
    ensures Draining(from, after, l + [r])
  {
    NoDupAppend(l, r);
    hide NoDup, Without;
    var t := l + [r];
    forall x ensures x in t || x in after[0].fifo || x in after[1].fifo <==> x in from[0].fifo || x in from[1].fifo {
      assert x in t <==> x in l || x == r;
    }
  }

  lemma NotSorted(s: Side, d: nat, m: Requests, limit: int, r: Rq)
    requires DirOk(s, d, m, limit, None) && r !in s.fifo
    ensures r !in s.sort
  {
  }

  /** The request itself is sorted in, and an alias leaves both lists. */
  lemma AddedCount(s: Side, d: nat, m: Requests, limit: int, r: Rq)
    requires DirOk(s, d, m, limit, Some(r)) && Known(s.sort, m.pos) && r in m.pos && r !in s.sort
    ensures var t, alias := Added(s, m.pos, r), At(s.sort, m.pos, m.pos[r]);
            && r in t.sort && (r in t.fifo <==> r in s.fifo)
            && |t.fifo| == |s.fifo| - if alias.Some? then 1 else 0
  {
    hide At, Insert, Latter, Strict, Ordered, NoDup;
  }

  lemma SortStrict(s: Side, d: nat, m: Requests, limit: int, hole: Option<Rq>)
    requires DirOk(s, d, m, limit, hole)
    ensures Strict(s.sort, m.pos) && Known(s.sort, m.pos)
  {
  }

  lemma AliasDir(s: Side, d: nat, m: Requests, limit: int, hole: Option<Rq>, r: Rq)
    requires DirOk(s, d, m, limit, hole) && r in s.sort
    ensures r in m.dir && m.dir[r] == d
  {
  }

  lemma TakeOut(s: Side, d: nat, m: Requests, limit: int, r: Rq)
    requires DirOk(s, d, m, limit, None)
    ensures DirOk(s.(sort := Without(s.sort, r)), d, m, limit, Some(r))
  {
    StrictWithout(s.sort, m.pos, r);
    hide Strict, Ordered, NoDup, Without;
  }

  lemma OtherSide(s: Side, d: nat, m: Requests, limit: int, r: Rq)
    requires DirOk(s, d, m, limit, None) && r in m.dir && m.dir[r] != d
    ensures DirOk(s, d, m, limit, Some(r)) && r !in s.sort && r !in s.fifo
  {
  }

  lemma OtherFifo(s: Side, d: nat, m: Requests, limit: int, req: Rq, next: Rq)
    requires DirOk(s, d, m, limit, None) && req in m.dir && m.dir[req] != d
    ensures req !in s.fifo
  {
  }

  lemma FifoCount(s: Side, d: nat, m: Requests, limit: int, req: Rq, next: Rq)
    requires DirOk(s, d, m, limit, None) && req in s.fifo && next in s.fifo && req != next
    ensures |InsertAfter(Without(s.fifo, req), next, req)| == |s.fifo| && |Without(s.fifo, next)| == |s.fifo| - 1
    ensures |Without(InsertAfter(Without(s.fifo, req), next, req), next)| == |s.fifo| - 1
  {
    NoDupAfter(Without(s.fifo, req), next, req);
    hide InsertAfter, Without;
  }

  lemma NextQueued(s: Side, d: nat, m: Requests, limit: int)
    requires DirOk(s, d, m, limit, None)
    ensures s.next.Some? ==> s.fifo != [] && s.next.value in s.fifo
    ensures s.fifo != [] ==> s.fifo[0] in m.time
  {
    if s.fifo != [] { assert s.fifo[0] in s.fifo; }
  }

  /** The lists when a request is taken off the tree for a new position. */
  lemma FrontReady(sides: seq<Side>, m: Requests, limit0: int, limit1: int, scan: Option<Scan>, r: Rq, p: int)
    requires |sides| == 2 && DirOk(sides[0], 0, m, limit0, None) && DirOk(sides[1], 1, m, limit1, None)
    requires Scanning(sides, m.pos, scan) && r in m.dir && m.dir[r] < 2
    ensures var d, m' := m.dir[r], m.(pos := m.pos[r := p]);
            var t := sides[d := sides[d].(sort := Without(sides[d].sort, r))];
            && DirOk(t[0], 0, m', limit0, Some(r)) && DirOk(t[1], 1, m', limit1, Some(r))
            && r !in t[0].sort && r !in t[1].sort && r !in t[1 - d].fifo && Known(t[d].sort, m'.pos)
            && Scanning(t, m'.pos, AfterFront(sides[d], m.pos, scan, d, r, p))
  {
    hide DirOk, Without, Scanning;
    var d := m.dir[r];
    var limit := if d == 0 then limit0 else limit1;
    var other := if d == 0 then limit1 else limit0;
    TakeOut(sides[d], d, m, limit, r);
    OtherSide(sides[1 - d], 1 - d, m, other, r);
    NextQueued(sides[1 - d], 1 - d, m, other);
    ScanFront(sides, m.pos, scan, d, r, p);
    var t := sides[d := sides[d].(sort := Without(sides[d].sort, r))];
    RekeyDirOk(t[0], 0, m, limit0, r, p);
    RekeyDirOk(t[1], 1, m, limit1, r, p);
    SortStrict(t[d], d, m.(pos := m.pos[r := p]), limit, Some(r));
    hide Known, Strict;
  }

  /** The lists when a new request is about to be sorted in. */
  lemma NewReady(sides: seq<Side>, m: Requests, now: int, jiffies: int, expire: seq<nat>, scan: Option<Scan>, r: Rq, p: int, d: nat)
    requires |sides| == 2 && |expire| == 2 && now <= jiffies && d < 2
    requires DirOk(sides[0], 0, m, now + expire[0], None) && DirOk(sides[1], 1, m, now + expire[1], None)
    requires Scanning(sides, m.pos, scan) && r !in sides[0].fifo && r !in sides[1].fifo
    ensures var m' := m.(pos := m.pos[r := p], dir := m.dir[r := d]);
            && DirOk(sides[0], 0, m', jiffies + expire[0], Some(r)) && DirOk(sides[1], 1, m', jiffies + expire[1], Some(r))
            && r !in sides[0].sort && r !in sides[1].sort && Known(sides[d].sort, m'.pos) && Scanning(sides, m'.pos, scan)
  {
    hide DirOk, Scanning;
    NotSorted(sides[0], 0, m, now + expire[0], r);
    NotSorted(sides[1], 1, m, now + expire[1], r);
    LaterDirOk(sides[0], 0, m, now + expire[0], jiffies + expire[0], Some(r));
    LaterDirOk(sides[1], 1, m, now + expire[1], jiffies + expire[1], Some(r));
    NewDirOk(sides[0], 0, m, jiffies + expire[0], r, p, d);
    NewDirOk(sides[1], 1, m, jiffies + expire[1], r, p, d);
    NextQueued(sides[0], 0, m, now + expire[0]);
    NextQueued(sides[1], 1, m, now + expire[1]);
    ScanNew(sides, m.pos, scan, r, p);
    SortStrict(sides[d], d, m.(pos := m.pos[r := p], dir := m.dir[r := d]), jiffies + expire[d], Some(r));
    hide Known, Strict;
  }

  lemma RightChoice(s: Side, d: nat, m: Requests, limit: int, continued: bool, jiffies: int, scan: Option<Scan>)
    requires DirOk(s, d, m, limit, None) && s.fifo != [] && s.fifo[0] in m.time
    requires scan.Some? ==> if scan.value.dir == d then ScanOk(s, m.pos, scan.value) else s.next == None
    ensures var x := Chosen(s, continued, m.time, jiffies);
            && (!continued && Expired(s.fifo, m.time, jiffies) ==> Oldest(s.fifo, m.time, x))
            && (scan.Some? && scan.value.dir != d ==> Oldest(s.fifo, m.time, x))
            && (scan.Some? && scan.value.dir == d && (continued || !Expired(s.fifo, m.time, jiffies)) ==>
                  Onward(s, m.pos, scan.value, x) || (Oldest(s.fifo, m.time, x) && forall r :: !Ahead(s, m.pos, scan.value, r)))
  {
    assert Ordered(s.fifo, m.time);
    hide Ordered, Chosen, Oldest, Onward, Expired, ScanOk, DirOk;
    if !continued && Expired(s.fifo, m.time, jiffies) { ChosenExpired(s, m.time, jiffies); }
    if scan.Some? && scan.value.dir != d { ChosenAfterTurn(s, continued, m.time, jiffies); }
    if scan.Some? && scan.value.dir == d && (continued || !Expired(s.fifo, m.time, jiffies)) {
      ChosenOnward(s, continued, m.time, jiffies, m.pos, scan.value);
    }
  }

  lemma QueuedSorted(s: Side, d: nat, m: Requests, limit: int, r: Rq)
    requires DirOk(s, d, m, limit, None) && r in s.fifo
    ensures r in s.sort && r in m.dir && m.dir[r] == d && |MovedFrom(s, r).fifo| == |s.fifo| - 1
  {
    hide Without;
  }
}
