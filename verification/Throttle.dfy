/**
 * The throttler of omap/block/blk-throttle.c: groups with one FIFO of waiting bios per direction, a service tree
 * of busy groups ordered by dispatch time, and the dispatch loop.
 *
 * The red-black tree is the sequence of its members in key order, with the cached leftmost node kept explicit.
 */
module Throttle {
  import opened Common
  import opened Lists
  import opened ThrottleSlice
  import opened Arith

  type Gid = nat

  datatype Bio = Bio(id: nat, write: bool, size: nat)

  /** One direction of a throtl_grp; `meter` records what it has let through. */
  datatype Lane = Lane(limit: Limit, slice: Slice, meter: Meter, queue: seq<Bio>, nrQueued: int)

  datatype Group = Group(read: Lane, write: Lane, disptime: int, onRr: bool) {
    function Get(w: bool): Lane { if w then write else read }
    function Set(w: bool, l: Lane): Group { if w then this.(write := l) else this.(read := l) }
  }

  /** Max dispatch from a group, and from all groups, in one round. */
  const GRP_QUANTUM: nat := 8
  const QUANTUM: nat := 32

  // ---------------------------------------------------------------- what the counters count

  function SumQueued(gs: seq<Group>, w: bool): nat {
    if gs == [] then 0 else |gs[0].Get(w).queue| + SumQueued(gs[1..], w)
  }

  lemma {:induction false} SumQueuedUpdate(gs: seq<Group>, g: nat, x: Group, w: bool)
    requires g < |gs|
    ensures SumQueued(gs[g := x], w) == SumQueued(gs, w) - |gs[g].Get(w).queue| + |x.Get(w).queue|
  {
    if g > 0 {
      assert gs[g := x][1..] == gs[1..][g - 1 := x];
      SumQueuedUpdate(gs[1..], g - 1, x, w);
    } else {
      assert gs[g := x][1..] == gs[1..];
    }
  }

  lemma {:induction false} SumQueuedMember(gs: seq<Group>, g: nat, w: bool)
    requires g < |gs|
    ensures |gs[g].Get(w).queue| <= SumQueued(gs, w)
  {
    if g > 0 { SumQueuedMember(gs[1..], g - 1, w); }
  }

  lemma {:induction false} SumQueuedZero(gs: seq<Group>, w: bool)
    requires forall g :: 0 <= g < |gs| ==> gs[g].Get(w).queue == []
    ensures SumQueued(gs, w) == 0
  {
    if gs != [] {
      forall g | 0 <= g < |gs[1..]| ensures gs[1..][g].Get(w).queue == [] { assert gs[1..][g] == gs[g + 1]; }
      SumQueuedZero(gs[1..], w);
    }
  }

  // ---------------------------------------------------------------- the service tree

  ghost predicate Sorted(gs: seq<Group>, tree: seq<Gid>) {
    && (forall i :: 0 <= i < |tree| ==> tree[i] < |gs|)
    && forall i, j :: 0 <= i < j < |tree| ==> gs[tree[i]].disptime <= gs[tree[j]].disptime
  }

  /** tg_service_tree_add: behind every member that is not due later. */
  function Insert(gs: seq<Group>, tree: seq<Gid>, g: Gid): (r: seq<Gid>)
    requires g < |gs| && forall i :: 0 <= i < |tree| ==> tree[i] < |gs|
    ensures |r| == |tree| + 1
    ensures forall x :: x in r <==> x in tree || x == g
    ensures r[0] == g || (tree != [] && r[0] == tree[0])
  {
    if tree == [] then [g]
    else if gs[g].disptime < gs[tree[0]].disptime then [g] + tree
    else [tree[0]] + Insert(gs, tree[1..], g)
  }

  lemma ConsSorted(gs: seq<Group>, x: Gid, t: seq<Gid>)
    requires Sorted(gs, t) && x < |gs|
    requires forall y :: y in t ==> y < |gs| && gs[x].disptime <= gs[y].disptime
    ensures Sorted(gs, [x] + t)
  {
  }

  lemma HeadLeast(gs: seq<Group>, tree: seq<Gid>)
    requires Sorted(gs, tree) && tree != []
    ensures Sorted(gs, tree[1..])
    ensures forall y :: y in tree ==> y < |gs| && gs[tree[0]].disptime <= gs[y].disptime
  {
  }

  lemma {:induction false} InsertSorted(gs: seq<Group>, tree: seq<Gid>, g: Gid)
    requires Sorted(gs, tree) && g < |gs|
    ensures Sorted(gs, Insert(gs, tree, g))
  {
    if tree != [] {
      HeadLeast(gs, tree);
      if gs[g].disptime < gs[tree[0]].disptime {
        ConsSorted(gs, g, tree);
      } else {
        InsertSorted(gs, tree[1..], g);
        hide Sorted;
        ConsSorted(gs, tree[0], Insert(gs, tree[1..], g));
      }
    }
  }

  lemma {:induction false} InsertNoDup(gs: seq<Group>, tree: seq<Gid>, g: Gid)
    requires g < |gs| && (forall i :: 0 <= i < |tree| ==> tree[i] < |gs|) && NoDup(tree) && g !in tree
    ensures NoDup(Insert(gs, tree, g))
  {
    if tree != [] {
      if gs[g].disptime < gs[tree[0]].disptime {
        NoDupAppend(tree, g);
      } else {
        InsertNoDup(gs, tree[1..], g);
        NoDupAppend(Insert(gs, tree[1..], g), tree[0]);
      }
    }
  }

  lemma {:induction false} WithoutSorted(gs: seq<Group>, tree: seq<Gid>, g: Gid)
    requires Sorted(gs, tree)
    ensures Sorted(gs, Without(tree, g))
  {
    if tree != [] {
      HeadLeast(gs, tree);
      hide Sorted;
      WithoutSorted(gs, tree[1..], g);
      ConsSorted(gs, tree[0], Without(tree[1..], g));
    }
  }

  // ---------------------------------------------------------------- the invariant

  predicate Busy(x: Group) { x.read.queue != [] || x.write.queue != [] }

  ghost predicate LaneOk(c: Config, l: Lane, clock: int)
    requires Sane(c)
  {
    && Positive(l.limit) && l.nrQueued == |l.queue|
    && (NoRule(l.limit) ==> l.queue == [])
    && (!NoRule(l.limit) ==> Metered(c, l.limit, l.slice, l.meter, clock))
  }

  ghost predicate LanesOk(c: Config, gs: seq<Group>, clock: int)
    requires Sane(c)
  {
    forall g :: 0 <= g < |gs| ==> LaneOk(c, gs[g].read, clock) && LaneOk(c, gs[g].write, clock)
  }

  /** The tree holds exactly the groups marked on_rr, which are the busy ones, apart from those in `off`. */
  ghost predicate TreeOk(gs: seq<Group>, tree: seq<Gid>, off: set<Gid>) {
    && Sorted(gs, tree) && NoDup(tree)
    && (forall g :: 0 <= g < |gs| ==> (g in tree <==> gs[g].onRr))
    && (forall g :: 0 <= g < |gs| && g !in off ==> (gs[g].onRr <==> Busy(gs[g])))
  }

  /** A bio on the dispatch list, with the lane it came from. */
  datatype Entry = Entry(g: Gid, w: bool, bio: Bio)

  /** The bios of one lane on the dispatch list, in order. */
  function Taken(bl: seq<Entry>, g: Gid, w: bool): seq<Bio> {
    if bl == [] then []
    else
      var last := bl[|bl| - 1];
      Taken(bl[..|bl| - 1], g, w) + if last.g == g && last.w == w then [last.bio] else []
  }

  function Tag(g: Gid, w: bool, out: seq<Bio>): (r: seq<Entry>)
    ensures |r| == |out|
  {
    if out == [] then [] else Tag(g, w, out[..|out| - 1]) + [Entry(g, w, out[|out| - 1])]
  }

  lemma {:induction false} TakenConcat(a: seq<Entry>, b: seq<Entry>, g: Gid, w: bool)
    ensures Taken(a + b, g, w) == Taken(a, g, w) + Taken(b, g, w)
    decreases |b|
  {
    if b == [] {
      assert a + b == a;
    } else {
      assert (a + b)[..|a + b| - 1] == a + b[..|b| - 1];
      TakenConcat(a, b[..|b| - 1], g, w);
    }
  }

  lemma TakenSnoc(bl: seq<Entry>, e: Entry, g: Gid, w: bool)
    ensures Taken(bl + [e], g, w) == Taken(bl, g, w) + if e.g == g && e.w == w then [e.bio] else []
  {
    assert (bl + [e])[..|bl|] == bl;
  }

  lemma TagSnoc(g: Gid, w: bool, out: seq<Bio>, b: Bio)
    ensures Tag(g, w, out + [b]) == Tag(g, w, out) + [Entry(g, w, b)]
  {
    assert (out + [b])[..|out|] == out;
  }

  lemma {:induction false} TakenTag(g: Gid, w: bool, out: seq<Bio>, g': Gid, w': bool)
    ensures Taken(Tag(g, w, out), g', w') == if g == g' && w == w' then out else []
    decreases |out|
  {
    if out == [] {
      assert Tag(g, w, out) == [];
    } else {
      hide Taken, Tag;
      var init, last := out[..|out| - 1], out[|out| - 1];
      assert out == init + [last];
      TagSnoc(g, w, init, last);
      TakenSnoc(Tag(g, w, init), Entry(g, w, last), g', w');
      TakenTag(g, w, init, g', w');
    }
  }

  lemma {:induction false} TagSame(g: Gid, w: bool, out: seq<Bio>)
    ensures forall i :: 0 <= i < |out| ==> Tag(g, w, out)[i].w == w
    decreases |out|
  {
    if out != [] { TagSame(g, w, out[..|out| - 1]); }
  }

  lemma TakenPair(g: Gid, rs: seq<Bio>, ws: seq<Bio>)
    ensures forall h, w {:trigger Taken(Tag(g, false, rs) + Tag(g, true, ws), h, w)} ::
              Taken(Tag(g, false, rs) + Tag(g, true, ws), h, w) == if h != g then [] else if w then ws else rs
  {
    hide Taken, Tag;
    forall h, w
      ensures Taken(Tag(g, false, rs) + Tag(g, true, ws), h, w) == if h != g then [] else if w then ws else rs
    {
      TakenConcat(Tag(g, false, rs), Tag(g, true, ws), h, w);
      TakenTag(g, false, rs, h, w);
      TakenTag(g, true, ws, h, w);
    }
  }

  lemma NoneTaken(bl: seq<Entry>, g: Gid)
    requires bl == []
    ensures Taken(bl, g, false) == [] && Taken(bl, g, true) == []
  {
  }

  // ---------------------------------------------------------------- one lane

  /** The lane after tg_may_dispatch was asked about a bio of `size` bytes. */
  function Asked(c: Config, l: Lane, now: int, size: nat): Lane
    requires Sane(c) && Positive(l.limit)
  {
    var s := MayDispatch(c, l.limit, l.slice, now, size).1;
    l.(slice := s, meter := Observe(l.meter, s))
  }

  /** The lane after a bio was charged and the slice trimmed. */
  function Admitted(c: Config, l: Lane, now: int, size: nat): Lane
    requires Sane(c)
  {
    l.(slice := Trim(c, l.limit, Charge(l.slice, size), now), meter := Record(l.meter, now, size))
  }

  /** The bio at the front has just been found within the limits. */
  predicate Cleared(c: Config, l: Lane, now: int, size: nat)
    requires Sane(c)
  {
    && Positive(l.limit) && !NoRule(l.limit) && l.slice.start <= now && now + SliceLen(c) <= l.slice.end
    && Check(c, l.limit, l.slice, now, size).ok
  }

  // ---------------------------------------------------------------- what leaves a lane is metered

  /** The meter readings of bios that leave together. */
  function Stamp(now: int, out: seq<Bio>): (r: seq<(int, nat)>)
    ensures |r| == |out|
  {
    if out == [] then [] else Stamp(now, out[..|out| - 1]) + [(now, out[|out| - 1].size)]
  }

  /**
   * Under the same limits, `out` and nothing else has come on the meter, at time `now`. The origin of the meter stays
   * once something is on it, and before that it only moves forward.
   */
  predicate OnMeter(l: Lane, l': Lane, out: seq<Bio>, now: int) {
    && l'.limit == l.limit
    && l'.meter.log == l.meter.log + Stamp(now, out)
    && l.meter.origin <= l'.meter.origin
    && (l.meter.log != [] ==> l'.meter.origin == l.meter.origin)
  }

  /** `out` has left the lane at time `now`, in the order it waited, and every bio of it is on the meter. */
  predicate Flowed(l: Lane, l': Lane, out: seq<Bio>, now: int) {
    out + l'.queue == l.queue && OnMeter(l, l', out, now)
  }

  lemma {:induction false} StampConcat(now: int, a: seq<Bio>, b: seq<Bio>)
    ensures Stamp(now, a + b) == Stamp(now, a) + Stamp(now, b)
    decreases |b|
  {
    if b == [] {
      assert a + b == a;
    } else {
      assert (a + b)[..|a + b| - 1] == a + b[..|b| - 1];
      StampConcat(now, a, b[..|b| - 1]);
    }
  }

  lemma NothingFlowed(l: Lane, now: int)
    ensures Flowed(l, l, [], now)
  {
  }

  lemma FlowedOn(l: Lane, l': Lane, l'': Lane, a: seq<Bio>, b: seq<Bio>, now: int)
    requires Flowed(l, l', a, now) && Flowed(l', l'', b, now)
    ensures Flowed(l, l'', a + b, now)
  {
    StampConcat(now, a, b);
    hide Stamp;
    assert a + b + l''.queue == a + (b + l''.queue);
    Assoc(l.meter.log, Stamp(now, a), Stamp(now, b));
  }

  lemma FlowedQuietly(l: Lane, l': Lane, l'': Lane, out: seq<Bio>, now: int)
    requires Flowed(l, l', out, now) && Flowed(l', l'', [], now)
    ensures Flowed(l, l'', out, now)
  {
    FlowedOn(l, l', l'', out, [], now);
    assert out + [] == out;
  }

  /** Asking lets nothing out. */
  lemma AskedFlows(c: Config, l: Lane, clock: int, now: int, size: nat)
    requires Sane(c) && LaneOk(c, l, clock) && clock <= now && !NoRule(l.limit)
    ensures Flowed(l, Asked(c, l, now, size), [], now)
  {
    hide Check;
  }

  /** The bio that is admitted is the one on the meter. */
  lemma AdmittedFlows(c: Config, l: Lane, now: int)
    requires Sane(c) && l.queue != []
    ensures Flowed(l, Admitted(c, l.(queue := l.queue[1..], nrQueued := l.nrQueued - 1), now, l.queue[0].size), [l.queue[0]], now)
  {
    assert Stamp(now, [l.queue[0]]) == [(now, l.queue[0].size)] by { assert [l.queue[0]][..0] == []; }
    hide Trim;
  }

  lemma AskedKeeps(c: Config, l: Lane, clock: int, now: int, size: nat)
    requires Sane(c) && LaneOk(c, l, clock) && clock <= now && !NoRule(l.limit)
    ensures var (v, s) := MayDispatch(c, l.limit, l.slice, now, size);
            && LaneOk(c, Asked(c, l, now, size), now)
            && (v.ok <==> Cleared(c, Asked(c, l, now, size), now, size))
            && (!v.ok ==> v.wait >= 1)
            && MayDispatch(c, l.limit, s, now, size).0 == v
  {
    MayDispatchKeeps(c, l.limit, l.slice, l.meter, clock, now, size);
    WaitPositive(c, l.limit, MayDispatch(c, l.limit, l.slice, now, size).1, now, size);
  }

  lemma WaitPositive(c: Config, l: Limit, s: Slice, now: int, size: nat)
    requires Sane(c) && Positive(l) && s.start <= now
    ensures !Check(c, l, s, now, size).ok ==> Check(c, l, s, now, size).wait >= 1
  {
    ElapsedRounds(c, s, now);
  }

  lemma AdmittedKeeps(c: Config, l: Lane, now: int, size: nat)
    requires Sane(c) && LaneOk(c, l, now) && Cleared(c, l, now, size)
    ensures LaneOk(c, Admitted(c, l, now, size), now)
  {
    ChargeKeeps(c, l.limit, l.slice, l.meter, now, size);
    TrimKeeps(c, l.limit, Charge(l.slice, size), Record(l.meter, now, size), now);
  }

  lemma LaneLater(c: Config, l: Lane, clock: int, now: int)
    requires Sane(c) && LaneOk(c, l, clock) && clock <= now
    ensures LaneOk(c, l, now)
  {
  }

  /** Replacing one lane of one group by another keeps all lanes in order. */
  lemma LanesReplace(c: Config, gs: seq<Group>, clock: int, now: int, g: Gid, w: bool, l: Lane)
    requires Sane(c) && LanesOk(c, gs, clock) && clock <= now && g < |gs| && LaneOk(c, l, now)
    ensures LanesOk(c, gs[g := gs[g].Set(w, l)], now)
  {
    forall h | 0 <= h < |gs| ensures LaneOk(c, gs[h].read, now) && LaneOk(c, gs[h].write, now) {
      LaneLater(c, gs[h].read, clock, now);
      LaneLater(c, gs[h].write, clock, now);
    }
    hide LaneOk;
  }

  /** Replacing a lane by one that waits for as many bios keeps the tree and the totals. */
  lemma TreeReplace(gs: seq<Group>, tree: seq<Gid>, off: set<Gid>, g: Gid, w: bool, l: Lane)
    requires TreeOk(gs, tree, off) && g < |gs| && (g in off || l.queue == gs[g].Get(w).queue)
    ensures var gs' := gs[g := gs[g].Set(w, l)];
            && TreeOk(gs', tree, off)
            && SumQueued(gs', w) == SumQueued(gs, w) - |gs[g].Get(w).queue| + |l.queue|
            && SumQueued(gs', !w) == SumQueued(gs, !w)
  {
    var gs' := gs[g := gs[g].Set(w, l)];
    SumQueuedUpdate(gs, g, gs'[g], w);
    SumQueuedUpdate(gs, g, gs'[g], !w);
    SameTimes(gs, gs', tree);
  }

  class ThrottleData {
    const c: Config
    var groups: seq<Group>
    var tree: seq<Gid>
    var left: Option<Gid>
    var count: nat
    var nrReads: int       // nr_queued[READ] of the whole queue
    var nrWrites: int
    ghost var clock: int

    ghost predicate Consistent(off: set<Gid>)
      reads this
    {
      && Sane(c) && clock >= 0 && LanesOk(c, groups, clock) && TreeOk(groups, tree, off)
      && count == |tree| && (left.None? || (tree != [] && left.value == tree[0]))
      && nrReads == SumQueued(groups, false) && nrWrites == SumQueued(groups, true)
    }

    ghost predicate Valid()
      reads this
    {
      Consistent({})
    }

    /** total_nr_queued */
    function Total(): int
      reads this
    {
      nrReads + nrWrites
    }

    /** throtl_rb_first */
    method RbFirst() returns (r: Option<Gid>)
      requires count == |tree| && (left.None? || (tree != [] && left.value == tree[0]))
      modifies this`left
      ensures r == if tree == [] then None else Some(tree[0])
      ensures left.None? || (tree != [] && left.value == tree[0])
    {
      if count == 0 {
        return None;
      }
      if left.None? {
        left := Some(tree[0]);
      }
      return left;
    }

    /** tg_service_tree_add */
    method TreeAdd(g: Gid)
      requires g < |groups| && Sorted(groups, tree) && g !in tree
      requires left.None? || (tree != [] && left.value == tree[0])
      modifies this`tree, this`left
      ensures tree == Insert(groups, old(tree), g)
      ensures left.None? || left.value == tree[0]
    {
      hide Insert;
      var t, i, leftmost := tree, 0, true;
      assert t[..0] + Insert(groups, t[0..], g) == Insert(groups, t, g) by { assert t[0..] == t; }
      while i < |t| && !(groups[g].disptime < groups[t[i]].disptime)
        modifies {}
        invariant 0 <= i <= |t|
        invariant leftmost <==> i == 0
        invariant Insert(groups, t, g) == t[..i] + Insert(groups, t[i..], g)
      {
        InsertStep(groups, t, g, i);
        leftmost := false;
        i := i + 1;
      }
      InsertHere(groups, t, g, i);
      if leftmost {
        left := Some(g);
      }
      tree := t[..i] + [g] + t[i..];
    }

    /** throtl_enqueue_tg */
    method Enqueue(g: Gid, ghost off: set<Gid>)
      requires Consistent(off) && g < |groups| && Busy(groups[g])
      modifies this`tree, this`left, this`groups, this`count
      ensures Consistent(off - {g})
      ensures groups == old(groups)[g := old(groups)[g].(onRr := true)]
      ensures tree == if old(groups)[g].onRr then old(tree) else Insert(old(groups), old(tree), g)
    {
      hide TreeOk, SumQueued, LanesOk, Insert, Sorted, Busy;
      if groups[g].onRr {
        StaysOn(groups, tree, g, off);
        assert groups == groups[g := groups[g].(onRr := true)];
        return;
      }
      EnqueueKeeps(groups, tree, g, off);
      RrLanes(c, groups, clock, g, true);
      NotOnTree(groups, tree, g, off);
      TreeAdd(g);
      groups := groups[g := groups[g].(onRr := true)];
      count := count + 1;
    }

    /** throtl_dequeue_tg */
    method Dequeue(g: Gid, ghost off: set<Gid>)
      requires Consistent(off) && g < |groups|
      modifies this`tree, this`left, this`groups, this`count
      ensures Consistent(off + {g})
      ensures groups == old(groups)[g := old(groups)[g].(onRr := false)]
      ensures tree == Without(old(tree), g)
    {
      if !groups[g].onRr {
        return;
      }
      DequeueKeeps(groups, tree, g, off);
      RrLanes(c, groups, clock, g, false);
      hide TreeOk, SumQueued, LanesOk, Without;
      if left == Some(g) {
        left := None;
      }
      tree := Without(tree, g);
      count := count - 1;
      groups := groups[g := groups[g].(onRr := false)];
    }

    /** tg_may_dispatch on the bio at the front of a lane, or on one about to enter an empty lane. */
    method Ask(g: Gid, w: bool, bio: Bio, now: int, ghost off: set<Gid>) returns (v: Verdict)
      requires Consistent(off) && clock <= now && g < |groups| && !NoRule(groups[g].Get(w).limit)
      requires groups[g].Get(w).queue != [] ==> groups[g].Get(w).queue[0] == bio           // BUG_ON at 707
      modifies this`groups, this`clock
      ensures Consistent(off) && clock == now && |groups| == |old(groups)|
      ensures groups == old(groups)[g := old(groups)[g].Set(w, groups[g].Get(w))]
      ensures var l, l' := old(groups)[g].Get(w), groups[g].Get(w);
              && Positive(l.limit) && l' == Asked(c, l, now, bio.size)
              && l'.queue == l.queue && l'.limit == l.limit && Flowed(l, l', [], now)
              && v == MayDispatch(c, l.limit, l.slice, now, bio.size).0
              && v == MayDispatch(c, l'.limit, l'.slice, now, bio.size).0
              && (v.ok <==> Cleared(c, l', now, bio.size)) && (!v.ok ==> v.wait >= 1)
              && (v.ok && !(l.slice.start <= now <= l.slice.end) ==>
                    c.hz * bio.size <= l.limit.bps * SliceLen(c) && c.hz <= l.limit.iops * SliceLen(c))
    {
      var l := groups[g].Get(w);
      LaneFacts(c, groups, clock, g, w);
      FreshStart(c, l, now, bio.size);
      AskedKeeps(c, l, clock, now, bio.size);
      AskedFlows(c, l, clock, now, bio.size);
      LanesReplace(c, groups, clock, now, g, w, Asked(c, l, now, bio.size));
      TreeReplace(groups, tree, off, g, w, Asked(c, l, now, bio.size));
      hide LaneOk, TreeOk, Cleared, SumQueued, LanesOk, Flowed;
      var r := MayDispatch(c, l.limit, l.slice, now, bio.size);
      v := r.0;
      groups := groups[g := groups[g].Set(w, Asked(c, l, now, bio.size))];
      clock := now;
    }

    /** tg_dispatch_one_bio: the front of the lane leaves it and is charged. */
    method DispatchOne(g: Gid, w: bool, now: int, ghost off: set<Gid>) returns (bio: Bio)
      requires Consistent(off) && clock == now && g < |groups| && g in off
      requires var l := groups[g].Get(w); l.queue != [] && Cleared(c, l, now, l.queue[0].size)
      modifies this`groups, this`nrReads, this`nrWrites
      ensures Consistent(off) && |groups| == |old(groups)|
      ensures var l := old(groups)[g].Get(w);
              && bio == l.queue[0]
              && groups == old(groups)[g := old(groups)[g].Set(w, groups[g].Get(w))]
              && groups[g].Get(w) == Admitted(c, l.(queue := l.queue[1..], nrQueued := l.nrQueued - 1), now, bio.size)
              && groups[g].Get(w).queue == l.queue[1..] && Flowed(l, groups[g].Get(w), [bio], now)
      ensures Total() == old(Total()) - 1
    {
      var l := groups[g].Get(w);
      bio := l.queue[0];
      ghost var l0 := l.(queue := l.queue[1..], nrQueued := l.nrQueued - 1);
      assert LaneOk(c, l0, now);
      AdmittedKeeps(c, l0, now, bio.size);
      AdmittedFlows(c, l, now);
      LanesReplace(c, groups, now, now, g, w, Admitted(c, l0, now, bio.size));
      TreeReplace(groups, tree, off, g, w, Admitted(c, l0, now, bio.size));
      SumQueuedMember(groups, g, w);
      assert (if w then nrWrites else nrReads) > 0;                  // BUG_ON at 801
      hide LaneOk, TreeOk, Cleared, SumQueued, Flowed;
      if w {
        nrWrites := nrWrites - 1;
      } else {
        nrReads := nrReads - 1;
      }
      l := l.(queue := l.queue[1..], nrQueued := l.nrQueued - 1);
      groups := groups[g := groups[g].Set(w, Admitted(c, l, now, bio.size))];
    }

    /** One of the two loops of throtl_dispatch_tg: at most `max` bios leave the lane, in order. */
    method DispatchLane(g: Gid, w: bool, max: nat, now: int, ghost off: set<Gid>) returns (nr: nat, out: seq<Bio>)
      requires Consistent(off) && clock <= now && g < |groups| && g in off && max > 0
      modifies this`groups, this`clock, this`nrReads, this`nrWrites
      ensures Consistent(off) && clock <= now && |groups| == |old(groups)|
      ensures nr == |out| <= max
      ensures Flowed(old(groups)[g].Get(w), groups[g].Get(w), out, now)
      ensures groups == old(groups)[g := old(groups)[g].Set(w, groups[g].Get(w))]
      ensures nr < max ==> Stuck(c, groups[g].Get(w), now)
      ensures Total() == old(Total()) - nr
    {
      hide LanesOk, TreeOk, SumQueued, LaneOk, Cleared, Asked, Admitted, MayDispatch, Flowed;
      nr, out := 0, [];
      NothingFlowed(groups[g].Get(w), now);
      while groups[g].Get(w).queue != []
        invariant Consistent(off) && clock <= now && |groups| == |old(groups)|
        invariant nr == |out| < max
        invariant Flowed(old(groups)[g].Get(w), groups[g].Get(w), out, now)
        invariant groups == old(groups)[g := old(groups)[g].Set(w, groups[g].Get(w))]
        invariant Total() == old(Total()) - nr
        decreases |groups[g].Get(w).queue|
      {
        var bio := groups[g].Get(w).queue[0];
        RuledWhenQueued(c, groups, clock, g, w);
        ghost var l0 := groups[g].Get(w);
        var v := Ask(g, w, bio, now, off);
        ghost var l1 := groups[g].Get(w);
        FlowedQuietly(old(groups)[g].Get(w), l0, l1, out, now);
        if !v.ok {
          break;
        }
        var b := DispatchOne(g, w, now, off);
        FlowedOn(old(groups)[g].Get(w), l1, groups[g].Get(w), out, [b], now);
        nr, out := nr + 1, out + [b];
        if nr >= max {
          break;
        }
      }
    }

    /** throtl_dispatch_tg: up to three quarters of the quantum for reads, the rest for writes. */
    method DispatchTg(g: Gid, now: int, ghost off: set<Gid>) returns (nr: nat, bl: seq<Entry>)
      requires Consistent(off) && clock <= now && g < |groups| && g in off
      modifies this`groups, this`clock, this`nrReads, this`nrWrites
      ensures Consistent(off) && clock <= now && |groups| == |old(groups)|
      ensures nr == |bl| <= GRP_QUANTUM
      ensures forall w :: Flowed(old(groups)[g].Get(w), groups[g].Get(w), Taken(bl, g, w), now)
      ensures forall h, w :: h != g ==> Taken(bl, h, w) == []
      ensures groups == old(groups)[g := groups[g]]
      ensures groups[g].disptime == old(groups)[g].disptime && groups[g].onRr == old(groups)[g].onRr
      ensures |Taken(bl, g, false)| <= 6 && |Taken(bl, g, true)| <= 2
      ensures |Taken(bl, g, false)| < 6 ==> Stuck(c, groups[g].read, now)
      ensures |Taken(bl, g, true)| < 2 ==> Stuck(c, groups[g].write, now)
      ensures forall i, j :: 0 <= i < j < |bl| && bl[i].w ==> bl[j].w
      ensures Total() == old(Total()) - nr
    {
      hide Consistent, Stuck, Taken, Tag, Flowed;
      var maxReads := GRP_QUANTUM * 3 / 4;
      var maxWrites := GRP_QUANTUM - maxReads;
      var nrR, rs := DispatchLane(g, false, maxReads, now, off);
      var nrW, ws := DispatchLane(g, true, maxWrites, now, off);
      nr := nrR + nrW;
      bl := Tag(g, false, rs) + Tag(g, true, ws);
      TakenPair(g, rs, ws);
      TagSame(g, false, rs);
      TagSame(g, true, ws);
      assert Taken(bl, g, false) == rs && Taken(bl, g, true) == ws;
    }

    /** The wait of the bio at the front of a lane, if there is one. */
    method FrontWait(g: Gid, w: bool, now: int, ghost off: set<Gid>) returns (wait: Option<nat>)
      requires Consistent(off) && clock <= now && g < |groups|
      modifies this`groups, this`clock
      ensures Consistent(off) && clock <= now && |groups| == |old(groups)|
      ensures groups == old(groups)[g := old(groups)[g].Set(w, groups[g].Get(w))]
      ensures groups[g].Get(w).queue == old(groups)[g].Get(w).queue
      ensures Flowed(old(groups)[g].Get(w), groups[g].Get(w), [], now)
      ensures wait == HeadWait(c, old(groups)[g].Get(w), now) && (wait.Some? <==> groups[g].Get(w).queue != [])
    {
      hide LanesOk, TreeOk, SumQueued, MayDispatch, Asked, Cleared, LaneOk, Flowed;
      NothingFlowed(groups[g].Get(w), now);
      wait := None;
      if groups[g].Get(w).queue != [] {
        RuledWhenQueued(c, groups, clock, g, w);
        var v := Ask(g, w, groups[g].Get(w).queue[0], now, off);
        wait := Some(v.wait);
      }
    }

    /** The group goes on the tree under a new time. */
    method Retime(g: Gid, disptime: int, ghost off: set<Gid>)
      requires Consistent(off) && g < |groups| && Busy(groups[g])
      modifies this`groups, this`tree, this`left, this`count
      ensures Consistent(off - {g})
      ensures groups == old(groups)[g := old(groups)[g].(disptime := disptime, onRr := true)]
      ensures forall h :: h in tree <==> h in old(tree) || h == g
    {
      hide LanesOk, TreeOk, SumQueued;
      Dequeue(g, off);
      RetimeKeeps(c, groups, tree, off + {g}, g, disptime, clock);
      groups := groups[g := groups[g].(disptime := disptime)];
      Enqueue(g, off + {g});
      assert off + {g} - {g} == off - {g};
    }

    /** tg_update_disptime: the group is queued for the time its first bio may leave. */
    method UpdateDisptime(g: Gid, now: int, ghost off: set<Gid>)
      requires Consistent(off) && clock <= now && g < |groups| && Busy(groups[g])
      modifies this`groups, this`clock, this`tree, this`left, this`count
      ensures Consistent(off - {g}) && clock <= now && |groups| == |old(groups)|
      ensures groups == old(groups)[g := groups[g]] && groups[g].onRr
      ensures forall w :: groups[g].Get(w).queue == old(groups)[g].Get(w).queue
      ensures forall w :: Flowed(old(groups)[g].Get(w), groups[g].Get(w), [], now)
      ensures groups[g].disptime == now + NextWait(c, old(groups)[g], now)
      ensures forall w :: HeadWait(c, old(groups)[g].Get(w), now).Some? ==>
                groups[g].disptime <= now + HeadWait(c, old(groups)[g].Get(w), now).value
      ensures exists w :: HeadWait(c, old(groups)[g].Get(w), now) == Some(groups[g].disptime - now)
      ensures forall h :: h in tree <==> h in old(tree) || h == g
    {
      hide LanesOk, TreeOk, SumQueued, HeadWait, Flowed;
      SoonerIs(HeadWait(c, groups[g].read, now), HeadWait(c, groups[g].write, now));
      var readWait := FrontWait(g, false, now, off);
      var writeWait := FrontWait(g, true, now, off);
      Retime(g, now + Sooner(readWait, writeWait), off);
      ghost var x, d := old(groups)[g], groups[g].disptime - now;
      assert HeadWait(c, x.Get(false), now) == Some(d) || HeadWait(c, x.Get(true), now) == Some(d);
    }

    /** The end of a turn of throtl_select_dispatch: a group that still has bios goes back on the tree. */
    method Requeue(g: Gid, now: int)
      requires Consistent({g}) && clock <= now && g < |groups| && !groups[g].onRr
      modifies this`groups, this`clock, this`tree, this`left, this`count
      ensures Valid() && clock <= now && |groups| == |old(groups)|
      ensures groups == old(groups)[g := groups[g]]
      ensures forall w :: Flowed(old(groups)[g].Get(w), groups[g].Get(w), [], now)
      ensures Busy(old(groups)[g]) ==> groups[g].disptime == now + NextWait(c, old(groups)[g], now)
      ensures forall h :: h in tree ==> h in old(tree) || h == g
    {
      hide Consistent, NextWait, LaneOk, Flowed, HeadWait;
      GroupFacts(g, {g});
      NothingFlowed(groups[g].read, now);
      NothingFlowed(groups[g].write, now);
      if groups[g].read.nrQueued > 0 || groups[g].write.nrQueued > 0 {
        ghost var x := groups[g];
        UpdateDisptime(g, now, {g});
        assert groups[g].Get(false).queue == x.Get(false).queue && groups[g].Get(true).queue == x.Get(true).queue;
        assert {g} - {g} == {} && {} - {g} == {};
        Enqueue(g, {});
      } else {
        Settle(g);
      }
    }

    /** One turn of the loop of throtl_select_dispatch, for the group at the front of the tree. */
    method Round(g: Gid, now: int) returns (nr: nat, bl: seq<Entry>)
      requires Valid() && clock <= now && tree != [] && g == tree[0] && groups[g].disptime <= now
      modifies this`groups, this`clock, this`tree, this`left, this`count, this`nrReads, this`nrWrites
      ensures Valid() && clock <= now && |groups| == |old(groups)|
      ensures nr == |bl| <= GRP_QUANTUM
      ensures groups == old(groups)[g := groups[g]]
      ensures forall w :: Flowed(old(groups)[g].Get(w), groups[g].Get(w), Taken(bl, g, w), now)
      ensures forall h, w :: h != g ==> Taken(bl, h, w) == []
      ensures Total() == old(Total()) - nr
      ensures nr == 0 ==> ReadySet(groups, tree, now) < old(ReadySet(groups, tree, now))
    {
      hide Consistent, Taken, Stuck, NextWait, LaneOk, ReadySet, Without, Busy, Sorted, Flowed;
      FrontIsBusy(now);
      Dequeue(g, {});
      assert {} + {g} == {g};
      nr, bl := DispatchTg(g, now, {g});
      if nr == 0 {
        NoneTaken(bl, g);
        WaitsOn(g, bl, old(groups)[g], now);
      }
      ghost var mid := groups[g];
      Requeue(g, now);
      BothFlowed(old(groups)[g], mid, groups[g], Taken(bl, g, false), Taken(bl, g, true), now);
      if nr == 0 {
        LessReady(old(groups), old(tree), groups, tree, g, now);
      }
    }

    /** A group from which nothing could be dispatched still has bios, and none of them may leave now. */
    lemma WaitsOn(g: Gid, bl: seq<Entry>, x: Group, now: int)
      requires Consistent({g}) && clock <= now && g < |groups| && bl == [] && Busy(x)
      requires forall w :: Flowed(x.Get(w), groups[g].Get(w), Taken(bl, g, w), now)
      requires Stuck(c, groups[g].read, now) && Stuck(c, groups[g].write, now)
      ensures Busy(groups[g]) && NextWait(c, groups[g], now) >= 1
    {
      hide Consistent, Taken, Stuck, NextWait, LaneOk, Busy, Flowed;
      QueuesKept(g, bl, x, groups[g], now);
      GroupFacts(g, {g});
      StuckWaits(c, groups[g], clock, now);
    }

    lemma QueuesKept(g: Gid, bl: seq<Entry>, x: Group, y: Group, now: int)
      requires bl == [] && forall w :: Flowed(x.Get(w), y.Get(w), Taken(bl, g, w), now)
      ensures Busy(x) ==> Busy(y)
    {
      assert Flowed(x.Get(false), y.Get(false), Taken(bl, g, false), now);
      assert Flowed(x.Get(true), y.Get(true), Taken(bl, g, true), now);
    }

    /** throtl_select_dispatch: dispatch from the groups whose time has come, in the order of their times. */
    method SelectDispatch(now: int) returns (nr: nat, bl: seq<Entry>)
      requires Valid() && clock <= now
      modifies this`groups, this`clock, this`tree, this`left, this`count, this`nrReads, this`nrWrites
      ensures Valid() && clock <= now && |groups| == |old(groups)|
      ensures nr == |bl| <= QUANTUM + GRP_QUANTUM - 1
      ensures forall h, w :: 0 <= h < |groups| ==> Flowed(old(groups)[h].Get(w), groups[h].Get(w), Taken(bl, h, w), now)
      ensures forall h, w :: 0 <= h < |groups| ==> Within(c, old(groups)[h].Get(w), groups[h].Get(w), Taken(bl, h, w), now)
      ensures Total() == old(Total()) - nr
      ensures nr < QUANTUM ==> ReadySet(groups, tree, now) == {}
    {
      hide TreeOk, LanesOk, Taken, ReadySet, SumQueued, Flowed, Within;
      nr, bl := 0, [];
      NothingTaken(groups, now);
      while true
        invariant Valid() && clock <= now && |groups| == |old(groups)|
        invariant nr == |bl| < QUANTUM
        invariant Conserved(bl, groups, old(groups), now)
        invariant Total() == old(Total()) - nr
        decreases Total(), ReadySet(groups, tree, now)
      {
        var first := RbFirst();
        if first.None? {
          NoneReady(groups, tree, now);
          break;
        }
        var g := first.value;
        FrontIsBusy(now);
        if now < groups[g].disptime {
          NoneReady(groups, tree, now);
          break;
        }
        ghost var gs, before := groups, bl;
        var n, more := Round(g, now);
        nr, bl := nr + n, bl + more;
        ConservedStep(before, more, old(groups), gs, groups, g, now);
        if nr >= QUANTUM {
          break;
        }
      }
      AllWithin(c, bl, groups, old(groups), clock, now);
    }

    constructor (c: Config)
      requires Sane(c)
      ensures Valid() && this.c == c && groups == [] && clock == 0
    {
      hide LanesOk, TreeOk, SumQueued;
      this.c, groups, tree, left, count, nrReads, nrWrites := c, [], [], None, 0, 0, 0;
      clock := 0;
      NoGroups(c);
    }

    /** throtl_init_add_tg_lists: a new group with its limits. */
    method AddGroup(readLimit: Limit, writeLimit: Limit) returns (g: Gid)
      requires Valid() && Positive(readLimit) && Positive(writeLimit)
      modifies this`groups
      ensures Valid() && g == |old(groups)|
      ensures groups == old(groups) + [Group(NewLane(readLimit), NewLane(writeLimit), 0, false)]
    {
      hide LanesOk, TreeOk, SumQueued, LaneOk;
      AddGroupKeeps(c, groups, tree, readLimit, writeLimit, clock);
      g := |groups|;
      groups := groups + [Group(NewLane(readLimit), NewLane(writeLimit), 0, false)];
    }

    /** The bio joins the end of its lane and is counted. */
    method Push(g: Gid, bio: Bio)
      requires Valid() && g < |groups| && !NoRule(groups[g].Get(bio.write).limit)
      modifies this`groups, this`nrReads, this`nrWrites
      ensures Consistent({g}) && |groups| == |old(groups)|
      ensures groups == old(groups)[g := old(groups)[g].Set(bio.write, Longer(old(groups)[g].Get(bio.write), bio))]
      ensures Total() == old(Total()) + 1
    {
      var w := bio.write;
      var l := Longer(groups[g].Get(w), bio);
      LaneFacts(c, groups, clock, g, w);
      assert LaneOk(c, l, clock);
      LanesReplace(c, groups, clock, clock, g, w, l);
      AnyOff(groups, tree, g);
      TreeReplace(groups, tree, {g}, g, w, l);
      hide LanesOk, TreeOk, SumQueued, LaneOk;
      if w {
        nrWrites := nrWrites + 1;
      } else {
        nrReads := nrReads + 1;
      }
      groups := groups[g := groups[g].Set(w, l)];
    }

    /** throtl_add_bio_tg */
    method AddBio(g: Gid, bio: Bio)
      requires Valid() && g < |groups| && !NoRule(groups[g].Get(bio.write).limit)
      modifies this`groups, this`tree, this`left, this`count, this`nrReads, this`nrWrites
      ensures Valid() && |groups| == |old(groups)|
      ensures groups == old(groups)[g := groups[g]]
      ensures groups[g] == old(groups)[g].Set(bio.write, Longer(old(groups)[g].Get(bio.write), bio)).(onRr := true)
      ensures Total() == old(Total()) + 1
    {
      hide Consistent;
      Push(g, bio);
      assert {g} - {g} == {};
      Enqueue(g, {g});
    }

    /** throtl_schedule_next_dispatch: the delay until the first group is due, or nothing to do. */
    method ScheduleNext(now: int) returns (delay: Option<nat>)
      requires Valid()
      modifies this`left
      ensures Valid()
      ensures delay.None? <==> Total() == 0
      ensures delay.Some? ==>
                && (forall h :: 0 <= h < |groups| && Busy(groups[h]) ==> groups[h].disptime >= now + delay.value || delay.value == 0)
                && (exists h :: 0 <= h < |groups| && Busy(groups[h]) && groups[h].disptime <= now + delay.value)
    {
      TotalZero(groups, tree);
      if nrReads + nrWrites == 0 {
        return None;
      }
      assert count != 0;                                                   // BUG_ON at 486
      var first := RbFirst();
      FrontIsBusy(now);
      HeadLeast(groups, tree);
      var min := groups[first.value].disptime;
      if min <= now {
        delay := Some(0);
      } else {
        delay := Some(min - now);
      }
      assert forall h :: 0 <= h < |groups| && Busy(groups[h]) ==> h in tree;
    }

    /** blk_throtl_bio: true if the bio has to wait. A bio never passes one already waiting in its lane. */
    method ThrotlBio(g: Gid, bio: Bio, now: int) returns (queued: bool)
      requires Valid() && clock <= now && g < |groups|
      modifies this`groups, this`clock, this`tree, this`left, this`count, this`nrReads, this`nrWrites
      ensures Valid() && clock <= now && |groups| == |old(groups)| && groups == old(groups)[g := groups[g]]
      ensures old(groups)[g].Get(bio.write).queue != [] ==> queued
      ensures old(groups)[g].Get(bio.write).limit == Limit(UNLIMITED_BPS, UNLIMITED_IOPS) ==> !queued && groups == old(groups)
      ensures var l := old(groups)[g].Get(bio.write);
              l.queue == [] && l.limit != Limit(UNLIMITED_BPS, UNLIMITED_IOPS) ==>
                Positive(l.limit) && (queued <==> !MayDispatch(c, l.limit, l.slice, now, bio.size).0.ok)
      ensures old(groups)[g].Get(bio.write).limit != Limit(UNLIMITED_BPS, UNLIMITED_IOPS) ==>
                var l, out := Longer(old(groups)[g].Get(bio.write), bio), if queued then [] else [bio];
                Flowed(l, groups[g].Get(bio.write), out, now) && Within(c, l, groups[g].Get(bio.write), out, now)
      ensures Flowed(old(groups)[g].Get(!bio.write), groups[g].Get(!bio.write), [], now)
    {
      hide Consistent, LaneOk, Cleared, Check, MayDispatch, Flowed, Within, Admitted, Asked;
      var w := bio.write;
      NothingFlowed(groups[g].Get(!w), now);
      GroupFacts(g, {});
      if NoRule(groups[g].Get(w).limit) {
        RulesKeepQueueEmpty(g, w);
        return false;
      }
      if groups[g].Get(w).nrQueued > 0 {
        NothingFlowed(Longer(groups[g].Get(w), bio), now);
        AddBio(g, bio);
        NothingWithin(c, groups[g].Get(w), groups[g].Get(w), now);
        return true;
      }
      ghost var l := groups[g].Get(w);
      var v := Ask(g, w, bio, now, {});
      FlowedLonger(l, groups[g].Get(w), bio, now);
      if v.ok {
        ghost var l1 := groups[g].Get(w);
        Admit(g, w, bio, now);
        AdmittedNow(c, l, l1, bio, now);
        GroupFacts(g, {});
        IsWithin(c, Longer(l, bio), groups[g].Get(w), [bio], clock, now);
        return false;
      }
      AddBio(g, bio);
      ghost var mid := groups[g];
      UpdateDisptime(g, now, {});
      FlowedQuietly(Longer(l, bio), mid.Get(w), groups[g].Get(w), [], now);
      NothingWithin(c, Longer(l, bio), groups[g].Get(w), now);
      assert {} - {g} == {};
      var _ := ScheduleNext(now);
      return true;
    }

    lemma RulesKeepQueueEmpty(g: Gid, w: bool)
      requires Valid() && g < |groups| && NoRule(groups[g].Get(w).limit)
      ensures groups[g].Get(w).queue == []
    {
    }

    /** throtl_charge_bio and throtl_trim_slice for a bio that does not have to wait. */
    method Admit(g: Gid, w: bool, bio: Bio, now: int)
      requires Valid() && clock == now && g < |groups| && Cleared(c, groups[g].Get(w), now, bio.size)
      modifies this`groups
      ensures Valid() && |groups| == |old(groups)|
      ensures groups == old(groups)[g := groups[g]]
      ensures groups[g] == old(groups)[g].Set(w, Admitted(c, old(groups)[g].Get(w), now, bio.size))
    {
      var l := groups[g].Get(w);
      LaneFacts(c, groups, clock, g, w);
      AdmittedKeeps(c, l, now, bio.size);
      LanesReplace(c, groups, now, now, g, w, Admitted(c, l, now, bio.size));
      TreeReplace(groups, tree, {}, g, w, Admitted(c, l, now, bio.size));
      hide LanesOk, TreeOk, SumQueued, LaneOk, Cleared;
      groups := groups[g := groups[g].Set(w, Admitted(c, l, now, bio.size))];
    }

    /**
     * The history of a lane up to a reachable state: `lanes` are its successive states and `outs[i]` is what the i-th
     * call let out of it at `times[i]`, while other bios joined. All that ever left it is within the limits.
     */
    lemma LaneBandwidth(g: Gid, w: bool, lanes: seq<Lane>, outs: seq<seq<Bio>>, times: seq<int>, t: int)
      requires Valid() && g < |groups| && |lanes| == |outs| + 1 == |times| + 1
      requires lanes[0].meter.log == [] && lanes[|outs|] == groups[g].Get(w)
      requires lanes[0].limit.bps != UNLIMITED_BPS || lanes[0].limit.iops != UNLIMITED_IOPS
      requires forall i :: 0 <= i < |outs| ==> OnMeter(lanes[i], lanes[i + 1], outs[i], times[i])
      requires (forall i :: 0 <= i < |times| ==> times[i] <= t) && Count(outs) > 0
      ensures var l, time := lanes[0].limit, t - groups[g].Get(w).meter.origin + SliceLen(c);
              c.hz * Load(outs) <= l.bps * time && c.hz * Count(outs) <= l.iops * time
      ensures lanes[0].meter.origin <= groups[g].Get(w).meter.origin
    {
      hide LanesOk, TreeOk, SumQueued, LaneOk, OnMeter, Load, Count;
      LaneFacts(c, groups, clock, g, w);
      HistoryFits(c, lanes, outs, times, clock, t);
    }

    lemma FrontIsBusy(now: int)
      requires Valid() && tree != []
      ensures tree[0] < |groups| && Busy(groups[tree[0]]) && groups[tree[0]].onRr
      ensures Sorted(groups, tree) && forall h :: h in tree ==> h < |groups|
    {
    }

    lemma GroupFacts(g: Gid, off: set<Gid>)
      requires Consistent(off) && g < |groups|
      ensures Sane(c) && LaneOk(c, groups[g].read, clock) && LaneOk(c, groups[g].write, clock)
      ensures groups[g].read.nrQueued == |groups[g].read.queue| && groups[g].write.nrQueued == |groups[g].write.queue|
    {
    }

    lemma Settle(g: Gid)
      requires Consistent({g}) && g < |groups| && !Busy(groups[g]) && !groups[g].onRr
      ensures Consistent({})
    {
    }
  }

  function Longer(l: Lane, bio: Bio): Lane { l.(queue := l.queue + [bio], nrQueued := l.nrQueued + 1) }

  function NewLane(l: Limit): Lane { Lane(l, Slice(0, 0, 0, 0), Meter(0, []), [], 0) }

  lemma {:induction false} SumQueuedAppend(gs: seq<Group>, x: Group, w: bool)
    ensures SumQueued(gs + [x], w) == SumQueued(gs, w) + |x.Get(w).queue|
  {
    if gs != [] {
      assert (gs + [x])[1..] == gs[1..] + [x];
      SumQueuedAppend(gs[1..], x, w);
    }
  }

  lemma AddGroupKeeps(c: Config, gs: seq<Group>, tree: seq<Gid>, r: Limit, w: Limit, clock: int)
    requires Sane(c) && LanesOk(c, gs, clock) && TreeOk(gs, tree, {}) && clock >= 0 && Positive(r) && Positive(w)
    ensures var gs' := gs + [Group(NewLane(r), NewLane(w), 0, false)];
            && LanesOk(c, gs', clock) && TreeOk(gs', tree, {})
            && SumQueued(gs', false) == SumQueued(gs, false) && SumQueued(gs', true) == SumQueued(gs, true)
  {
    var x := Group(NewLane(r), NewLane(w), 0, false);
    SumQueuedAppend(gs, x, false);
    SumQueuedAppend(gs, x, true);
    NewLaneOk(c, r, clock);
    NewLaneOk(c, w, clock);
    hide LaneOk;
  }

  lemma NoGroups(c: Config)
    requires Sane(c)
    ensures LanesOk(c, [], 0) && TreeOk([], [], {}) && SumQueued([], false) == 0 == SumQueued([], true)
  {
    hide LaneOk, Busy;
  }

  lemma NewLaneOk(c: Config, l: Limit, clock: int)
    requires Sane(c) && Positive(l) && clock >= 0
    ensures LaneOk(c, NewLane(l), clock)
  {
  }

  lemma AnyOff(gs: seq<Group>, tree: seq<Gid>, g: Gid)
    requires TreeOk(gs, tree, {})
    ensures TreeOk(gs, tree, {g})
  {
  }

  /** Bios wait somewhere exactly when some group is on the tree. */
  lemma TotalZero(gs: seq<Group>, tree: seq<Gid>)
    requires TreeOk(gs, tree, {})
    ensures SumQueued(gs, false) + SumQueued(gs, true) == 0 <==> tree == []
  {
    if tree == [] {
      forall g | 0 <= g < |gs| ensures gs[g].Get(false).queue == [] && gs[g].Get(true).queue == [] {
        assert !gs[g].onRr;
      }
      SumQueuedZero(gs, false);
      SumQueuedZero(gs, true);
    } else {
      SumQueuedMember(gs, tree[0], false);
      SumQueuedMember(gs, tree[0], true);
      assert tree[0] in tree;
    }
  }

  /** The groups on the tree whose dispatch time has come. */
  ghost function ReadySet(gs: seq<Group>, tree: seq<Gid>, now: int): set<Gid> {
    set g | g in tree && g < |gs| && gs[g].disptime <= now
  }

  lemma NoneReady(gs: seq<Group>, tree: seq<Gid>, now: int)
    requires Sorted(gs, tree) && (tree != [] ==> now < gs[tree[0]].disptime)
    ensures ReadySet(gs, tree, now) == {}
  {
    if tree != [] { HeadLeast(gs, tree); }
  }

  /** What was taken from every lane has left it in order and is on its meter. */
  ghost predicate Conserved(bl: seq<Entry>, gs: seq<Group>, was: seq<Group>, now: int) {
    && |gs| == |was|
    && forall h, w {:trigger Taken(bl, h, w)} :: 0 <= h < |gs| ==> Flowed(was[h].Get(w), gs[h].Get(w), Taken(bl, h, w), now)
  }

  lemma NothingTaken(gs: seq<Group>, now: int)
    ensures Conserved([], gs, gs, now)
  {
    forall h, w | 0 <= h < |gs| ensures Flowed(gs[h].Get(w), gs[h].Get(w), Taken([], h, w), now) {
      NothingFlowed(gs[h].Get(w), now);
    }
  }

  lemma Assoc<T>(a: seq<T>, b: seq<T>, c: seq<T>)
    ensures a + b + c == a + (b + c)
  {
  }

  lemma ConservedStep(bl: seq<Entry>, more: seq<Entry>, was: seq<Group>, gs: seq<Group>, gs': seq<Group>, g: Gid, now: int)
    requires Conserved(bl, gs, was, now) && g < |gs| == |gs'| && gs' == gs[g := gs'[g]]
    requires forall w :: Flowed(gs[g].Get(w), gs'[g].Get(w), Taken(more, g, w), now)
    requires forall h, w :: h != g ==> Taken(more, h, w) == []
    ensures Conserved(bl + more, gs', was, now)
  {
    forall h, w | 0 <= h < |gs'|
      ensures Flowed(was[h].Get(w), gs'[h].Get(w), Taken(bl + more, h, w), now)
    {
      hide Taken, Flowed;
      TakenConcat(bl, more, h, w);
      if h == g {
        FlowedOn(was[h].Get(w), gs[h].Get(w), gs'[h].Get(w), Taken(bl, h, w), Taken(more, h, w), now);
      } else {
        assert Taken(bl, h, w) + [] == Taken(bl, h, w);
      }
    }
  }

  lemma BothFlowed(x: Group, y: Group, z: Group, rs: seq<Bio>, ws: seq<Bio>, now: int)
    requires Flowed(x.read, y.read, rs, now) && Flowed(x.write, y.write, ws, now)
    requires Flowed(y.read, z.read, [], now) && Flowed(y.write, z.write, [], now)
    ensures Flowed(x.read, z.read, rs, now) && Flowed(x.write, z.write, ws, now)
  {
    hide Flowed;
    FlowedQuietly(x.read, y.read, z.read, rs, now);
    FlowedQuietly(x.write, y.write, z.write, ws, now);
  }

  lemma FlowedLonger(l: Lane, l': Lane, bio: Bio, now: int)
    requires Flowed(l, l', [], now)
    ensures Flowed(Longer(l, bio), Longer(l', bio), [], now)
  {
  }

  /** A bio that finds the lane empty and is let through at once. */
  lemma AdmittedNow(c: Config, l: Lane, l': Lane, bio: Bio, now: int)
    requires Sane(c) && Flowed(l, l', [], now) && l.queue == []
    ensures Flowed(Longer(l, bio), Admitted(c, l', now, bio.size), [bio], now)
  {
    assert Stamp(now, [bio]) == [(now, bio.size)] by { assert [bio][..0] == []; }
    hide Trim;
  }

  // ---------------------------------------------------------------- the bandwidth of a lane

  /** The bytes of bios. */
  function Volume(out: seq<Bio>): nat { if out == [] then 0 else Volume(out[..|out| - 1]) + out[|out| - 1].size }

  /**
   * If something has left a limited lane, then all that ever left it, up to and with `out`, is what the limits allow
   * from the start of the slice in which the first bio left until `now`, plus one slice.
   */
  predicate Within(c: Config, l: Lane, l': Lane, out: seq<Bio>, now: int) {
    Sane(c) && (!NoRule(l.limit) && out != [] ==>
      && Fits(c, l.limit.bps, Bytes(l.meter.log) + Volume(out), now - l'.meter.origin + SliceLen(c))
      && Fits(c, l.limit.iops, |l.meter.log| + |out|, now - l'.meter.origin + SliceLen(c)))
  }

  lemma {:induction false} BytesOfStamp(log: seq<(int, nat)>, now: int, out: seq<Bio>)
    ensures Bytes(log + Stamp(now, out)) == Bytes(log) + Volume(out)
    decreases |out|
  {
    if out == [] {
      assert log + Stamp(now, out) == log;
    } else {
      var init, last := out[..|out| - 1], out[|out| - 1];
      assert log + Stamp(now, out) == log + Stamp(now, init) + [(now, last.size)];
      BytesOfStamp(log, now, init);
      BytesAppend(log + Stamp(now, init), (now, last.size));
    }
  }

  /** Bytes and number of all bios of a history. */
  function Load(outs: seq<seq<Bio>>): nat { if outs == [] then 0 else Load(outs[..|outs| - 1]) + Volume(outs[|outs| - 1]) }

  function Count(outs: seq<seq<Bio>>): nat { if outs == [] then 0 else Count(outs[..|outs| - 1]) + |outs[|outs| - 1]| }

  lemma {:induction false} StampTimes(now: int, out: seq<Bio>)
    ensures forall i :: 0 <= i < |out| ==> Stamp(now, out)[i].0 == now
    decreases |out|
  {
    if out != [] { StampTimes(now, out[..|out| - 1]); }
  }

  /** The meter holds exactly the bios of the history. */
  lemma {:induction false} HistoryLog(lanes: seq<Lane>, outs: seq<seq<Bio>>, times: seq<int>, t: int)
    requires |lanes| == |outs| + 1 == |times| + 1 && lanes[0].meter.log == []
    requires forall i :: 0 <= i < |outs| ==> OnMeter(lanes[i], lanes[i + 1], outs[i], times[i])
    requires forall i :: 0 <= i < |times| ==> times[i] <= t
    ensures var l := lanes[|outs|];
            && l.limit == lanes[0].limit && lanes[0].meter.origin <= l.meter.origin
            && Bytes(l.meter.log) == Load(outs) && |l.meter.log| == Count(outs)
            && forall i :: 0 <= i < |l.meter.log| ==> l.meter.log[i].0 <= t
    decreases |outs|
  {
    if outs != [] {
      var n := |outs| - 1;
      HistoryLog(lanes[..n + 1], outs[..n], times[..n], t);
      assert OnMeter(lanes[n], lanes[n + 1], outs[n], times[n]);
      BytesOfStamp(lanes[n].meter.log, times[n], outs[n]);
      StampTimes(times[n], outs[n]);
      hide Stamp, Bytes, Volume;
    }
  }

  lemma HistoryFits(c: Config, lanes: seq<Lane>, outs: seq<seq<Bio>>, times: seq<int>, clock: int, t: int)
    requires Sane(c) && |lanes| == |outs| + 1 == |times| + 1 && lanes[0].meter.log == [] && !NoRule(lanes[0].limit)
    requires forall i :: 0 <= i < |outs| ==> OnMeter(lanes[i], lanes[i + 1], outs[i], times[i])
    requires (forall i :: 0 <= i < |times| ==> times[i] <= t) && Count(outs) > 0 && LaneOk(c, lanes[|outs|], clock)
    ensures var l, time := lanes[0].limit, t - lanes[|outs|].meter.origin + SliceLen(c);
            c.hz * Load(outs) <= l.bps * time && c.hz * Count(outs) <= l.iops * time
    ensures lanes[0].meter.origin <= lanes[|outs|].meter.origin
  {
    hide OnMeter, Load, Count, Bytes;
    HistoryLog(lanes, outs, times, t);
    var m, limit := lanes[|outs|].meter, lanes[0].limit;
    var k := |m.log|;
    assert ConformsAt(c, limit, m, k) && m.log[..k] == m.log;
    FitsLonger(c, limit.bps, Bytes(m.log), m.log[k - 1].0 - m.origin + SliceLen(c), t - m.origin + SliceLen(c));
    FitsLonger(c, limit.iops, k, m.log[k - 1].0 - m.origin + SliceLen(c), t - m.origin + SliceLen(c));
  }

  lemma IsWithin(c: Config, l: Lane, l': Lane, out: seq<Bio>, clock: int, now: int)
    requires Sane(c) && Flowed(l, l', out, now) && LaneOk(c, l', clock)
    ensures Within(c, l, l', out, now)
  {
    if !NoRule(l.limit) && out != [] {
      BytesOfStamp(l.meter.log, now, out);
      var log := l'.meter.log;
      assert log[|log| - 1].0 == now;
      assert ConformsAt(c, l.limit, l'.meter, |log|);
      assert log[..|log|] == log;
    }
  }

  lemma NothingWithin(c: Config, l: Lane, l': Lane, now: int)
    requires Sane(c)
    ensures Within(c, l, l', [], now)
  {
  }

  lemma AllWithin(c: Config, bl: seq<Entry>, gs: seq<Group>, was: seq<Group>, clock: int, now: int)
    requires Sane(c) && Conserved(bl, gs, was, now) && LanesOk(c, gs, clock)
    ensures forall h, w :: 0 <= h < |gs| ==> Within(c, was[h].Get(w), gs[h].Get(w), Taken(bl, h, w), now)
  {
    forall h, w | 0 <= h < |gs| ensures Within(c, was[h].Get(w), gs[h].Get(w), Taken(bl, h, w), now) {
      hide Taken, Flowed, Within, LaneOk;
      LaneFacts(c, gs, clock, h, w);
      IsWithin(c, was[h].Get(w), gs[h].Get(w), Taken(bl, h, w), clock, now);
    }
  }

  /** A group moved past now is no longer ready, and nothing else becomes ready. */
  lemma LessReady(gs: seq<Group>, tree: seq<Gid>, gs': seq<Group>, tree': seq<Gid>, g: Gid, now: int)
    requires g in tree && g < |gs| == |gs'| && gs[g].disptime <= now < gs'[g].disptime
    requires forall h :: 0 <= h < |gs| && h != g ==> gs'[h] == gs[h]
    requires forall h :: h in tree' ==> h in tree
    ensures ReadySet(gs', tree', now) < ReadySet(gs, tree, now)
  {
    assert g in ReadySet(gs, tree, now) && g !in ReadySet(gs', tree', now);
  }

  lemma StuckWaits(c: Config, x: Group, clock: int, now: int)
    requires Sane(c) && LaneOk(c, x.read, clock) && LaneOk(c, x.write, clock) && clock <= now && Busy(x)
    requires Stuck(c, x.read, now) && Stuck(c, x.write, now)
    ensures NextWait(c, x, now) >= 1
  {
    if x.read.queue != [] { AskedKeeps(c, x.read, clock, now, x.read.queue[0].size); }
    if x.write.queue != [] { AskedKeeps(c, x.write, clock, now, x.write.queue[0].size); }
  }

  /** Nothing at the front of the lane may leave it now. */
  predicate Stuck(c: Config, l: Lane, now: int)
    requires Sane(c)
  {
    l.queue != [] ==> Positive(l.limit) && !MayDispatch(c, l.limit, l.slice, now, l.queue[0].size).0.ok
  }

  function Sooner(a: Option<nat>, b: Option<nat>): nat
    requires a.Some? || b.Some?
  {
    if a.None? then b.value else if b.None? then a.value else Min(a.value, b.value)
  }

  lemma SoonerIs(a: Option<nat>, b: Option<nat>)
    ensures a.Some? || b.Some? ==> (Some(Sooner(a, b)) == a || Some(Sooner(a, b)) == b)
    ensures (a.Some? ==> Sooner(a, b) <= a.value) && (b.Some? ==> Sooner(a, b) <= b.value)
  {
  }

  lemma FreshStart(c: Config, l: Lane, now: int, size: nat)
    requires Sane(c) && Positive(l.limit) && !NoRule(l.limit)
    ensures MayDispatch(c, l.limit, l.slice, now, size).0.ok && !(l.slice.start <= now <= l.slice.end) ==>
              c.hz * size <= l.limit.bps * SliceLen(c) && c.hz <= l.limit.iops * SliceLen(c)
  {
    if MayDispatch(c, l.limit, l.slice, now, size).0.ok && !(l.slice.start <= now <= l.slice.end) {
      UsedSliceForgotten(c, l.limit, l.slice, now, size);
    }
  }

  /**
   * A group is not put on the tree for too late: when its time is no later than the wait of a lane, and the front of
   * that lane could leave at `u`, that time is at most a slice after `u`, and what a byte or a bio is worth.
   */
  lemma DisptimeNotLate(c: Config, l: Lane, clock: int, now: int, disptime: int, u: int)
    requires Sane(c) && LaneOk(c, l, clock) && clock <= now <= u && l.queue != []
    requires HeadWait(c, l, now).Some? && disptime <= now + HeadWait(c, l, now).value
    requires MayDispatch(c, l.limit, Asked(c, l, now, l.queue[0].size).slice, u, l.queue[0].size).0.ok
    ensures !TooLong(c, l.limit, disptime - u)
  {
    hide MayDispatch, Check, LaneOk, Asked, HeadWait, TooLong, SliceLen;
    AskedFacts(c, l, clock, now);
    var size, t := l.queue[0].size, Asked(c, l, now, l.queue[0].size).slice;
    if disptime > u {
      LaterCheck(c, l.limit, t, u, size);
      RefusedTooLong(c, l.limit, t, now, size, u);
      NoLonger(c, l.limit, disptime - u, now + Check(c, l.limit, t, now, size).wait - u);
    } else {
      NotLate(c, l.limit, disptime - u);
    }
  }

  /** `time` is more than a slice, and what a byte or a bio is worth. */
  predicate TooLong(c: Config, l: Limit, time: int)
    requires Sane(c)
  {
    l.bps * time > l.bps * SliceLen(c) + c.hz && l.iops * time > l.iops * (SliceLen(c) + 1)
  }

  lemma NoLonger(c: Config, l: Limit, a: int, b: int)
    requires Sane(c) && a <= b && !TooLong(c, l, b)
    ensures !TooLong(c, l, a)
  {
    MoreThan(l.bps, a, b);
    MoreThan(l.iops, a, b);
  }

  lemma NotLate(c: Config, l: Limit, a: int)
    requires Sane(c) && a <= 0
    ensures !TooLong(c, l, a)
  {
    MoreThan(l.bps, a, 0);
    MoreThan(l.bps, 0, SliceLen(c));
  }

  lemma AskedFacts(c: Config, l: Lane, clock: int, now: int)
    requires Sane(c) && LaneOk(c, l, clock) && clock <= now && l.queue != []
    ensures var size, t := l.queue[0].size, Asked(c, l, now, l.queue[0].size).slice;
            && Positive(l.limit) && !NoRule(l.limit) && t.start <= now
            && var v := Check(c, l.limit, t, now, size);
            HeadWait(c, l, now) == Some(v.wait) && if v.ok then v.wait == 0 else now + v.wait <= t.end
  {
    MayDispatchKeeps(c, l.limit, l.slice, l.meter, clock, now, l.queue[0].size);
    WaitInside(c, l.limit, l.slice, now, l.queue[0].size);
    hide MayDispatch, Check;
  }

  lemma MoreThan(rate: nat, a: int, b: int)
    requires a <= b
    ensures rate * a <= rate * b
  {
  }

  /** A refused lane keeps its slice to the end of the wait. */
  lemma WaitInside(c: Config, l: Limit, s: Slice, now: int, size: nat)
    requires Sane(c) && Positive(l) && !NoRule(l)
    ensures var (v, t) := MayDispatch(c, l, s, now, size); if v.ok then v.wait == 0 else now + v.wait <= t.end
  {
    var s1 := Renew(c, s, now);
    RenewInUse(c, s, now);
    var v := Check(c, l, s1, now, size);
    RoundUpBounds(now + v.wait, SliceLen(c));
    hide Renew, SliceLen;
  }

  lemma LaterCheck(c: Config, l: Limit, t: Slice, u: int, size: nat)
    requires Sane(c) && Positive(l) && !NoRule(l) && t.start <= u <= t.end && MayDispatch(c, l, t, u, size).0.ok
    ensures Check(c, l, t, u, size).ok
  {
  }

  lemma RefusedTooLong(c: Config, l: Limit, t: Slice, now: int, size: nat, u: int)
    requires Sane(c) && Positive(l) && t.start <= now <= u && !Check(c, l, t, now, size).ok && Check(c, l, t, u, size).ok
    ensures !TooLong(c, l, now + Check(c, l, t, now, size).wait - u)
  {
    if !WithinBps(c, l, t, now, size).ok {
      BpsWaitNotLong(c, l, t, now, size, u);
    } else {
      CountsBelow(c, l, t, u);
      IopsWaitNotLong(c, l, t, now, u);
      MoreThan(l.iops, now + WithinIops(c, l, t, now).wait - u, SliceLen(c) + 1);
    }
  }

  lemma CountsBelow(c: Config, l: Limit, t: Slice, u: int)
    requires Sane(c) && Positive(l) && t.start <= u && WithinIops(c, l, t, u).ok
    ensures t.ios < UINT_MAX
  {
  }

  function HeadWait(c: Config, l: Lane, now: int): Option<nat>
    requires Sane(c)
  {
    if l.queue == [] || !Positive(l.limit) then None
    else Some(MayDispatch(c, l.limit, l.slice, now, l.queue[0].size).0.wait)
  }

  /** How long until the first of the two bios at the front of a busy group may leave, as tg_may_dispatch sees it. */
  function NextWait(c: Config, x: Group, now: int): nat
    requires Sane(c)
  {
    var r, w := HeadWait(c, x.read, now), HeadWait(c, x.write, now);
    if r.None? && w.None? then 0 else Sooner(r, w)
  }

  lemma RetimeKeeps(c: Config, gs: seq<Group>, tree: seq<Gid>, off: set<Gid>, g: Gid, disptime: int, clock: int)
    requires Sane(c) && LanesOk(c, gs, clock) && TreeOk(gs, tree, off) && g < |gs| && g !in tree
    ensures var gs' := gs[g := gs[g].(disptime := disptime)];
            LanesOk(c, gs', clock) && TreeOk(gs', tree, off) && forall w :: SumQueued(gs', w) == SumQueued(gs, w)
  {
    var gs' := gs[g := gs[g].(disptime := disptime)];
    SumQueuedUpdate(gs, g, gs'[g], false);
    SumQueuedUpdate(gs, g, gs'[g], true);
    SameTimes(gs, gs', tree);
  }

  lemma RuledWhenQueued(c: Config, gs: seq<Group>, clock: int, g: Gid, w: bool)
    requires Sane(c) && LanesOk(c, gs, clock) && g < |gs| && gs[g].Get(w).queue != []
    ensures !NoRule(gs[g].Get(w).limit)
  {
  }

  lemma LaneFacts(c: Config, gs: seq<Group>, clock: int, g: Gid, w: bool)
    requires Sane(c) && LanesOk(c, gs, clock) && g < |gs|
    ensures LaneOk(c, gs[g].Get(w), clock)
  {
  }

  lemma InsertStep(gs: seq<Group>, tree: seq<Gid>, g: Gid, i: nat)
    requires g < |gs| && (forall k :: 0 <= k < |tree| ==> tree[k] < |gs|) && i < |tree|
    requires !(gs[g].disptime < gs[tree[i]].disptime)
    ensures tree[..i] + Insert(gs, tree[i..], g) == tree[..i + 1] + Insert(gs, tree[i + 1..], g)
  {
    var t := tree[i..];
    assert t[0] == tree[i] && t[1..] == tree[i + 1..];
    var x := Insert(gs, tree[i + 1..], g);
    assert Insert(gs, t, g) == [tree[i]] + x;
    hide Insert;
    assert tree[..i + 1] == tree[..i] + [tree[i]];
    Assoc(tree[..i], [tree[i]], x);
  }

  lemma InsertHere(gs: seq<Group>, tree: seq<Gid>, g: Gid, i: nat)
    requires g < |gs| && (forall k :: 0 <= k < |tree| ==> tree[k] < |gs|) && i <= |tree|
    requires i == |tree| || gs[g].disptime < gs[tree[i]].disptime
    ensures tree[..i] + [g] + tree[i..] == tree[..i] + Insert(gs, tree[i..], g)
  {
    if i < |tree| { assert tree[i..][0] == tree[i]; }
  }

  lemma RrLanes(c: Config, gs: seq<Group>, clock: int, g: Gid, onRr: bool)
    requires Sane(c) && LanesOk(c, gs, clock) && g < |gs|
    ensures LanesOk(c, gs[g := gs[g].(onRr := onRr)], clock)
  {
    hide LaneOk;
  }

  lemma EnqueueKeeps(gs: seq<Group>, tree: seq<Gid>, g: Gid, off: set<Gid>)
    requires TreeOk(gs, tree, off) && g < |gs| && !gs[g].onRr && Busy(gs[g])
    ensures var gs' := gs[g := gs[g].(onRr := true)];
            && TreeOk(gs', Insert(gs, tree, g), off - {g})
            && forall w :: SumQueued(gs', w) == SumQueued(gs, w)
  {
    var gs' := gs[g := gs[g].(onRr := true)];
    InsertSorted(gs, tree, g);
    InsertNoDup(gs, tree, g);
    SumQueuedUpdate(gs, g, gs'[g], false);
    SumQueuedUpdate(gs, g, gs'[g], true);
    SameTimes(gs, gs', Insert(gs, tree, g));
  }

  lemma StaysOn(gs: seq<Group>, tree: seq<Gid>, g: Gid, off: set<Gid>)
    requires TreeOk(gs, tree, off) && g < |gs| && gs[g].onRr && Busy(gs[g])
    ensures TreeOk(gs, tree, off - {g})
  {
    hide Sorted, NoDup, Busy;
  }

  lemma NotOnTree(gs: seq<Group>, tree: seq<Gid>, g: Gid, off: set<Gid>)
    requires TreeOk(gs, tree, off) && g < |gs| && !gs[g].onRr
    ensures Sorted(gs, tree) && g !in tree
  {
  }

  lemma DequeueKeeps(gs: seq<Group>, tree: seq<Gid>, g: Gid, off: set<Gid>)
    requires TreeOk(gs, tree, off) && g < |gs| && gs[g].onRr
    ensures var gs' := gs[g := gs[g].(onRr := false)];
            && TreeOk(gs', Without(tree, g), off + {g})
            && forall w :: SumQueued(gs', w) == SumQueued(gs, w)
  {
    var gs' := gs[g := gs[g].(onRr := false)];
    WithoutSorted(gs, tree, g);
    SumQueuedUpdate(gs, g, gs'[g], false);
    SumQueuedUpdate(gs, g, gs'[g], true);
    SameTimes(gs, gs', Without(tree, g));
  }

  /** The order depends on the dispatch times of the members only. */
  lemma SameTimes(gs: seq<Group>, gs': seq<Group>, tree: seq<Gid>)
    requires Sorted(gs, tree) && |gs'| == |gs|
    requires forall g :: g in tree && 0 <= g < |gs| ==> gs'[g].disptime == gs[g].disptime
    ensures Sorted(gs', tree)
  {
  }
}
