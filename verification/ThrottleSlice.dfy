/**
 * The slice arithmetic of omap/block/blk-throttle.c for one group and one direction.
 *
 * A direction is charged per slice; trimming hands back whole elapsed slices, and the elapsed time is rounded
 * up to a slice before it is turned into an allowance. Integers are unbounded; `jiffies` is the parameter `now`.
 */
module ThrottleSlice {
  import opened Arith
  import opened Common

  /** HZ; throtl_slice is a tenth of a second. */
  datatype Config = Config(hz: nat)

  predicate Sane(c: Config) { c.hz >= 10 }

  function SliceLen(c: Config): (r: nat)
    requires Sane(c)
    ensures r > 0
  {
    c.hz / 10
  }

  const UNLIMITED_BPS: nat := 0xFFFF_FFFF_FFFF_FFFF
  const UNLIMITED_IOPS: nat := 0xFFFF_FFFF
  const UINT_MAX: nat := 0xFFFF_FFFF

  datatype Limit = Limit(bps: nat, iops: nat)

  /** tg_no_rule_group */
  predicate NoRule(l: Limit) { l.bps == UNLIMITED_BPS && l.iops == UNLIMITED_IOPS }

  predicate Positive(l: Limit) { l.bps > 0 && l.iops > 0 }

  datatype Slice = Slice(start: int, end: int, bytes: nat, ios: nat)

  datatype Verdict = Verdict(ok: bool, wait: nat)

  /** throtl_start_new_slice */
  function NewSlice(c: Config, now: int): Slice
    requires Sane(c)
  {
    Slice(now, now + SliceLen(c), 0, 0)
  }

  /** throtl_slice_used */
  predicate Used(s: Slice, now: int) { !(s.start <= now <= s.end) }

  /** throtl_extend_slice and throtl_set_slice_end */
  function SetEnd(c: Config, s: Slice, end: int): Slice
    requires Sane(c)
  {
    s.(end := RoundUp(end, SliceLen(c)))
  }

  /** The elapsed time as the limit checks see it. */
  function Elapsed(c: Config, s: Slice, now: int): int
    requires Sane(c)
  {
    RoundUp(if now == s.start then SliceLen(c) else now - s.start, SliceLen(c))
  }

  function Allowance(c: Config, rate: nat, elapsed: int): (r: int)
    requires Sane(c)
  {
    rate * elapsed / c.hz
  }

  /** tg_with_in_iops_limit */
  function WithinIops(c: Config, l: Limit, s: Slice, now: int): Verdict
    requires Sane(c) && Positive(l) && s.start <= now
  {
    var allowed := Min(Allowance(c, l.iops, Elapsed(c, s, now)), UINT_MAX);
    if s.ios + 1 <= allowed then Verdict(true, 0)
    else
      var wait := (s.ios + 1) * c.hz / l.iops + 1;
      Verdict(false, if wait > now - s.start then wait - (now - s.start) else 1)
  }

  /** tg_with_in_bps_limit */
  function WithinBps(c: Config, l: Limit, s: Slice, now: int, size: nat): Verdict
    requires Sane(c) && Positive(l) && s.start <= now
  {
    var rnd := Elapsed(c, s, now);
    var allowed := Allowance(c, l.bps, rnd);
    if s.bytes + size <= allowed then Verdict(true, 0)
    else
      var extra := s.bytes + size - allowed;
      ElapsedRounds(c, s, now);
      var wait := Max(extra * c.hz / l.bps, 1);
      Verdict(false, wait + (rnd - (now - s.start)))
  }

  /** The slice tg_may_dispatch works on: a new one, or the old one reaching a slice beyond `now`. */
  function Renew(c: Config, s: Slice, now: int): Slice
    requires Sane(c)
  {
    if Used(s, now) then NewSlice(c, now)
    else if s.end < now + SliceLen(c) then SetEnd(c, s, now + SliceLen(c))
    else s
  }

  /** The wait of tg_may_dispatch; the iops check is skipped when the bps check fails. */
  function Check(c: Config, l: Limit, s: Slice, now: int, size: nat): Verdict
    requires Sane(c) && Positive(l) && s.start <= now
  {
    var b := WithinBps(c, l, s, now, size);
    if b.ok then WithinIops(c, l, s, now) else b
  }

  /** tg_may_dispatch: the verdict and the slice it leaves. */
  function MayDispatch(c: Config, l: Limit, s: Slice, now: int, size: nat): (r: (Verdict, Slice))
    requires Sane(c) && Positive(l)
  {
    if NoRule(l) then (Verdict(true, 0), s)
    else
      var s1 := Renew(c, s, now);
      var v := Check(c, l, s1, now, size);
      (v, if !v.ok && s1.end < now + v.wait then SetEnd(c, s1, now + v.wait) else s1)
  }

  /** throtl_charge_bio */
  function Charge(s: Slice, size: nat): Slice {
    s.(bytes := s.bytes + size, ios := s.ios + 1)
  }

  /** throtl_trim_slice */
  function Trim(c: Config, l: Limit, s: Slice, now: int): (r: Slice)
    requires Sane(c)
  {
    if Used(s, now) then s
    else
      var s1 := SetEnd(c, s, now + SliceLen(c));
      var n := (now - s.start) / SliceLen(c);
      var bytesTrim := l.bps * SliceLen(c) * n / c.hz;
      var ioTrim := l.iops * SliceLen(c) * n / c.hz;
      if n == 0 || (bytesTrim == 0 && ioTrim == 0) then s1
      else s1.(bytes := if s.bytes >= bytesTrim then s.bytes - bytesTrim else 0,
               ios := if s.ios >= ioTrim then s.ios - ioTrim else 0,
               start := s.start + n * SliceLen(c))
  }

  /** The rounded elapsed time is at least the elapsed time, at least a slice, and at most a slice ahead of the clock. */
  lemma ElapsedRounds(c: Config, s: Slice, now: int)
    requires Sane(c) && s.start <= now
    ensures now - s.start <= Elapsed(c, s, now) <= now - s.start + SliceLen(c)
    ensures Elapsed(c, s, now) >= SliceLen(c)
    ensures Elapsed(c, s, now) % SliceLen(c) == 0
  {
    var y := SliceLen(c);
    var x := if now == s.start then y else now - s.start;
    RoundUpBounds(x, y);
    PositiveMultiple(RoundUp(x, y), y);
    if now == s.start { DivUnique(y + y - 1, y, 1, y - 1); }
  }

  // ---------------------------------------------------------------- the bandwidth bound

  /** What the device saw of one direction: the start of the first slice and every bio let through, with its time. */
  datatype Meter = Meter(origin: int, log: seq<(int, nat)>)

  function Bytes(log: seq<(int, nat)>): (r: nat) {
    if log == [] then 0 else Bytes(log[..|log| - 1]) + log[|log| - 1].1
  }

  /** The time of the last dispatch, or a slice before the origin. */
  function Last(c: Config, m: Meter): int
    requires Sane(c)
  {
    if m.log == [] then m.origin - SliceLen(c) else m.log[|m.log| - 1].0
  }

  /** `amount` is what a rate of `rate` per second allows in `time` jiffies. */
  predicate Fits(c: Config, rate: nat, amount: int, time: int) { c.hz * amount <= rate * time }

  /** By the time of its `k`th bio a direction had let through no more than the rates allow since the origin, plus a slice. */
  predicate ConformsAt(c: Config, l: Limit, m: Meter, k: nat)
    requires Sane(c) && 0 < k <= |m.log|
  {
    && Fits(c, l.bps, Bytes(m.log[..k]), m.log[k - 1].0 - m.origin + SliceLen(c))
    && Fits(c, l.iops, k, m.log[k - 1].0 - m.origin + SliceLen(c))
  }

  ghost predicate Conforms(c: Config, l: Limit, m: Meter)
    requires Sane(c)
  {
    forall k: nat :: 0 < k <= |m.log| ==> ConformsAt(c, l, m, k)
  }

  /** The slice accounts for all that passed: what it no longer remembers fits before its start. */
  ghost predicate Metered(c: Config, l: Limit, s: Slice, m: Meter, clock: int)
    requires Sane(c)
  {
    && s.start <= s.end && m.origin <= s.start <= clock && Last(c, m) <= clock
    && Fits(c, l.bps, Bytes(m.log) - s.bytes, s.start - m.origin)
    && Fits(c, l.iops, |m.log| - s.ios, s.start - m.origin)
    && Fits(c, l.bps, Bytes(m.log), Last(c, m) - m.origin + SliceLen(c))
    && Fits(c, l.iops, |m.log|, Last(c, m) - m.origin + SliceLen(c))
    && Last(c, m) + SliceLen(c) <= s.end
    && Conforms(c, l, m)
  }

  /** Until something passes, the origin is the start of the current slice. */
  function Observe(m: Meter, s: Slice): Meter {
    if m.log == [] then m.(origin := s.start) else m
  }

  function Record(m: Meter, now: int, size: nat): Meter { m.(log := m.log + [(now, size)]) }

  lemma FitsLonger(c: Config, rate: nat, amount: int, time: int, time': int)
    requires Fits(c, rate, amount, time) && time <= time'
    ensures Fits(c, rate, amount, time')
  {
    MulMono(rate, time, time');
  }

  lemma FitsAdd(c: Config, rate: nat, a: int, b: int, ta: int, tb: int)
    requires Fits(c, rate, a, ta) && Fits(c, rate, b, tb)
    ensures Fits(c, rate, a + b, ta + tb)
  {
    assert c.hz * (a + b) == c.hz * a + c.hz * b;
    assert rate * (ta + tb) == rate * ta + rate * tb;
  }

  lemma AllowanceFits(c: Config, rate: nat, amount: int, elapsed: int)
    requires Sane(c) && elapsed >= 0
    ensures amount <= Allowance(c, rate, elapsed) <==> Fits(c, rate, amount, elapsed)
  {
    var a := Allowance(c, rate, elapsed);
    DivBounds(rate * elapsed, c.hz);
    if amount <= a { MulMono(c.hz, amount, a); } else { MulMono(c.hz, a + 1, amount); }
  }

  lemma RenewKeeps(c: Config, l: Limit, s: Slice, m: Meter, clock: int, now: int)
    requires Sane(c) && Metered(c, l, s, m, clock) && clock <= now
    ensures var t := Renew(c, s, now);
            && Metered(c, l, t, Observe(m, t), now)
            && now + SliceLen(c) <= t.end
  {
    RoundUpBounds(now + SliceLen(c), SliceLen(c));
    if Used(s, now) && m.log != [] {
      FitsLonger(c, l.bps, Bytes(m.log), Last(c, m) - m.origin + SliceLen(c), now - m.origin);
      FitsLonger(c, l.iops, |m.log|, Last(c, m) - m.origin + SliceLen(c), now - m.origin);
    }
  }

  lemma SetEndKeeps(c: Config, l: Limit, s: Slice, m: Meter, now: int, end: int)
    requires Sane(c) && Metered(c, l, s, m, now) && s.end < end
    ensures Metered(c, l, SetEnd(c, s, end), m, now) && s.end < SetEnd(c, s, end).end
  {
    RoundUpBounds(end, SliceLen(c));
  }

  lemma MayDispatchKeeps(c: Config, l: Limit, s: Slice, m: Meter, clock: int, now: int, size: nat)
    requires Sane(c) && Positive(l) && !NoRule(l) && Metered(c, l, s, m, clock) && clock <= now
    ensures var (v, t) := MayDispatch(c, l, s, now, size);
            && Metered(c, l, t, Observe(m, t), now)
            && now + SliceLen(c) <= t.end && !Used(t, now)
            && v == Check(c, l, t, now, size)
  {
    RenewKeeps(c, l, s, m, clock, now);
    var s1 := Renew(c, s, now);
    var v := Check(c, l, s1, now, size);
    if !v.ok && s1.end < now + v.wait { SetEndKeeps(c, l, s1, Observe(m, s1), now, now + v.wait); }
  }

  /** A bio that passes the check fits between the start of the slice and a slice after now. */
  lemma CheckFits(c: Config, l: Limit, s: Slice, now: int, size: nat)
    requires Sane(c) && Positive(l) && s.start <= now && Check(c, l, s, now, size).ok
    ensures Fits(c, l.bps, s.bytes + size, now - s.start + SliceLen(c))
    ensures Fits(c, l.iops, s.ios + 1, now - s.start + SliceLen(c))
  {
    var e := Elapsed(c, s, now);
    ElapsedRounds(c, s, now);
    AllowanceFits(c, l.bps, s.bytes + size, e);
    AllowanceFits(c, l.iops, s.ios + 1, e);
    FitsLonger(c, l.bps, s.bytes + size, e, now - s.start + SliceLen(c));
    FitsLonger(c, l.iops, s.ios + 1, e, now - s.start + SliceLen(c));
  }

  lemma BytesAppend(log: seq<(int, nat)>, x: (int, nat))
    ensures Bytes(log + [x]) == Bytes(log) + x.1
  {
    assert (log + [x])[..|log|] == log;
  }

  lemma RecordConforms(c: Config, l: Limit, m: Meter, now: int, size: nat)
    requires Sane(c) && Conforms(c, l, m)
    requires Fits(c, l.bps, Bytes(m.log) + size, now - m.origin + SliceLen(c))
    requires Fits(c, l.iops, |m.log| + 1, now - m.origin + SliceLen(c))
    ensures Conforms(c, l, Record(m, now, size))
  {
    var m' := Record(m, now, size);
    BytesAppend(m.log, (now, size));
    hide Bytes, Fits;
    forall k: nat | 0 < k <= |m'.log| ensures ConformsAt(c, l, m', k) {
      if k <= |m.log| {
        assert ConformsAt(c, l, m, k);
        assert m'.log[..k] == m.log[..k] && m'.log[k - 1] == m.log[k - 1];
      } else {
        assert m'.log[..k] == m'.log;
      }
    }
  }

  /** Letting a checked bio through keeps the accounts. */
  lemma ChargeKeeps(c: Config, l: Limit, s: Slice, m: Meter, now: int, size: nat)
    requires Sane(c) && Positive(l) && Metered(c, l, s, m, now) && now + SliceLen(c) <= s.end
    requires Check(c, l, s, now, size).ok
    ensures Metered(c, l, Charge(s, size), Record(m, now, size), now)
  {
    var y := SliceLen(c);
    CheckFits(c, l, s, now, size);
    FitsAdd(c, l.bps, Bytes(m.log) - s.bytes, s.bytes + size, s.start - m.origin, now - s.start + y);
    FitsAdd(c, l.iops, |m.log| - s.ios, s.ios + 1, s.start - m.origin, now - s.start + y);
    RecordConforms(c, l, m, now, size);
    BytesAppend(m.log, (now, size));
  }

  lemma MulSwap(a: int, b: int, n: int)
    ensures a * b * n == a * (n * b)
  {
    assert b * n == n * b;
  }

  lemma TrimFits(c: Config, rate: nat, n: nat)
    requires Sane(c)
    ensures 0 <= rate * SliceLen(c) * n / c.hz
    ensures Fits(c, rate, rate * SliceLen(c) * n / c.hz, n * SliceLen(c))
  {
    hide SliceLen;
    MulSwap(rate, SliceLen(c), n);
    AllowanceFits(c, rate, Allowance(c, rate, n * SliceLen(c)), n * SliceLen(c));
  }

  lemma FitsLess(c: Config, rate: nat, amount: int, amount': int, time: int)
    requires Fits(c, rate, amount, time) && amount' <= amount
    ensures Fits(c, rate, amount', time)
  {
    MulMono(c.hz, amount', amount);
  }

  /** The amount a lane forgets when it skips `n` slices is worth no more than their time. */
  lemma TrimOne(c: Config, rate: nat, total: nat, seen: nat, before: int, n: nat)
    requires Sane(c) && Fits(c, rate, total - seen, before)
    ensures var trim := rate * SliceLen(c) * n / c.hz;
            trim >= 0 && Fits(c, rate, total - Max(seen - trim, 0), before + n * SliceLen(c))
  {
    var trim := rate * SliceLen(c) * n / c.hz;
    TrimFits(c, rate, n);
    FitsAdd(c, rate, total - seen, trim, before, n * SliceLen(c));
    FitsLess(c, rate, total - seen + trim, total - Max(seen - trim, 0), before + n * SliceLen(c));
  }

  /** What trimming does to a slice in use: nothing but a new end, or `n` whole slices are skipped and paid for. */
  lemma TrimShape(c: Config, l: Limit, s: Slice, now: int) returns (n: nat)
    requires Sane(c) && !Used(s, now)
    ensures var t := Trim(c, l, s, now);
            && t.end >= now + SliceLen(c)
            && s.start + n * SliceLen(c) <= now && n * SliceLen(c) >= 0
            && ( || (t.start == s.start && t.bytes == s.bytes && t.ios == s.ios)
                 || (&& t.start == s.start + n * SliceLen(c)
                     && t.bytes == Max(s.bytes - l.bps * SliceLen(c) * n / c.hz, 0)
                     && t.ios == Max(s.ios - l.iops * SliceLen(c) * n / c.hz, 0)))
  {
    var y := SliceLen(c);
    RoundUpBounds(now + y, y);
    DivBounds(now - s.start, y);
    n := (now - s.start) / y;
    MulMono(y, 0, n);
  }

  /** Trimming forgets no more than the time it skips is worth. */
  lemma TrimKeeps(c: Config, l: Limit, s: Slice, m: Meter, now: int)
    requires Sane(c) && Metered(c, l, s, m, now)
    ensures Metered(c, l, Trim(c, l, s, now), m, now)
    ensures !Used(s, now) ==> now + SliceLen(c) <= Trim(c, l, s, now).end
  {
    if !Used(s, now) {
      var n := TrimShape(c, l, s, now);
      TrimOne(c, l.bps, Bytes(m.log), s.bytes, s.start - m.origin, n);
      TrimOne(c, l.iops, |m.log|, s.ios, s.start - m.origin, n);
      hide Trim, Fits, Bytes, Last, Conforms, SliceLen;
    }
  }

  // ---------------------------------------------------------------- whole runs of one direction

  /** tg_may_dispatch alone (tg_update_disptime), or followed by the dispatch of the bio it admits. */
  datatype Op = Probe(now: int, size: nat) | Dispatch(now: int, size: nat)

  /** One operation on a direction. */
  function Step(c: Config, l: Limit, s: Slice, m: Meter, op: Op): (Slice, Meter)
    requires Sane(c) && Positive(l)
  {
    var (v, t) := MayDispatch(c, l, s, op.now, op.size);
    var m1 := Observe(m, t);
    if op.Dispatch? && v.ok then (Trim(c, l, Charge(t, op.size), op.now), Record(m1, op.now, op.size)) else (t, m1)
  }

  function Run(c: Config, l: Limit, s: Slice, m: Meter, ops: seq<Op>): (Slice, Meter)
    requires Sane(c) && Positive(l)
    decreases |ops|
  {
    if ops == [] then (s, m) else
    var (s1, m1) := Step(c, l, s, m, ops[0]);
    Run(c, l, s1, m1, ops[1..])
  }

  /** jiffies never go back. */
  predicate Ordered(clock: int, ops: seq<Op>)
    decreases |ops|
  {
    ops == [] || (clock <= ops[0].now && Ordered(ops[0].now, ops[1..]))
  }

  lemma StepKeeps(c: Config, l: Limit, s: Slice, m: Meter, clock: int, op: Op)
    requires Sane(c) && Positive(l) && !NoRule(l) && Metered(c, l, s, m, clock) && clock <= op.now
    ensures var (s', m') := Step(c, l, s, m, op); Metered(c, l, s', m', op.now)
  {
    MayDispatchKeeps(c, l, s, m, clock, op.now, op.size);
    var (v, t) := MayDispatch(c, l, s, op.now, op.size);
    if op.Dispatch? && v.ok {
      ChargeKeeps(c, l, t, Observe(m, t), op.now, op.size);
      TrimKeeps(c, l, Charge(t, op.size), Record(Observe(m, t), op.now, op.size), op.now);
    }
  }

  /** The origin never moves back. */
  lemma StepForward(c: Config, l: Limit, s: Slice, m: Meter, clock: int, op: Op)
    requires Sane(c) && Positive(l) && Metered(c, l, s, m, clock) && clock <= op.now
    ensures m.origin <= Step(c, l, s, m, op).1.origin
  {
    hide Check, Trim, Conforms, Fits;
  }

  lemma {:induction false} RunKeeps(c: Config, l: Limit, s: Slice, m: Meter, clock: int, ops: seq<Op>)
    requires Sane(c) && Positive(l) && !NoRule(l) && Metered(c, l, s, m, clock) && Ordered(clock, ops)
    ensures Conforms(c, l, Run(c, l, s, m, ops).1) && m.origin <= Run(c, l, s, m, ops).1.origin
    decreases |ops|
  {
    if ops != [] {
      StepKeeps(c, l, s, m, clock, ops[0]);
      StepForward(c, l, s, m, clock, ops[0]);
      hide Metered, Step;
      var (s1, m1) := Step(c, l, s, m, ops[0]);
      RunKeeps(c, l, s1, m1, ops[0].now, ops[1..]);
    }
  }

  /**
   * The bandwidth bound: however often slices are trimmed, extended or restarted, the `k` bios let through by
   * time `t` carry at most what the rates allow from the first slice start to `t`, plus one slice. The bound holds
   * even from the start of the slice in which the first of them passed, which is no earlier.
   */
  lemma BandwidthBound(c: Config, l: Limit, start: int, ops: seq<Op>, k: nat, t: int)
    requires Sane(c) && Positive(l) && (l.bps != UNLIMITED_BPS || l.iops != UNLIMITED_IOPS) && Ordered(start, ops)
    ensures var m := Run(c, l, NewSlice(c, start), Meter(start, []), ops).1;
            0 < k <= |m.log| && m.log[k - 1].0 <= t ==>
              && start <= m.origin
              && c.hz * Bytes(m.log[..k]) <= l.bps * (t - m.origin + SliceLen(c)) <= l.bps * (t - start + SliceLen(c))
              && c.hz * k <= l.iops * (t - m.origin + SliceLen(c)) <= l.iops * (t - start + SliceLen(c))
  {
    RunKeeps(c, l, NewSlice(c, start), Meter(start, []), start, ops);
    var m := Run(c, l, NewSlice(c, start), Meter(start, []), ops).1;
    if 0 < k <= |m.log| && m.log[k - 1].0 <= t {
      assert ConformsAt(c, l, m, k);
      FitsLonger(c, l.bps, Bytes(m.log[..k]), m.log[k - 1].0 - m.origin + SliceLen(c), t - m.origin + SliceLen(c));
      FitsLonger(c, l.iops, k, m.log[k - 1].0 - m.origin + SliceLen(c), t - m.origin + SliceLen(c));
      MulMono(l.bps, t - m.origin + SliceLen(c), t - start + SliceLen(c));
      MulMono(l.iops, t - m.origin + SliceLen(c), t - start + SliceLen(c));
    }
  }

  // ---------------------------------------------------------------- no credit for idle time

  /** A bio that is let through when the slice has run out fits into one new slice, however long the lane was idle. */
  lemma UsedSliceForgotten(c: Config, l: Limit, s: Slice, now: int, size: nat)
    requires Sane(c) && Positive(l) && (l.bps != UNLIMITED_BPS || l.iops != UNLIMITED_IOPS) && !(s.start <= now <= s.end)
    requires MayDispatch(c, l, s, now, size).0.ok
    ensures c.hz * size <= l.bps * SliceLen(c) && c.hz <= l.iops * SliceLen(c)
  {
    CheckFits(c, l, NewSlice(c, now), now, size);
  }

  /**
   * When a bio may leave: in a slice that has run out, exactly if it fits into one slice; else exactly if with it all
   * that was charged fits into the time since the start, rounded up to whole slices and at least one.
   */
  lemma MayDispatchIff(c: Config, l: Limit, s: Slice, now: int, size: nat)
    requires Sane(c) && Positive(l) && (l.bps != UNLIMITED_BPS || l.iops != UNLIMITED_IOPS) && s.ios < UINT_MAX
    ensures !(s.start <= now <= s.end) ==>
              (MayDispatch(c, l, s, now, size).0.ok <==> c.hz * size <= l.bps * SliceLen(c) && c.hz <= l.iops * SliceLen(c))
    ensures s.start <= now <= s.end ==>
              (MayDispatch(c, l, s, now, size).0.ok <==>
                 (s.bytes + size) * c.hz <= l.bps * Elapsed(c, s, now) && (s.ios + 1) * c.hz <= l.iops * Elapsed(c, s, now))
  {
    var s1 := Renew(c, s, now);
    RenewInUse(c, s, now);
    BpsPasses(c, l, s1, now, size);
    IopsPasses(c, l, s1, now);
    if !(s.start <= now <= s.end) {
      NewElapsed(c, now);
    }
    hide Elapsed, WithinBps, WithinIops;
  }

  lemma NewElapsed(c: Config, now: int)
    requires Sane(c)
    ensures Elapsed(c, NewSlice(c, now), now) == SliceLen(c)
  {
    var y := SliceLen(c);
    DivUnique(y + y - 1, y, 1, y - 1);
  }

  /** A slice never reaches far: to the end of the wait or of the slice length, rounded up to a whole slice. */
  lemma SliceEndsSoon(c: Config, l: Limit, s: Slice, now: int, size: nat)
    requires Sane(c) && Positive(l) && (l.bps != UNLIMITED_BPS || l.iops != UNLIMITED_IOPS)
    ensures var (v, t) := MayDispatch(c, l, s, now, size);
            && now + SliceLen(c) <= t.end
            && (!(s.start <= now <= s.end) ==> t.start == now && t.end < now + Max(v.wait, SliceLen(c)) + SliceLen(c))
            && (s.start <= now <= s.end ==> t.start == s.start && (t.end == s.end || t.end < now + Max(v.wait, SliceLen(c)) + SliceLen(c)))
  {
    var y, s1 := SliceLen(c), Renew(c, s, now);
    var v := Check(c, l, s1, now, size);
    RoundUpBounds(now + y, y);
    RoundUpBounds(now + v.wait, y);
    hide Check, RoundUp, SliceLen;
  }

  /** What a lane does depends on its slice only; the meter is a record. */
  lemma {:induction false} RunRecords(c: Config, l: Limit, s: Slice, m: Meter, m': Meter, ops: seq<Op>)
    requires Sane(c) && Positive(l)
    ensures Run(c, l, s, m, ops).0 == Run(c, l, s, m', ops).0
    ensures m.log <= Run(c, l, s, m, ops).1.log && m'.log <= Run(c, l, s, m', ops).1.log
    ensures Run(c, l, s, m, ops).1.log[|m.log|..] == Run(c, l, s, m', ops).1.log[|m'.log|..]
    decreases |ops|
  {
    hide MayDispatch, Trim;
    if ops != [] {
      var (t, n) := Step(c, l, s, m, ops[0]);
      var (t', n') := Step(c, l, s, m', ops[0]);
      RunRecords(c, l, t, n, n', ops[1..]);
      hide Step, Run;
      RecordsTail(m.log, n.log, Run(c, l, t, n, ops[1..]).1.log, m'.log, n'.log, Run(c, l, t, n', ops[1..]).1.log);
    }
  }

  lemma RecordsTail(a: seq<(int, nat)>, b: seq<(int, nat)>, r: seq<(int, nat)>, a': seq<(int, nat)>, b': seq<(int, nat)>, r': seq<(int, nat)>)
    requires a <= b <= r && a' <= b' <= r' && b[|a|..] == b'[|a'|..] && r[|b|..] == r'[|b'|..]
    ensures r[|a|..] == r'[|a'|..]
  {
    assert r[|a|..] == b[|a|..] + r[|b|..];
    assert r'[|a'|..] == b'[|a'|..] + r'[|b'|..];
  }

  lemma {:induction false} RunSplits(c: Config, l: Limit, s: Slice, m: Meter, a: seq<Op>, b: seq<Op>)
    requires Sane(c) && Positive(l)
    ensures var (t, n) := Run(c, l, s, m, a); Run(c, l, s, m, a + b) == Run(c, l, t, n, b)
    decreases |a|
  {
    if a == [] {
      assert a + b == b;
    } else {
      assert (a + b)[1..] == a[1..] + b;
      var (s1, m1) := Step(c, l, s, m, a[0]);
      RunSplits(c, l, s1, m1, a[1..], b);
    }
  }

  lemma FreshMeter(c: Config, l: Limit, s: Slice, clock: int)
    requires Sane(c) && s.start <= s.end && s.start <= clock
    ensures Metered(c, l, s, Meter(s.start, []), clock)
  {
    MulMono(l.bps, 0, 0);
    assert c.hz * (0 - s.bytes) <= 0 && c.hz * (0 - s.ios) <= 0;
  }

  /** From any moment on, what is let through fits from the start of the slice then in use. */
  lemma WindowFits(c: Config, l: Limit, s: Slice, clock: int, ops: seq<Op>, k: nat, t: int)
    requires Sane(c) && Positive(l) && !NoRule(l) && s.start <= s.end && s.start <= clock && Ordered(clock, ops)
    ensures var log := Run(c, l, s, Meter(s.start, []), ops).1.log;
            0 < k <= |log| && log[k - 1].0 <= t ==>
              Fits(c, l.bps, Bytes(log[..k]), t - s.start + SliceLen(c)) && Fits(c, l.iops, k, t - s.start + SliceLen(c))
  {
    hide Run, Metered, Bytes, Fits;
    var m0 := Meter(s.start, []);
    FreshMeter(c, l, s, clock);
    RunKeeps(c, l, s, m0, clock, ops);
    var m := Run(c, l, s, m0, ops).1;
    if 0 < k <= |m.log| && m.log[k - 1].0 <= t {
      assert ConformsAt(c, l, m, k);
      FitsLonger(c, l.bps, Bytes(m.log[..k]), m.log[k - 1].0 - m.origin + SliceLen(c), t - s.start + SliceLen(c));
      FitsLonger(c, l.iops, k, m.log[k - 1].0 - m.origin + SliceLen(c), t - s.start + SliceLen(c));
    }
  }

  /** The slices and clocks along a run stay in order. */
  lemma {:induction false} RunInOrder(c: Config, l: Limit, s: Slice, m: Meter, clock: int, ops: seq<Op>)
    requires Sane(c) && Positive(l) && !NoRule(l) && Metered(c, l, s, m, clock) && Ordered(clock, ops)
    ensures var s' := Run(c, l, s, m, ops).0;
            s'.start <= s'.end && s'.start <= if ops == [] then clock else ops[|ops| - 1].now
    decreases |ops|
  {
    if ops != [] {
      StepKeeps(c, l, s, m, clock, ops[0]);
      var (s1, m1) := Step(c, l, s, m, ops[0]);
      RunInOrder(c, l, s1, m1, ops[0].now, ops[1..]);
    }
  }

  lemma {:induction false} OrderedSplits(clock: int, ops: seq<Op>, i: nat)
    requires Ordered(clock, ops) && i <= |ops|
    ensures Ordered(clock, ops[..i]) && Ordered(if i == 0 then clock else ops[i - 1].now, ops[i..])
    decreases i
  {
    if i > 0 {
      OrderedSplits(ops[0].now, ops[1..], i - 1);
      assert ops[..i][1..] == ops[1..][..i - 1] && ops[1..][i - 1..] == ops[i..];
    }
  }

  /** What the operations from the `i`th on let through. */
  function Passed(c: Config, l: Limit, start: int, ops: seq<Op>, i: nat): seq<(int, nat)>
    requires Sane(c) && Positive(l) && i <= |ops|
  {
    var before := Run(c, l, NewSlice(c, start), Meter(start, []), ops[..i]).1.log;
    var all := Run(c, l, NewSlice(c, start), Meter(start, []), ops).1.log;
    if |before| <= |all| then all[|before|..] else []
  }

  /** The slice a lane has before the `i`th operation. */
  function SliceAt(c: Config, l: Limit, start: int, ops: seq<Op>, i: nat): Slice
    requires Sane(c) && Positive(l) && i <= |ops|
  {
    Run(c, l, NewSlice(c, start), Meter(start, []), ops[..i]).0
  }

  lemma PassedIs(c: Config, l: Limit, start: int, ops: seq<Op>, i: nat, origin: int)
    requires Sane(c) && Positive(l) && i <= |ops|
    ensures Passed(c, l, start, ops, i) == Run(c, l, SliceAt(c, l, start, ops, i), Meter(origin, []), ops[i..]).1.log
  {
    var s0, m0 := NewSlice(c, start), Meter(start, []);
    var (s, m) := Run(c, l, s0, m0, ops[..i]);
    assert ops == ops[..i] + ops[i..];
    RunSplits(c, l, s0, m0, ops[..i], ops[i..]);
    RunRecords(c, l, s, m, Meter(origin, []), ops[i..]);
    hide Run;
    var fresh' := Run(c, l, s, Meter(origin, []), ops[i..]).1.log;
    assert fresh'[0..] == fresh';
  }

  lemma SliceAtInOrder(c: Config, l: Limit, start: int, ops: seq<Op>, i: nat)
    requires Sane(c) && Positive(l) && !NoRule(l) && Ordered(start, ops) && i <= |ops|
    ensures var s := SliceAt(c, l, start, ops, i);
            var clock := if i == 0 then start else ops[i - 1].now;
            s.start <= s.end && s.start <= clock && Ordered(clock, ops[i..])
  {
    OrderedSplits(start, ops, i);
    RunInOrder(c, l, NewSlice(c, start), Meter(start, []), start, ops[..i]);
    hide Run;
  }

  /**
   * Idle time is no credit: when an operation at time `u` finds the slice run out, all that is let through from then on
   * fits between `u` and the time in question, plus one slice.
   */
  lemma IdleIsNoCredit(c: Config, l: Limit, start: int, ops: seq<Op>, i: nat, k: nat, t: int)
    requires Sane(c) && Positive(l) && (l.bps != UNLIMITED_BPS || l.iops != UNLIMITED_IOPS) && Ordered(start, ops) && i < |ops|
    requires var s := SliceAt(c, l, start, ops, i); !(s.start <= ops[i].now <= s.end)
    ensures var log, u := Passed(c, l, start, ops, i), ops[i].now;
            0 < k <= |log| && log[k - 1].0 <= t ==>
              c.hz * Bytes(log[..k]) <= l.bps * (t - u + SliceLen(c)) && c.hz * k <= l.iops * (t - u + SliceLen(c))
  {
    hide SliceAt, Passed, Run;
    var s, u := SliceAt(c, l, start, ops, i), ops[i].now;
    SliceAtInOrder(c, l, start, ops, i);
    PassedIs(c, l, start, ops, i, u);
    RenewedRun(c, l, s, ops[i..], u);
    OrderedFrom(if i == 0 then start else ops[i - 1].now, ops[i..]);
    WindowFits(c, l, NewSlice(c, u), u, ops[i..], k, t);
  }

  lemma OrderedFrom(clock: int, ops: seq<Op>)
    requires Ordered(clock, ops) && ops != []
    ensures Ordered(ops[0].now, ops)
  {
  }

  /** A slice that has run out might as well have been renewed before. */
  lemma RenewedRun(c: Config, l: Limit, s: Slice, ops: seq<Op>, u: int)
    requires Sane(c) && Positive(l) && !NoRule(l) && ops != [] && ops[0].now == u && Used(s, u)
    ensures Run(c, l, s, Meter(u, []), ops) == Run(c, l, NewSlice(c, u), Meter(u, []), ops)
  {
    hide Check, Trim;
    assert Renew(c, NewSlice(c, u), u) == NewSlice(c, u);
    assert Step(c, l, s, Meter(u, []), ops[0]) == Step(c, l, NewSlice(c, u), Meter(u, []), ops[0]);
  }

  /** After a trim the lane remembers less than a slice of the time that has passed, or less than a byte and a bio is worth. */
  lemma TrimCatchesUp(c: Config, l: Limit, s: Slice, now: int)
    requires Sane(c) && !Used(s, now)
    ensures var t := Trim(c, l, s, now);
            && t.start <= now && t.start <= t.end
            && l.bps * (now - t.start) <= l.bps * SliceLen(c) + c.hz
            && l.iops * (now - t.start) <= l.iops * SliceLen(c) + c.hz
  {
    var y := SliceLen(c);
    var n := (now - s.start) / y;
    RoundUpBounds(now + y, y);
    DivBounds(now - s.start, y);
    MulMono(y, 0, n);
    assert (n + 1) * y == n * y + y;
    KeptWorth(c, l.bps, n, now - s.start);
    KeptWorth(c, l.iops, n, now - s.start);
    MulMono(l.bps, now - s.start - n * y, y);
    MulMono(l.iops, now - s.start - n * y, y);
    if n == 0 {
      assert n * y == 0;
    }
  }

  lemma RenewInUse(c: Config, s: Slice, now: int)
    requires Sane(c)
    ensures !Used(Renew(c, s, now), now)
  {
    RoundUpBounds(now + SliceLen(c), SliceLen(c));
  }

  lemma SliceAfter(c: Config, l: Limit, start: int, ops: seq<Op>, i: nat)
    requires Sane(c) && Positive(l) && !NoRule(l) && i < |ops| && ops[i].Dispatch?
    requires MayDispatch(c, l, SliceAt(c, l, start, ops, i), ops[i].now, ops[i].size).0.ok
    ensures SliceAt(c, l, start, ops, i + 1) ==
            Trim(c, l, Charge(Renew(c, SliceAt(c, l, start, ops, i), ops[i].now), ops[i].size), ops[i].now)
  {
    hide Check, Trim, Renew;
    var s0, m0 := NewSlice(c, start), Meter(start, []);
    assert ops[..i + 1] == ops[..i] + [ops[i]];
    RunSplits(c, l, s0, m0, ops[..i], [ops[i]]);
    var (s, m) := Run(c, l, s0, m0, ops[..i]);
    assert [ops[i]][1..] == [];
    assert Run(c, l, s, m, [ops[i]]) == Step(c, l, s, m, ops[i]);
  }

  /**
   * Nor is slow time: after a bio was let through at time `u`, all that follows fits between `u` and the time in
   * question plus two slices, up to one byte and one bio.
   */
  lemma SlowIsNoCredit(c: Config, l: Limit, start: int, ops: seq<Op>, i: nat, k: nat, t: int)
    requires Sane(c) && Positive(l) && (l.bps != UNLIMITED_BPS || l.iops != UNLIMITED_IOPS) && Ordered(start, ops) && i < |ops| && ops[i].Dispatch?
    requires MayDispatch(c, l, SliceAt(c, l, start, ops, i), ops[i].now, ops[i].size).0.ok
    ensures var log, u := Passed(c, l, start, ops, i + 1), ops[i].now;
            0 < k <= |log| && log[k - 1].0 <= t ==>
              && c.hz * Bytes(log[..k]) <= l.bps * (t - u + 2 * SliceLen(c)) + c.hz
              && c.hz * k <= l.iops * (t - u + 2 * SliceLen(c)) + c.hz
  {
    hide SliceAt, Passed, Run, MayDispatch, Trim, Renew, Bytes;
    var s, u, y := SliceAt(c, l, start, ops, i), ops[i].now, SliceLen(c);
    SliceAfter(c, l, start, ops, i);
    RenewInUse(c, s, u);
    TrimCatchesUp(c, l, Charge(Renew(c, s, u), ops[i].size), u);
    var s' := SliceAt(c, l, start, ops, i + 1);
    PassedIs(c, l, start, ops, i + 1, s'.start);
    SliceAtInOrder(c, l, start, ops, i + 1);
    WindowFits(c, l, s', u, ops[i + 1..], k, t);
    Spread(l.bps, t, u, s'.start, y);
    Spread(l.iops, t, u, s'.start, y);
  }

  lemma Spread(rate: nat, t: int, u: int, start: int, y: int)
    ensures rate * (t - start + y) == rate * (t - u + 2 * y) + rate * (u - start) - rate * y
  {
    assert t - start + y == (t - u + 2 * y) + (u - start) - y;
  }

  /**
   * A lane that has let nothing through for two slices starts afresh: whatever it is asked for at time `v` and later
   * fits between `v` and the time in question, plus one slice.
   */
  lemma PauseIsNoCredit(c: Config, l: Limit, start: int, ops: seq<Op>, i: nat, k: nat, t: int)
    requires Sane(c) && Positive(l) && (l.bps != UNLIMITED_BPS || l.iops != UNLIMITED_IOPS) && Ordered(start, ops) && i + 1 < |ops| && ops[i].Dispatch?
    requires MayDispatch(c, l, SliceAt(c, l, start, ops, i), ops[i].now, ops[i].size).0.ok
    requires ops[i + 1].now >= ops[i].now + 2 * SliceLen(c)
    ensures var log, v := Passed(c, l, start, ops, i + 1), ops[i + 1].now;
            0 < k <= |log| && log[k - 1].0 <= t ==>
              c.hz * Bytes(log[..k]) <= l.bps * (t - v + SliceLen(c)) && c.hz * k <= l.iops * (t - v + SliceLen(c))
  {
    hide SliceAt, Passed, Run, MayDispatch, Trim, Renew, Bytes;
    var s, u := SliceAt(c, l, start, ops, i), ops[i].now;
    SliceAfter(c, l, start, ops, i);
    RenewInUse(c, s, u);
    TrimEndsSoon(c, l, Charge(Renew(c, s, u), ops[i].size), u);
    IdleIsNoCredit(c, l, start, ops, i + 1, k, t);
  }

  /** After a bio was let through, the slice lasts less than two slice lengths more. */
  lemma TrimEndsSoon(c: Config, l: Limit, s: Slice, now: int)
    requires Sane(c) && !Used(s, now)
    ensures now + SliceLen(c) <= Trim(c, l, s, now).end < now + 2 * SliceLen(c)
  {
    RoundUpBounds(now + SliceLen(c), SliceLen(c));
  }

  lemma KeptWorth(c: Config, rate: nat, n: nat, elapsed: int)
    requires Sane(c) && elapsed < (n + 1) * SliceLen(c)
    ensures rate * SliceLen(c) * n / c.hz == 0 ==> rate * elapsed <= rate * SliceLen(c) + c.hz
  {
    hide SliceLen;
    var y := SliceLen(c);
    MulSwap(rate, y, n);
    DivBounds(rate * y * n, c.hz);
    MulMono(rate, elapsed, n * y + y);
    assert (n + 1) * y == n * y + y;
    assert rate * (n * y + y) == rate * (n * y) + rate * y;
  }

  // ---------------------------------------------------------------- the wait estimates

  /** The iops check passes exactly when the rounded elapsed time is worth one more bio. */
  lemma IopsPasses(c: Config, l: Limit, s: Slice, now: int)
    requires Sane(c) && Positive(l) && s.start <= now && s.ios < UINT_MAX
    ensures WithinIops(c, l, s, now).ok <==> (s.ios + 1) * c.hz <= l.iops * Elapsed(c, s, now)
  {
    hide Elapsed, Allowance;
    ElapsedRounds(c, s, now);
    AllowanceFits(c, l.iops, s.ios + 1, Elapsed(c, s, now));
  }

  lemma CostQuotient(rate: nat, cost: int, e: int)
    requires rate > 0 && rate * e < cost
    ensures cost / rate + 1 > e
    ensures rate * (cost / rate) <= cost < rate * (cost / rate + 1)
  {
    var q := cost / rate;
    DivBounds(cost, rate);
    assert rate * (q + 1) == q * rate + rate;
    NotBelow(rate, e, q + 1);
  }

  lemma NotBelow(rate: nat, a: int, b: int)
    requires rate > 0 && rate * a < rate * b
    ensures a < b
  {
  }

  /**
   * A failed iops check passes after exactly the wait it returned. The wait is the time left until the elapsed
   * time first exceeds what `ios + 1` bios cost, so the fallback of a one-jiffy wait is dead.
   */
  lemma IopsWaitSharp(c: Config, l: Limit, s: Slice, now: int)
    requires Sane(c) && Positive(l) && s.start <= now && s.ios < UINT_MAX && !WithinIops(c, l, s, now).ok
    ensures var w := WithinIops(c, l, s, now).wait;
            && w >= 1
            && WithinIops(c, l, s, now + w).ok
            && (s.ios + 1) * c.hz / l.iops + 1 > now - s.start
            && l.iops * (now + w - 1 - s.start) <= (s.ios + 1) * c.hz < l.iops * (now + w - s.start)
  {
    hide Elapsed, Allowance;
    var cost := (s.ios + 1) * c.hz;
    IopsPasses(c, l, s, now);
    ElapsedRounds(c, s, now);
    MulMono(l.iops, now - s.start, Elapsed(c, s, now));
    CostQuotient(l.iops, cost, now - s.start);
    var w := WithinIops(c, l, s, now).wait;
    ElapsedRounds(c, s, now + w);
    MulMono(l.iops, cost / l.iops + 1, Elapsed(c, s, now + w));
    IopsPasses(c, l, s, now + w);
  }

  lemma BpsPasses(c: Config, l: Limit, s: Slice, now: int, size: nat)
    requires Sane(c) && Positive(l) && s.start <= now
    ensures WithinBps(c, l, s, now, size).ok <==> (s.bytes + size) * c.hz <= l.bps * Elapsed(c, s, now)
  {
    hide Elapsed, Allowance;
    ElapsedRounds(c, s, now);
    AllowanceFits(c, l.bps, s.bytes + size, Elapsed(c, s, now));
  }

  /** The raw wait: the time the bytes above the allowance cost, at least one jiffy. */
  function BpsShortfall(c: Config, l: Limit, s: Slice, now: int, size: nat): int
    requires Sane(c) && Positive(l)
  {
    s.bytes + size - Allowance(c, l.bps, Elapsed(c, s, now))
  }

  lemma CostWithRest(rate: nat, hz: nat, rnd: int, allowed: int, extra: int, e: int)
    requires rate > 0 && hz > 0 && allowed * hz <= rate * rnd && e >= rnd + extra * hz / rate + 1
    ensures (allowed + extra) * hz <= rate * e
  {
    var q := extra * hz / rate;
    DivBounds(extra * hz, rate);
    MulMono(rate, rnd + q + 1, e);
    assert rate * (rnd + q + 1) == rate * rnd + q * rate + rate;
    assert (allowed + extra) * hz == allowed * hz + extra * hz;
  }

  /** A failed bps check passes no later than one jiffy after the wait it returned. */
  lemma BpsWaitSufficient(c: Config, l: Limit, s: Slice, now: int, size: nat, later: int)
    requires Sane(c) && Positive(l) && s.start <= now && !WithinBps(c, l, s, now, size).ok
    requires later >= now + WithinBps(c, l, s, now, size).wait + 1
    ensures WithinBps(c, l, s, now, size).wait >= 1
    ensures WithinBps(c, l, s, later, size).ok
  {
    var rnd := Elapsed(c, s, now);
    DivBounds(l.bps * rnd, c.hz);
    hide Elapsed;
    ElapsedRounds(c, s, now);
    ElapsedRounds(c, s, later);
    CostWithRest(l.bps, c.hz, rnd, Allowance(c, l.bps, rnd), BpsShortfall(c, l, s, now, size), Elapsed(c, s, later));
    BpsPasses(c, l, s, later, size);
  }

  /** More time never hurts. */
  lemma CheckMonotone(c: Config, l: Limit, s: Slice, size: nat, u: int, v: int)
    requires Sane(c) && Positive(l) && s.start <= u <= v && Check(c, l, s, u, size).ok
    ensures Check(c, l, s, v, size).ok
  {
    ElapsedMonotone(c, s, u, v);
    hide Elapsed;
    var e, f := Elapsed(c, s, u), Elapsed(c, s, v);
    AllowanceMonotone(c, l.bps, e, f);
    AllowanceMonotone(c, l.iops, e, f);
    hide Allowance;
  }

  lemma ElapsedMonotone(c: Config, s: Slice, u: int, v: int)
    requires Sane(c) && s.start <= u <= v
    ensures Elapsed(c, s, u) <= Elapsed(c, s, v)
  {
    var y := SliceLen(c);
    ElapsedRounds(c, s, v);
    NewElapsed(c, u);
    hide RoundUp, SliceLen;
    if u != s.start { RoundUpMonotone(u - s.start, v - s.start, y); }
  }

  lemma QuotientMonotone(a: int, b: int, y: nat)
    requires y > 0 && a <= b
    ensures a / y <= b / y
  {
    DivBounds(a, y);
    DivBounds(b, y);
    if b / y < a / y { MulMono(y, b / y + 1, a / y); }
  }

  lemma AllowanceMonotone(c: Config, rate: nat, e: int, f: int)
    requires Sane(c) && e <= f
    ensures Allowance(c, rate, e) <= Allowance(c, rate, f)
  {
    MulMono(rate, e, f);
    QuotientMonotone(rate * e, rate * f, c.hz);
  }

  /** A bio is refused until the end of the wait it was told exactly if it is refused in the last jiffy of it. */
  lemma RefusedUntilIff(c: Config, l: Limit, s: Slice, now: int, size: nat)
    requires Sane(c) && Positive(l) && s.start <= now && !Check(c, l, s, now, size).ok
    ensures var d := now + Check(c, l, s, now, size).wait;
            (forall u :: now <= u < d ==> !Check(c, l, s, u, size).ok) <==> (now < d ==> !Check(c, l, s, d - 1, size).ok)
  {
    var d := now + Check(c, l, s, now, size).wait;
    hide Check;
    if now < d && !Check(c, l, s, d - 1, size).ok {
      forall u | now <= u < d ensures !Check(c, l, s, u, size).ok {
        if Check(c, l, s, u, size).ok { CheckMonotone(c, l, s, size, u, d - 1); }
      }
    }
  }

  /** The rounded time grows only when the clock has passed it. */
  lemma StaysInSlice(c: Config, s: Slice, now: int, u: int)
    requires Sane(c) && s.start <= now <= u
    ensures u - s.start <= Elapsed(c, s, now) ==> Elapsed(c, s, u) <= Elapsed(c, s, now)
  {
    var y, e := SliceLen(c), Elapsed(c, s, now);
    ElapsedRounds(c, s, now);
    hide RoundUp, SliceLen;
    if u - s.start <= e {
      RoundUpMonotone(if u == s.start then y else u - s.start, e, y);
      RoundUpExact(e, y);
    }
  }

  lemma RoundUpMonotone(x: int, z: int, y: nat)
    requires y > 0 && x <= z
    ensures RoundUp(x, y) <= RoundUp(z, y)
  {
    QuotientMonotone(x + y - 1, z + y - 1, y);
    MulMono(y, (x + y - 1) / y, (z + y - 1) / y);
  }

  lemma LongArith(rate: nat, hz: nat, rnd: int, allowed: int, extra: int, q: int, start: int, u: int, y: int, e: int)
    requires rate * rnd <= allowed * hz + hz && q * rate <= extra * hz
    requires (allowed + extra) * hz <= rate * e && e <= u - start + y
    ensures rate * (start + rnd + q - u) <= rate * y + hz
  {
    MulMono(rate, e, u - start + y);
    assert (allowed + extra) * hz == allowed * hz + extra * hz;
    assert rate * (start + rnd + q - u) == rate * rnd + q * rate - rate * (u - start + y) + rate * y;
  }

  /** One that passes earlier does so at most a slice early, and what the rounding of a byte is worth. */
  lemma BpsWaitNotLong(c: Config, l: Limit, s: Slice, now: int, size: nat, u: int)
    requires Sane(c) && Positive(l) && s.start <= now <= u && !WithinBps(c, l, s, now, size).ok && WithinBps(c, l, s, u, size).ok
    ensures l.bps * (now + WithinBps(c, l, s, now, size).wait - u) <= l.bps * SliceLen(c) + c.hz
  {
    var rnd, e, y := Elapsed(c, s, now), Elapsed(c, s, u), SliceLen(c);
    var extra, allowed := BpsShortfall(c, l, s, now, size), Allowance(c, l.bps, rnd);
    BpsPasses(c, l, s, now, size);
    BpsPasses(c, l, s, u, size);
    ElapsedRounds(c, s, now);
    ElapsedRounds(c, s, u);
    StaysInSlice(c, s, now, u);
    assert s.bytes + size == allowed + extra;
    BpsWaitIs(c, l, s, now, size);
    DivBounds(l.bps * rnd, c.hz);
    hide Elapsed, WithinBps, Allowance, BpsShortfall, SliceLen;
    LongCases(l.bps, c.hz, rnd, allowed, extra, s.start, u, y, e, now + WithinBps(c, l, s, now, size).wait);
  }

  lemma BpsWaitIs(c: Config, l: Limit, s: Slice, now: int, size: nat)
    requires Sane(c) && Positive(l) && s.start <= now && !WithinBps(c, l, s, now, size).ok
    ensures now + WithinBps(c, l, s, now, size).wait ==
            s.start + Elapsed(c, s, now) + Max(BpsShortfall(c, l, s, now, size) * c.hz / l.bps, 1)
  {
    hide Elapsed, Allowance;
  }

  lemma LongCases(rate: nat, hz: nat, rnd: int, allowed: int, extra: int, start: int, u: int, y: int, e: int, d: int)
    requires rate > 0 && hz > 0 && y > 0 && rate * rnd <= allowed * hz + hz && d == start + rnd + Max(extra * hz / rate, 1)
    requires rate * rnd < (allowed + extra) * hz <= rate * e && e <= u - start + y && (u - start <= rnd ==> e <= rnd)
    ensures rate * (d - u) <= rate * y + hz
  {
    DivBounds(extra * hz, rate);
    NotBelow(rate, rnd, e);
    if extra * hz / rate >= 1 {
      LongArith(rate, hz, rnd, allowed, extra, extra * hz / rate, start, u, y, e);
    } else {
      MulMono(rate, d - u, 0);
      MulMono(rate, 0, y);
    }
  }

  lemma NotAbove(rate: nat, a: int, b: int)
    requires rate > 0 && rate * a <= rate * b
    ensures a <= b
  {
    assert rate * (b + 1) == rate * b + rate;
    if b < a { MulMono(rate, b + 1, a); }
  }

  lemma IopsWaitNotLong(c: Config, l: Limit, s: Slice, now: int, u: int)
    requires Sane(c) && Positive(l) && s.start <= now <= u && s.ios < UINT_MAX
    requires !WithinIops(c, l, s, now).ok && WithinIops(c, l, s, u).ok
    ensures now + WithinIops(c, l, s, now).wait - u <= SliceLen(c) + 1
  {
    IopsPasses(c, l, s, u);
    IopsWaitSharp(c, l, s, now);
    ElapsedRounds(c, s, u);
    var d := now + WithinIops(c, l, s, now).wait;
    hide Elapsed, WithinIops;
    MulMono(l.iops, Elapsed(c, s, u), u - s.start + SliceLen(c));
    NotAbove(l.iops, d - 1 - s.start, u - s.start + SliceLen(c));
  }

  lemma EarlyExample()
    ensures Elapsed(Config(1000), Slice(0, 100, 0, 0), 101) == 200
    ensures Allowance(Config(1000), 5120, 100) == 512 && Allowance(Config(1000), 5120, 200) == 1024
    ensures Allowance(Config(1000), 1000, 200) == 200
  {
    assert SliceLen(Config(1000)) == 100;
    DivUnique(200, 100, 2, 0);
  }

  /** A bio of two sectors that is told to wait 200 jiffies and might leave after 101. */
  lemma WaitCanBeLong()
    ensures var c, l, s := Config(1000), Limit(5120, 1000), Slice(0, 100, 0, 0);
            && !Check(c, l, s, 0, 1024).ok && Check(c, l, s, 0, 1024).wait == 200 && Check(c, l, s, 101, 1024).ok
  {
    hide Elapsed, Allowance;
    ExampleElapsed();
    EarlyExample();
    assert 512 * 1000 / 5120 == 100;
  }

  lemma ModOfSum(a: int, b: int, y: nat)
    requires y > 0 && a % y == 0
    ensures (a + b) % y == b % y
  {
    DivBounds(a, y);
    assert a + b == (a / y + b / y) * y + b % y;
    DivUnique(a + b, y, a / y + b / y, b % y);
  }

  lemma RoundUpExact(x: int, y: nat)
    requires y > 0
    ensures x % y == 0 ==> RoundUp(x, y) == x
    ensures x % y != 0 ==> RoundUp(x, y) >= x + 1
  {
    RoundUpBounds(x, y);
    if x % y == 0 {
      assert x == x / y * y;
      DivUnique(x + y - 1, y, x / y, y - 1);
    }
  }

  lemma RemaindersDecide(rate: nat, hz: nat, rnd: int, extra: int)
    requires rate > 0 && hz > 0
    ensures (rate * rnd / hz + extra) * hz <= rate * (rnd + extra * hz / rate)
       <==> extra * hz % rate <= rate * rnd % hz
  {
    var a, q := rate * rnd / hz, extra * hz / rate;
    assert rate * rnd == a * hz + rate * rnd % hz;
    assert extra * hz == q * rate + extra * hz % rate;
    assert (a + extra) * hz == a * hz + extra * hz;
    assert rate * (rnd + q) == rate * rnd + q * rate;
  }

  /**
   * When the bps check passes at exactly the returned time: unless the wait ends on a slice boundary (where
   * rounding up the elapsed time adds nothing) and the two divisions dropped more of the cost than of the allowance.
   */
  lemma BpsWaitExact(c: Config, l: Limit, s: Slice, now: int, size: nat)
    requires Sane(c) && Positive(l) && s.start <= now && !WithinBps(c, l, s, now, size).ok
    ensures var extra := BpsShortfall(c, l, s, now, size);
            WithinBps(c, l, s, now + WithinBps(c, l, s, now, size).wait, size).ok <==>
              || extra * c.hz < l.bps
              || extra * c.hz / l.bps % SliceLen(c) != 0
              || extra * c.hz % l.bps <= l.bps * Elapsed(c, s, now) % c.hz
  {
    var rnd := Elapsed(c, s, now);
    var extra := BpsShortfall(c, l, s, now, size);
    var q := extra * c.hz / l.bps;
    var allowed := Allowance(c, l.bps, rnd);
    var later := now + WithinBps(c, l, s, now, size).wait;
    ElapsedRounds(c, s, now);
    DivBounds(l.bps * rnd, c.hz);
    DivBounds(extra * c.hz, l.bps);
    QuotientZero(extra * c.hz, l.bps);
    assert later - s.start == rnd + Max(q, 1);
    var e := RoundUp(rnd + Max(q, 1), SliceLen(c));
    assert Elapsed(c, s, later) == e;
    BpsPasses(c, l, s, later, size);
    RoundUpExact(rnd + Max(q, 1), SliceLen(c));
    ModOfSum(rnd, Max(q, 1), SliceLen(c));
    hide Elapsed, WithinBps;
    if extra * c.hz < l.bps || q % SliceLen(c) != 0 {
      CostWithRest(l.bps, c.hz, rnd, allowed, extra, e);
    } else {
      RemaindersDecide(l.bps, c.hz, rnd, extra);
    }
  }

  lemma QuotientZero(a: int, b: nat)
    requires b > 0 && a >= 0
    ensures a / b >= 0
    ensures a / b == 0 <==> a < b
  {
    DivBounds(a, b);
    if a < b { DivUnique(a, b, 0, a); }
  }

  lemma ExampleElapsed()
    ensures Elapsed(Config(1000), Slice(0, 100, 0, 0), 0) == 100
    ensures Elapsed(Config(1000), Slice(0, 100, 0, 0), 700) == 700
  {
    hide RoundUp;
    assert SliceLen(Config(1000)) == 100;
    hide SliceLen;
    RoundUpExact(100, 100);
    RoundUpExact(700, 100);
  }

  lemma ExampleAllowances()
    ensures Allowance(Config(1000), 731, 100) == 73
    ensures Allowance(Config(1000), 731, 700) == 511
  {
  }

  /** A bio of one sector for which the returned wait is one jiffy short. */
  lemma BpsWaitCanBeShort()
    ensures var c, l, s := Config(1000), Limit(731, 1000), Slice(0, 100, 0, 0);
            && !WithinBps(c, l, s, 0, 512).ok && WithinBps(c, l, s, 0, 512).wait == 700
            && !WithinBps(c, l, s, 700, 512).ok && WithinBps(c, l, s, 701, 512).ok
  {
    hide Elapsed, Allowance;
    ExampleElapsed();
    ExampleAllowances();
    assert 439 * 1000 / 731 == 600 && Max(600, 1) == 600;
    BpsWaitSufficient(Config(1000), Limit(731, 1000), Slice(0, 100, 0, 0), 0, 512, 701);
  }
}
