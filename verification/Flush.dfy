/**
 * The FLUSH/FUA sequencer of omap/block/blk-flush.c.
 *
 * A submitted request is cut into at most three steps (PREFLUSH, DATA, POSTFLUSH). Requests waiting for
 * a flush queue on one of two lists; one flush at a time retires a whole list while the other one fills.
 * Every step a request takes, and every flush issued or completed, is appended to a log; the durability
 * guarantee is a property of that log.
 */
module Flush {
  import opened Lists

  /** A submission of a request; every submission has an identity of its own. */
  type Rq = nat

  /** What the submitter asked for: REQ_FLUSH, REQ_FUA and the amount of data. */
  datatype Submission = Submission(flush: bool, fua: bool, sectors: nat)

  /** `q->flush_flags`: what the device can do. */
  datatype Caps = Caps(flush: bool, fua: bool)

  /** A mask of REQ_FSEQ_PREFLUSH, REQ_FSEQ_DATA and REQ_FSEQ_POSTFLUSH. */
  datatype Mask = Mask(pre: bool, data: bool, post: bool)

  datatype Step = PreFlush | Data | PostFlush | Done

  /** The part of `struct request` that the sequencer uses. */
  datatype Req = Req(sub: Submission, caps: Caps, steps: Mask)

  /** Entries of the dispatch queue `q->queue_head` and of the driver. */
  datatype Item = FlushItem | DataItem(rq: Rq) | NormalItem(rq: Rq)

  datatype Event =
    | Insert(rq: Rq, sub: Submission, caps: Caps)
    | Bypass(rq: Rq, fua: bool)
    | QueueData(rq: Rq, fua: bool)
    | DataDone(rq: Rq, err: bool)
    | IssueFlush
    | FlushDone(err: bool)
    | End(rq: Rq, err: bool)

  datatype State = State(
    live: map<Rq, Req>,
    queues: seq<seq<Rq>>,     // flush_queue[0] and flush_queue[1]
    pendingIdx: nat,
    runningIdx: nat,
    data: seq<Rq>,            // flush_data_in_flight
    head: seq<Item>,          // queue_head
    driver: set<Item>,        // handed to the driver and not completed yet
    since: int,               // flush_pending_since
    log: seq<Event>)

  // ---------------------------------------------------------------- operations

  /** blk_flush_policy */
  function Policy(caps: Caps, sub: Submission): Mask {
    if caps.flush
    then Mask(sub.flush, sub.sectors > 0, !caps.fua && sub.fua)
    else Mask(false, false, false)
  }

  /** blk_flush_cur_seq: the first step not yet in the mask. */
  function CurSeq(m: Mask): Step {
    if !m.pre then PreFlush else if !m.data then Data else if !m.post then PostFlush else Done
  }

  function Not(m: Mask): Mask { Mask(!m.pre, !m.data, !m.post) }

  function Or(a: Mask, b: Mask): Mask { Mask(a.pre || b.pre, a.data || b.data, a.post || b.post) }

  predicate Disjoint(a: Mask, b: Mask) { !(a.pre && b.pre) && !(a.data && b.data) && !(a.post && b.post) }

  function MaskOf(s: Step): Mask { Mask(s == PreFlush, s == Data, s == PostFlush) }

  /** The REQ_FUA bit that reaches the driver with the data. */
  function DriverFua(r: Req): bool { r.caps.fua && r.sub.fua }

  predicate Indexed(s: State) { |s.queues| == 2 && s.pendingIdx < 2 && s.runningIdx < 2 }

  predicate FlushInFlight(s: State) { s.pendingIdx != s.runningIdx }

  /** blk_kick_flush */
  function Kick(s: State, now: int, timeout: int): (r: State)
    requires Indexed(s)
    ensures Indexed(r)
  {
    if FlushInFlight(s) || s.queues[s.pendingIdx] == [] then s                // C1
    else if s.data != [] && now < s.since + timeout then s                   // C2 and C3
    else s.(pendingIdx := 1 - s.pendingIdx, head := s.head + [FlushItem], log := s.log + [IssueFlush])
  }

  /** The request leaves whichever list it is on. */
  function Lift(s: State, rq: Rq): (r: State)
    requires Indexed(s)
    ensures Indexed(r)
  {
    s.(live := s.live - {rq},
       queues := [Without(s.queues[0], rq), Without(s.queues[1], rq)],
       data := Without(s.data, rq))
  }

  /** Where blk_flush_complete_seq puts a lifted request whose next step is `CurSeq(r.steps)`. */
  function Place(s: State, rq: Rq, r: Req, err: bool, now: int): (t: State)
    requires Indexed(s)
    ensures Indexed(t)
  {
    var next := if err then Done else CurSeq(r.steps);
    match next
    case Data =>
      s.(live := s.live[rq := r], data := s.data + [rq], head := [DataItem(rq)] + s.head,
         log := s.log + [QueueData(rq, DriverFua(r))])
    case Done =>
      s.(log := s.log + [End(rq, err)])
    case _ =>
      var p := s.queues[s.pendingIdx];
      s.(live := s.live[rq := r], since := if p == [] then now else s.since,
         queues := s.queues[s.pendingIdx := p + [rq]])
  }

  /** blk_flush_complete_seq on a lifted request. */
  function Complete(s: State, rq: Rq, r: Req, done: Mask, err: bool, now: int, timeout: int): (t: State)
    requires Indexed(s)
    ensures Indexed(t)
  {
    Kick(Place(s, rq, r.(steps := Or(r.steps, done)), err, now), now, timeout)
  }

  /** blk_insert_flush */
  function InsertFlush(s: State, rq: Rq, sub: Submission, caps: Caps, now: int, timeout: int): (t: State)
    requires Indexed(s)
    ensures Indexed(t)
  {
    var policy := Policy(caps, sub);
    var s := s.(log := s.log + [Insert(rq, sub, caps)]);
    var r := Req(sub, caps, Mask(false, false, false));
    if policy.data && !policy.pre && !policy.post then
      s.(head := s.head + [NormalItem(rq)], log := s.log + [Bypass(rq, DriverFua(r))])
    else
      Complete(s, rq, r, Not(policy), false, now, timeout)
  }

  /** flush_data_end_io */
  function DataEnd(s: State, rq: Rq, err: bool, now: int, timeout: int): (t: State)
    requires Indexed(s) && rq in s.live
    ensures Indexed(t)
  {
    var u := s.(driver := s.driver - {DataItem(rq)}, log := s.log + [DataDone(rq, err)]);
    Complete(Lift(u, rq), rq, s.live[rq], MaskOf(Data), err, now, timeout)
  }

  /** One turn of the loop of flush_end_io. */
  function RetireOne(s: State, rq: Rq, err: bool, now: int, timeout: int): (t: State)
    requires Indexed(s)
    ensures Indexed(t)
  {
    if rq !in s.live then s else
    Complete(Lift(s, rq), rq, s.live[rq], MaskOf(CurSeq(s.live[rq].steps)), err, now, timeout)
  }

  /** The loop of flush_end_io. */
  function Retire(s: State, rqs: seq<Rq>, err: bool, now: int, timeout: int): (t: State)
    requires Indexed(s)
    ensures Indexed(t)
    decreases rqs
  {
    if rqs == [] then s else Retire(RetireOne(s, rqs[0], err, now, timeout), rqs[1..], err, now, timeout)
  }

  function AccountFlush(s: State, err: bool): (t: State)
    requires Indexed(s)
    ensures Indexed(t)
  {
    s.(runningIdx := 1 - s.runningIdx, driver := s.driver - {FlushItem}, log := s.log + [FlushDone(err)])
  }

  /** flush_end_io */
  function FlushEnd(s: State, err: bool, now: int, timeout: int): (t: State)
    requires Indexed(s)
    ensures Indexed(t)
  {
    Retire(AccountFlush(s, err), s.queues[s.runningIdx], err, now, timeout)
  }

  /** blk_fetch_request: the driver takes the first entry of the dispatch queue. */
  function Fetch(s: State): (t: State)
    requires Indexed(s) && s.head != []
    ensures Indexed(t)
  {
    s.(head := s.head[1..], driver := s.driver + {s.head[0]})
  }

  const Empty := State(map[], [[], []], 0, 0, [], [], {}, 0, [])

  // ---------------------------------------------------------------- the log

  /** Position of the IssueFlush still waiting for its FlushDone, or -1. */
  function LastIssue(h: seq<Event>): (r: int)
    ensures -1 <= r < |h|
    ensures r >= 0 ==> h[r].IssueFlush?
  {
    if h == [] then -1
    else
      var e := h[|h| - 1];
      if e.IssueFlush? then |h| - 1 else if e.FlushDone? then -1 else LastIssue(h[..|h| - 1])
  }

  /** The flush issued at `a` completed at `b`. */
  predicate Span(h: seq<Event>, a: nat, b: nat, err: bool) {
    a < b < |h| && h[b] == FlushDone(err) && LastIssue(h[..b]) == a
  }

  /** Some flush was issued after `e` and completed with or without error. */
  ghost predicate ServedSince(h: seq<Event>, e: Event, err: bool) {
    exists a: nat, b: nat :: Span(h, a, b, err) && e in h[..a]
  }

  ghost predicate FlushedSince(h: seq<Event>, e: Event) { ServedSince(h, e, false) }

  ghost predicate FailedSince(h: seq<Event>, e: Event) { ServedSince(h, e, true) }

  ghost predicate Inserted(h: seq<Event>, rq: Rq) { exists sub, caps :: Insert(rq, sub, caps) in h }
  predicate Queued(h: seq<Event>, rq: Rq) { exists fua :: QueueData(rq, fua) in h }
  predicate DataEnded(h: seq<Event>, rq: Rq) { exists err :: DataDone(rq, err) in h }
  predicate Ended(h: seq<Event>, rq: Rq) { exists err :: End(rq, err) in h }
  predicate Bypassed(h: seq<Event>, rq: Rq) { exists fua :: Bypass(rq, fua) in h }

  /** Without data only REQ_FLUSH makes sense (blk-flush.c:13). */
  predicate Sane(sub: Submission) { sub.sectors == 0 ==> !sub.fua }

  /** Data that needs no flush around it: the device does all that is asked for with the write itself. */
  predicate Plain(sub: Submission, caps: Caps) {
    caps.flush && sub.sectors > 0 && !sub.flush && (sub.fua ==> caps.fua)
  }

  /** What must have happened before a request submitted as `sub` may end without error. */
  ghost predicate MayEnd(h: seq<Event>, rq: Rq, sub: Submission, caps: Caps) {
    caps.flush ==>
      && (sub.sectors > 0 ==>
            && DataDone(rq, false) in h
            && (sub.fua ==> (caps.fua && QueueData(rq, true) in h) || FlushedSince(h, DataDone(rq, false))))
      && (sub.sectors == 0 && sub.flush ==> FlushedSince(h, Insert(rq, sub, caps)))
  }

  /** Something it waited for has failed: its data, or a flush issued after it was inserted or its data was done. */
  ghost predicate MayFail(h: seq<Event>, rq: Rq, sub: Submission, caps: Caps) {
    DataDone(rq, true) in h || FailedSince(h, Insert(rq, sub, caps)) || FailedSince(h, DataDone(rq, false))
  }

  /** The request has asked for a flush that it has not got yet, before its data or behind it. */
  ghost predicate Wants(h: seq<Event>, rq: Rq, sub: Submission, caps: Caps) {
    && Insert(rq, sub, caps) in h && !Ended(h, rq) && caps.flush
    && if Queued(h, rq) then sub.fua && !caps.fua && DataDone(rq, false) in h else sub.flush
  }

  /** `e` is a legal continuation of the history `h`. */
  ghost predicate EventOk(h: seq<Event>, e: Event) {
    match e
    case Insert(rq, sub, _) => Sane(sub) && !Inserted(h, rq)
    case Bypass(rq, fua) =>
      && !Bypassed(h, rq) && !Queued(h, rq) && !Ended(h, rq)
      && exists sub, caps :: Insert(rq, sub, caps) in h && Plain(sub, caps) && fua == (caps.fua && sub.fua)
    case QueueData(rq, fua) =>
      && !Queued(h, rq) && !Bypassed(h, rq) && !Ended(h, rq)
      && exists sub, caps :: Insert(rq, sub, caps) in h && !Plain(sub, caps) && sub.sectors > 0 && caps.flush
                             && fua == (caps.fua && sub.fua)
                             && (sub.flush ==> FlushedSince(h, Insert(rq, sub, caps)))
    case DataDone(rq, _) => Queued(h, rq) && !DataEnded(h, rq) && !Ended(h, rq)
    case IssueFlush => LastIssue(h) < 0 && exists rq, sub, caps :: Wants(h, rq, sub, caps)
    case FlushDone(_) => LastIssue(h) >= 0
    case End(rq, err) =>
      && !Ended(h, rq) && !Bypassed(h, rq)
      && exists sub, caps :: Insert(rq, sub, caps) in h && !Plain(sub, caps)
                             && if err then MayFail(h, rq, sub, caps) else MayEnd(h, rq, sub, caps)
  }

  /** Every event of the log is legal after the events before it. */
  ghost predicate Durable(h: seq<Event>) {
    h == [] || (Durable(h[..|h| - 1]) && EventOk(h[..|h| - 1], h[|h| - 1]))
  }

  // ---------------------------------------------------------------- the invariant

  function Subject(e: Event): int {
    if e.IssueFlush? || e.FlushDone? then -1 else e.rq
  }

  predicate Subset(a: Mask, b: Mask) { (a.pre ==> b.pre) && (a.data ==> b.data) && (a.post ==> b.post) }

  /** Every completed step of the request's policy is backed by the log, and steps complete in order. */
  ghost predicate Backed(h: seq<Event>, rq: Rq, r: Req) {
    var p := Policy(r.caps, r.sub);
    && Subset(Not(p), r.steps)
    && (p.pre && r.steps.pre ==> FlushedSince(h, Insert(rq, r.sub, r.caps)))
    && (p.data && r.steps.data ==>
          r.steps.pre && DataDone(rq, false) in h && QueueData(rq, r.caps.fua && r.sub.fua) in h)
    && (p.post && r.steps.post ==> r.steps.data && FlushedSince(h, DataDone(rq, false)))
  }

  ghost predicate Submitted(h: seq<Event>, rq: Rq, r: Req) {
    Sane(r.sub) && !Plain(r.sub, r.caps) && Insert(rq, r.sub, r.caps) in h && !Ended(h, rq) && !Bypassed(h, rq)
  }

  /** A live request on one of the three lists. */
  ghost predicate ReqOk(h: seq<Event>, rq: Rq, r: Req) {
    && Submitted(h, rq, r)
    && Backed(h, rq, r)
    && CurSeq(r.steps) != Done
    && (CurSeq(r.steps) == PreFlush ==> !Queued(h, rq))
    && (CurSeq(r.steps) == Data ==> QueueData(rq, r.caps.fua && r.sub.fua) in h && !DataEnded(h, rq))
  }

  /** A request taken off its list, its mask already extended by the step just completed. */
  ghost predicate LiftedOk(h: seq<Event>, rq: Rq, r: Req, err: bool) {
    && Submitted(h, rq, r)
    && if err then MayFail(h, rq, r.sub, r.caps) else Backed(h, rq, r) && (!r.steps.pre || !r.steps.data ==> !Queued(h, rq))
  }

  /** The event with which the request's current flush step began. */
  function Start(rq: Rq, r: Req): Event {
    if CurSeq(r.steps) == PreFlush then Insert(rq, r.sub, r.caps) else DataDone(rq, false)
  }

  ghost predicate BegunBefore(s: State, l: seq<Rq>, a: nat) {
    a <= |s.log| && forall rq :: rq in l ==> rq in s.live && Start(rq, s.live[rq]) in s.log[..a]
  }

  ghost predicate OnLists(s: State) {
    && Indexed(s)
    && NoDup(s.queues[0]) && NoDup(s.queues[1]) && NoDup(s.data)
    && (forall rq :: rq in s.live <==> rq in s.queues[0] || rq in s.queues[1] || rq in s.data)
    && (forall rq :: rq in s.queues[0] ==> rq !in s.queues[1] && rq !in s.data)
    && (forall rq :: rq in s.queues[1] ==> rq !in s.data)
    && forall rq :: rq in s.live ==> (rq in s.data <==> CurSeq(s.live[rq].steps) == Data)
  }

  ghost predicate Items(s: State) {
    && NoDup(s.head)
    && (forall x :: x in s.driver ==> x !in s.head)
    && (forall rq :: rq in s.data <==> DataItem(rq) in s.head || DataItem(rq) in s.driver)
    && (FlushItem in s.head || FlushItem in s.driver <==> FlushInFlight(s))
    && (forall rq :: NormalItem(rq) in s.head || NormalItem(rq) in s.driver ==> Inserted(s.log, rq))
  }

  ghost predicate Requests(s: State) {
    forall rq :: rq in s.live ==> ReqOk(s.log, rq, s.live[rq])
  }

  ghost predicate Running(s: State)
    requires Indexed(s)
  {
    && (FlushInFlight(s) <==> LastIssue(s.log) >= 0)
    && (FlushInFlight(s) ==> s.queues[s.runningIdx] != [] && BegunBefore(s, s.queues[s.runningIdx], LastIssue(s.log)))
  }

  ghost predicate Core(s: State) {
    OnLists(s) && Items(s) && Requests(s) && Running(s) && Durable(s.log)
  }

  /** Nothing is left waiting when neither a flush nor flush data is in flight. */
  predicate NoStall(s: State)
    requires Indexed(s)
  {
    !FlushInFlight(s) && s.data == [] ==> s.queues[s.pendingIdx] == []
  }

  /** Without a flush in flight only the pending list is in use. */
  predicate IdleEmpty(s: State)
    requires Indexed(s)
  {
    !FlushInFlight(s) ==> s.queues[1 - s.runningIdx] == []
  }

  /** What holds between two entry points. */
  ghost predicate Settled(s: State) {
    Core(s) && NoStall(s) && IdleEmpty(s)
  }

  /** What holds inside the loop of flush_end_io, `rest` still to be retired by the flush from `a` to `b`. */
  ghost predicate Retiring(s: State, rest: seq<Rq>, a: nat, b: nat, err: bool) {
    Core(s) && s.queues[1 - s.runningIdx] == rest && BegunBefore(s, rest, a) && Span(s.log, a, b, err)
  }

  // ---------------------------------------------------------------- growing the log

  lemma LastIssueAppend(h: seq<Event>, e: Event)
    ensures LastIssue(h + [e]) == if e.IssueFlush? then |h| else if e.FlushDone? then -1 else LastIssue(h)
  {
    assert (h + [e])[..|h|] == h;
  }

  lemma SpanAppend(h: seq<Event>, e: Event, a: nat, b: nat, err: bool)
    requires Span(h, a, b, err)
    ensures Span(h + [e], a, b, err)
  {
    assert (h + [e])[..b] == h[..b];
  }

  lemma FlushedSinceAppend(h: seq<Event>, e: Event, x: Event)
    requires FlushedSince(h, x)
    ensures FlushedSince(h + [e], x)
  {
    var a: nat, b: nat :| Span(h, a, b, false) && x in h[..a];
    SpanAppend(h, e, a, b, false);
    assert (h + [e])[..a] == h[..a];
  }

  lemma BackedAppend(h: seq<Event>, e: Event, rq: Rq, r: Req)
    requires Backed(h, rq, r)
    ensures Backed(h + [e], rq, r)
  {
    if FlushedSince(h, Insert(rq, r.sub, r.caps)) { FlushedSinceAppend(h, e, Insert(rq, r.sub, r.caps)); }
    if FlushedSince(h, DataDone(rq, false)) { FlushedSinceAppend(h, e, DataDone(rq, false)); }
  }

  /** An event about one request leaves what is known about the others. */
  lemma ReqOkAppend(h: seq<Event>, e: Event, rq: Rq, r: Req)
    requires ReqOk(h, rq, r) && Subject(e) != rq
    ensures ReqOk(h + [e], rq, r)
  {
    BackedAppend(h, e, rq, r);
  }

  lemma DurableAppend(h: seq<Event>, e: Event)
    requires Durable(h) && EventOk(h, e)
    ensures Durable(h + [e])
  {
    assert (h + [e])[..|h|] == h;
  }

  // ---------------------------------------------------------------- each step keeps the invariant

  lemma CoreAppendOther(s: State, t: State, e: Event)
    requires OnLists(s) && Requests(s) && Running(s) && Durable(s.log)
    requires t.log == s.log + [e] && t.live == s.live && EventOk(s.log, e)
    requires Subject(e) >= 0 && (Subject(e) !in s.live)
    requires t.queues == s.queues && t.pendingIdx == s.pendingIdx && t.runningIdx == s.runningIdx && t.data == s.data
    ensures OnLists(t) && Requests(t) && Running(t) && Durable(t.log)
  {
    forall rq | rq in t.live ensures ReqOk(t.log, rq, t.live[rq]) { ReqOkAppend(s.log, e, rq, s.live[rq]); }
    DurableAppend(s.log, e);
    LastIssueAppend(s.log, e);
    if FlushInFlight(s) { assert t.log[..LastIssue(s.log)] == s.log[..LastIssue(s.log)]; }
  }

  /** Whoever waits on a flush list has asked for a flush that it has not got yet. */
  lemma WaiterWants(h: seq<Event>, rq: Rq, r: Req)
    requires ReqOk(h, rq, r) && CurSeq(r.steps) != Data
    ensures Wants(h, rq, r.sub, r.caps)
  {
  }

  /** Kicking moves the whole pending list, every member of which began its step before the new flush. */
  lemma KickKeepsCore(s: State, now: int, timeout: int)
    requires Core(s)
    ensures Core(Kick(s, now, timeout)) && NoStall(Kick(s, now, timeout))
  {
    var t := Kick(s, now, timeout);
    if t != s {
      KickIsLegal(s);
      KickBegins(s, t);
      hide Requests, Running, Durable, EventOk;
      DurableAppend(s.log, IssueFlush);
      NoDupAppend(s.head, FlushItem);
    }
  }

  lemma KickIsLegal(s: State)
    requires Core(s) && !FlushInFlight(s) && s.queues[s.pendingIdx] != []
    ensures EventOk(s.log, IssueFlush)
  {
    var first := s.queues[s.pendingIdx][0];
    assert first in s.live && CurSeq(s.live[first].steps) != Data;
    hide NoDup, Durable, ReqOk;
    WaiterWants(s.log, first, s.live[first]);
  }

  lemma KickBegins(s: State, t: State)
    requires Core(s) && t.log == s.log + [IssueFlush] && t.live == s.live && t.queues == s.queues
    requires !FlushInFlight(s) && t.runningIdx == s.runningIdx && t.pendingIdx == 1 - s.pendingIdx && s.queues[s.pendingIdx] != []
    ensures Requests(t) && Running(t)
  {
    LastIssueAppend(s.log, IssueFlush);
    forall rq | rq in t.live ensures ReqOk(t.log, rq, t.live[rq]) { ReqOkAppend(s.log, IssueFlush, rq, s.live[rq]); }
    assert t.log[..|s.log|] == s.log;
    hide NoDup, Durable;
    forall rq | rq in t.queues[t.runningIdx] ensures Start(rq, t.live[rq]) in s.log {
      assert ReqOk(s.log, rq, s.live[rq]);
    }
  }

  /** A request whose completed steps are all backed by the log may take its next step. */
  lemma NextEventOk(h: seq<Event>, rq: Rq, r: Req, err: bool)
    requires LiftedOk(h, rq, r, err)
    ensures !err && CurSeq(r.steps) == Data ==> EventOk(h, QueueData(rq, DriverFua(r)))
    ensures err || CurSeq(r.steps) == Done ==> EventOk(h, End(rq, err))
  {
    if err || CurSeq(r.steps) == Done {
      assert err || MayEnd(h, rq, r.sub, r.caps);
      assert Insert(rq, r.sub, r.caps) in h;
    } else if CurSeq(r.steps) == Data {
      assert Policy(r.caps, r.sub).data && r.caps.flush;
    }
  }

  lemma LogQueueData(s: State, rq: Rq, r: Req)
    requires Core(s) && rq !in s.live && LiftedOk(s.log, rq, r, false) && CurSeq(r.steps) == Data
    ensures var u := s.(log := s.log + [QueueData(rq, DriverFua(r))]);
            OnLists(u) && Requests(u) && Running(u) && Durable(u.log) && ReqOk(u.log, rq, r)
  {
    var e := QueueData(rq, DriverFua(r));
    NextEventOk(s.log, rq, r, false);
    CoreAppendOther(s, s.(log := s.log + [e]), e);
    BackedAppend(s.log, e, rq, r);
    if DataEnded(s.log, rq) { DataEndedImpliesQueued(s.log, rq); }
  }

  lemma PlaceInData(s: State, rq: Rq, r: Req, now: int)
    requires Core(s) && rq !in s.live && LiftedOk(s.log, rq, r, false) && CurSeq(r.steps) == Data
    ensures Core(Place(s, rq, r, false, now))
  {
    hide Durable, ReqOk, LiftedOk;
    LogQueueData(s, rq, r);
    NoDupAppend(s.data, rq);
    NoDupAppend(s.head, DataItem(rq));
  }

  lemma PlaceInPending(s: State, rq: Rq, r: Req, now: int)
    requires Core(s) && rq !in s.live && LiftedOk(s.log, rq, r, false)
    requires CurSeq(r.steps) == PreFlush || CurSeq(r.steps) == PostFlush
    ensures Core(Place(s, rq, r, false, now))
  {
    hide Durable, Backed, Submitted, NoDup;
    PlacePendingLists(s, rq, r, now);
    hide OnLists;
  }

  lemma PlacePendingLists(s: State, rq: Rq, r: Req, now: int)
    requires OnLists(s) && rq !in s.live && (CurSeq(r.steps) == PreFlush || CurSeq(r.steps) == PostFlush)
    ensures OnLists(Place(s, rq, r, false, now))
  {
    NoDupAppend(s.queues[s.pendingIdx], rq);
    hide NoDup;
  }

  lemma PlaceKeepsCore(s: State, rq: Rq, r: Req, err: bool, now: int)
    requires Core(s) && rq !in s.live && LiftedOk(s.log, rq, r, err)
    ensures Core(Place(s, rq, r, err, now))
  {
    if err || CurSeq(r.steps) == Done {
      NextEventOk(s.log, rq, r, err);
      CoreAppendOther(s, Place(s, rq, r, err, now), End(rq, err));
    } else if CurSeq(r.steps) == Data {
      PlaceInData(s, rq, r, now);
    } else {
      PlaceInPending(s, rq, r, now);
    }
  }

  lemma {:induction false} DataEndedImpliesQueued(h: seq<Event>, rq: Rq)
    requires Durable(h) && DataEnded(h, rq)
    ensures Queued(h, rq)
  {
    var g := h[..|h| - 1];
    assert h == g + [h[|h| - 1]];
    if h[|h| - 1].DataDone? && h[|h| - 1].rq == rq {
      assert Queued(g, rq);
    } else {
      assert DataEnded(g, rq);
      DataEndedImpliesQueued(g, rq);
    }
    var f :| QueueData(rq, f) in g;
    assert QueueData(rq, f) in h;
  }

  lemma CompleteKeepsCore(s: State, rq: Rq, r: Req, done: Mask, err: bool, now: int, timeout: int)
    requires Core(s) && rq !in s.live && LiftedOk(s.log, rq, r.(steps := Or(r.steps, done)), err)
    ensures var t := Complete(s, rq, r, done, err, now, timeout); Core(t) && NoStall(t)
  {
    PlaceKeepsCore(s, rq, r.(steps := Or(r.steps, done)), err, now);
    KickKeepsCore(Place(s, rq, r.(steps := Or(r.steps, done)), err, now), now, timeout);
  }

  lemma LiveWasInserted(s: State)
    requires Requests(s)
    ensures forall rq :: rq in s.live ==> Inserted(s.log, rq)
  {
    forall rq | rq in s.live ensures Inserted(s.log, rq) { assert ReqOk(s.log, rq, s.live[rq]); }
  }

  /** In a durable log nothing happens to a request before it is inserted. */
  lemma {:induction false} FreshHasNoEvents(h: seq<Event>, rq: Rq)
    requires Durable(h) && !Inserted(h, rq)
    ensures forall e :: e in h ==> Subject(e) != rq
  {
    if h != [] {
      var g := h[..|h| - 1];
      assert h == g + [h[|h| - 1]];
      assert !Inserted(g, rq);
      FreshHasNoEvents(g, rq);
    }
  }

  lemma LogInsert(s: State, rq: Rq, sub: Submission, caps: Caps)
    requires Settled(s) && Sane(sub) && !Inserted(s.log, rq)
    ensures Settled(s.(log := s.log + [Insert(rq, sub, caps)]))
    ensures rq !in s.live && DataItem(rq) !in s.head && NormalItem(rq) !in s.head && NormalItem(rq) !in s.driver
    ensures forall e :: e in s.log ==> Subject(e) != rq
    ensures OnLists(s.(log := s.log + [Insert(rq, sub, caps)]))
  {
    LiveWasInserted(s);
    FreshHasNoEvents(s.log, rq);
    CoreAppendOther(s, s.(log := s.log + [Insert(rq, sub, caps)]), Insert(rq, sub, caps));
    var t := s.(log := s.log + [Insert(rq, sub, caps)]);
  }

  lemma BypassKeepsSettled(s: State, rq: Rq, r: Req)
    requires Settled(s) && Insert(rq, r.sub, r.caps) in s.log && rq !in s.live
    requires NormalItem(rq) !in s.head && NormalItem(rq) !in s.driver
    requires Plain(r.sub, r.caps) && !Bypassed(s.log, rq) && !Queued(s.log, rq) && !Ended(s.log, rq)
    ensures Settled(s.(head := s.head + [NormalItem(rq)], log := s.log + [Bypass(rq, DriverFua(r))]))
  {
    var t := s.(head := s.head + [NormalItem(rq)], log := s.log + [Bypass(rq, DriverFua(r))]);
    CoreAppendOther(s, t, Bypass(rq, DriverFua(r)));
    NoDupAppend(s.head, NormalItem(rq));
  }

  lemma CompleteSettles(s: State, rq: Rq, r: Req, done: Mask, err: bool, now: int, timeout: int)
    requires Core(s) && rq !in s.live && LiftedOk(s.log, rq, r.(steps := Or(r.steps, done)), err)
    requires IdleEmpty(s)
    ensures Settled(Complete(s, rq, r, done, err, now, timeout))
  {
    assert Indexed(s);
    hide Core, LiftedOk, Place, Kick, IdleEmpty, NoStall;
    CompleteKeepsCore(s, rq, r, done, err, now, timeout);
    PlaceIdle(s, rq, r.(steps := Or(r.steps, done)), err, now);
    KickSettles(Place(s, rq, r.(steps := Or(r.steps, done)), err, now), now, timeout);
  }

  lemma PlaceIdle(s: State, rq: Rq, r: Req, err: bool, now: int)
    requires Indexed(s) && IdleEmpty(s)
    ensures IdleEmpty(Place(s, rq, r, err, now))
  {
  }

  lemma KickSettles(s: State, now: int, timeout: int)
    requires Indexed(s) && IdleEmpty(s)
    ensures NoStall(Kick(s, now, timeout)) && IdleEmpty(Kick(s, now, timeout))
  {
  }

  lemma FreshLifted(h: seq<Event>, rq: Rq, r: Req)
    requires forall e :: e in h ==> Subject(e) != rq
    requires Sane(r.sub) && !Plain(r.sub, r.caps) && r.steps == Not(Policy(r.caps, r.sub))
    ensures LiftedOk(h + [Insert(rq, r.sub, r.caps)], rq, r, false)
  {
    var g := h + [Insert(rq, r.sub, r.caps)];
    assert Insert(rq, r.sub, r.caps) in g;
    assert !Queued(g, rq) && !Ended(g, rq) && !Bypassed(g, rq);
  }

  /** blk_insert_flush keeps the invariant. */
  lemma InsertKeepsSettled(s: State, rq: Rq, sub: Submission, caps: Caps, now: int, timeout: int)
    requires Settled(s) && Sane(sub) && !Inserted(s.log, rq)
    ensures Settled(InsertFlush(s, rq, sub, caps, now, timeout))
  {
    var u := s.(log := s.log + [Insert(rq, sub, caps)]);
    var r := Req(sub, caps, Mask(false, false, false));
    var policy := Policy(caps, sub);
    LogInsert(s, rq, sub, caps);
    if policy.data && !policy.pre && !policy.post {
      BypassKeepsSettled(u, rq, r);
    } else {
      assert Or(r.steps, Not(policy)) == Not(policy);
      FreshLifted(s.log, rq, r.(steps := Not(policy)));
      CompleteSettles(u, rq, r, Not(policy), false, now, timeout);
    }
  }

  /** Taking a request that waits for neither the running flush nor the driver off its list. */
  lemma LiftKeepsCore(s: State, rq: Rq)
    requires Core(s) && rq in s.live && rq !in s.data && (FlushInFlight(s) ==> rq !in s.queues[s.runningIdx])
    ensures Core(Lift(s, rq)) && rq !in Lift(s, rq).live
  {
    var t := Lift(s, rq);
    assert FlushInFlight(s) ==> t.queues[t.runningIdx] == s.queues[s.runningIdx];
    assert t.data == s.data;
  }

  lemma LiftDataKeepsLists(s: State, rq: Rq)
    requires OnLists(s) && Requests(s) && Running(s) && Durable(s.log) && rq in s.data
    ensures var t := Lift(s, rq); OnLists(t) && Requests(t) && Running(t) && rq !in t.live && t.queues == s.queues
  {
    assert Lift(s, rq).queues == s.queues;
  }

  lemma LiftDataKeepsCore(s: State, rq: Rq, err: bool)
    requires Core(s) && rq in s.data && DataItem(rq) in s.driver
    ensures var u := s.(driver := s.driver - {DataItem(rq)}, log := s.log + [DataDone(rq, err)]);
            Core(Lift(u, rq)) && rq !in Lift(u, rq).live
  {
    var e := DataDone(rq, err);
    assert EventOk(s.log, e) by { assert ReqOk(s.log, rq, s.live[rq]); }
    LiftDataKeepsLists(s, rq);
    hide ReqOk, Durable, NoDup;
    var t := Lift(s, rq).(driver := s.driver - {DataItem(rq)}, log := s.log + [e]);
    CoreAppendOther(Lift(s, rq), t, e);
    DriverReturnsData(s, t, rq);
  }

  lemma DriverReturnsData(s: State, t: State, rq: Rq)
    requires Items(s) && rq in s.data && DataItem(rq) in s.driver
    requires t.driver == s.driver - {DataItem(rq)} && t.head == s.head && t.data == Without(s.data, rq)
    requires s.log <= t.log && t.pendingIdx == s.pendingIdx && t.runningIdx == s.runningIdx
    ensures Items(t)
  {
    assert forall e :: e in s.log ==> e in t.log;
  }

  lemma DataDoneLifted(h: seq<Event>, rq: Rq, r: Req, err: bool)
    requires ReqOk(h, rq, r) && CurSeq(r.steps) == Data
    ensures LiftedOk(h + [DataDone(rq, err)], rq, r.(steps := Or(r.steps, MaskOf(Data))), err)
  {
    BackedAppend(h, DataDone(rq, err), rq, r);
    assert DataDone(rq, err) in h + [DataDone(rq, err)];
  }

  lemma LiftIdle(s: State, rq: Rq, err: bool)
    requires Indexed(s) && IdleEmpty(s)
    ensures var u := s.(driver := s.driver - {DataItem(rq)}, log := s.log + [DataDone(rq, err)]);
            IdleEmpty(Lift(u, rq)) && Lift(u, rq).log == u.log
  {
  }

  lemma DataInFlight(s: State, rq: Rq)
    requires Core(s) && DataItem(rq) in s.driver
    ensures Indexed(s) && rq in s.data && rq in s.live && ReqOk(s.log, rq, s.live[rq]) && CurSeq(s.live[rq].steps) == Data
  {
    hide ReqOk, Durable;
  }

  /** flush_data_end_io keeps the invariant. */
  lemma DataEndKeepsSettled(s: State, rq: Rq, err: bool, now: int, timeout: int)
    requires Settled(s) && DataItem(rq) in s.driver
    ensures rq in s.live && Settled(DataEnd(s, rq, err, now, timeout))
  {
    hide Core, ReqOk, LiftedOk, Complete, NoStall, IdleEmpty, Lift;
    DataInFlight(s, rq);
    var u := s.(driver := s.driver - {DataItem(rq)}, log := s.log + [DataDone(rq, err)]);
    LiftIdle(s, rq, err);
    LiftDataKeepsCore(s, rq, err);
    DataDoneLifted(s.log, rq, s.live[rq], err);
    CompleteSettles(Lift(u, rq), rq, s.live[rq], MaskOf(Data), err, now, timeout);
  }

  /** A flush issued after a request's step began completes that step. */
  lemma FlushedLifted(h: seq<Event>, rq: Rq, r: Req, a: nat, b: nat, err: bool)
    requires ReqOk(h, rq, r) && CurSeq(r.steps) != Data
    requires a <= |h| && Start(rq, r) in h[..a] && Span(h, a, b, err)
    ensures LiftedOk(h, rq, r.(steps := Or(r.steps, MaskOf(CurSeq(r.steps)))), err)
  {
    assert ServedSince(h, Start(rq, r), err);
  }

  /** Retiring a request never puts another one on a flush list. */
  lemma RetireEffect(u: State, rq: Rq, r: Req, err: bool, now: int, timeout: int)
    requires Indexed(u) && Sane(r.sub) && Backed(u.log, rq, r)
    requires CurSeq(r.steps) == PreFlush || CurSeq(r.steps) == PostFlush
    ensures var t := Complete(u, rq, r, MaskOf(CurSeq(r.steps)), err, now, timeout);
            && t.queues == u.queues && t.runningIdx == u.runningIdx
            && u.log <= t.log
            && (t.live == u.live || t.live == u.live[rq := r.(steps := Or(r.steps, MaskOf(CurSeq(r.steps))))])
  {
  }

  lemma SpanPrefix(h: seq<Event>, g: seq<Event>, a: nat, b: nat, err: bool)
    requires h <= g && Span(h, a, b, err)
    ensures Span(g, a, b, err)
  {
    assert g[..b] == h[..b];
  }

  /** The first member of the list being retired waits for a flush, and the flush from `a` to `b` serves it. */
  lemma FirstOfList(s: State, rest: seq<Rq>, a: nat, b: nat, err: bool)
    requires Retiring(s, rest, a, b, err) && rest != []
    ensures var rq := rest[0];
            && rq in s.live && rq !in s.data
            && CurSeq(s.live[rq].steps) in {PreFlush, PostFlush}
            && ReqOk(s.log, rq, s.live[rq])
            && Start(rq, s.live[rq]) in s.log[..a]
            && Lift(s, rq).queues[1 - s.runningIdx] == rest[1..]
    ensures Indexed(s) && NoDup(rest) && (FlushInFlight(s) ==> rest[0] !in s.queues[s.runningIdx])
  {
    var rq := rest[0];
    assert rq in s.queues[1 - s.runningIdx];
    assert ReqOk(s.log, rq, s.live[rq]);
    assert rq !in s.queues[s.runningIdx];
    assert rest[1..] == Without(rest[1..], rq);
  }

  lemma RetireOneEffect(s: State, rest: seq<Rq>, err: bool, now: int, timeout: int)
    requires Indexed(s) && rest != [] && rest[0] in s.live
    requires Sane(s.live[rest[0]].sub) && Backed(s.log, rest[0], s.live[rest[0]])
    requires CurSeq(s.live[rest[0]].steps) in {PreFlush, PostFlush}
    requires Lift(s, rest[0]).queues[1 - s.runningIdx] == rest[1..]
    ensures var t := RetireOne(s, rest[0], err, now, timeout);
            && t.queues[1 - t.runningIdx] == rest[1..] && t.runningIdx == s.runningIdx && s.log <= t.log
            && forall q :: q in s.live && q != rest[0] ==> q in t.live && t.live[q] == s.live[q]
  {
    RetireEffect(Lift(s, rest[0]), rest[0], s.live[rest[0]], err, now, timeout);
  }

  lemma RetireOneCore(s: State, rest: seq<Rq>, a: nat, b: nat, err: bool, now: int, timeout: int)
    requires Retiring(s, rest, a, b, err) && rest != []
    ensures var t := RetireOne(s, rest[0], err, now, timeout); Core(t) && NoStall(t)
  {
    FirstOfList(s, rest, a, b, err);
    var rq := rest[0];
    var r := s.live[rq];
    LiftKeepsCore(s, rq);
    FlushedLifted(s.log, rq, r, a, b, err);
    CompleteKeepsCore(Lift(s, rq), rq, r, MaskOf(CurSeq(r.steps)), err, now, timeout);
  }

  /** One turn of the flush_end_io loop: the next request of the list is retired and leaves it. */
  lemma RetireOneKeeps(s: State, rest: seq<Rq>, a: nat, b: nat, err: bool, now: int, timeout: int)
    requires Retiring(s, rest, a, b, err) && rest != []
    ensures rest[0] in s.live && CurSeq(s.live[rest[0]].steps) in {PreFlush, PostFlush}
    ensures var t := RetireOne(s, rest[0], err, now, timeout);
            Retiring(t, rest[1..], a, b, err) && NoStall(t) && t.runningIdx == s.runningIdx
  {
    hide Core, RetireOne;
    FirstOfList(s, rest, a, b, err);
    RetireOneCore(s, rest, a, b, err, now, timeout);
    RetireOneEffect(s, rest, err, now, timeout);
    StillRetiring(s, RetireOne(s, rest[0], err, now, timeout), rest, a, b, err);
  }

  lemma StillRetiring(s: State, t: State, rest: seq<Rq>, a: nat, b: nat, err: bool)
    requires BegunBefore(s, rest, a) && rest != [] && NoDup(rest) && Span(s.log, a, b, err) && s.log <= t.log
    requires Core(t) && t.queues[1 - t.runningIdx] == rest[1..]
    requires forall q :: q in s.live && q != rest[0] ==> q in t.live && t.live[q] == s.live[q]
    ensures Retiring(t, rest[1..], a, b, err)
  {
    StillBegun(s, t, rest, a);
    SpanPrefix(s.log, t.log, a, b, err);
  }

  lemma StillBegun(s: State, t: State, rest: seq<Rq>, a: nat)
    requires BegunBefore(s, rest, a) && rest != [] && NoDup(rest) && s.log <= t.log
    requires forall q :: q in s.live && q != rest[0] ==> q in t.live && t.live[q] == s.live[q]
    ensures BegunBefore(t, rest[1..], a)
  {
    assert t.log[..a] == s.log[..a];
  }

  lemma {:induction false} RetireKeeps(s: State, rest: seq<Rq>, a: nat, b: nat, err: bool, now: int, timeout: int)
    requires Retiring(s, rest, a, b, err) && (rest == [] ==> NoStall(s))
    ensures var t := Retire(s, rest, err, now, timeout); Retiring(t, [], a, b, err) && NoStall(t)
    decreases rest
  {
    if rest != [] {
      RetireOneKeeps(s, rest, a, b, err, now, timeout);
      RetireKeeps(RetireOne(s, rest[0], err, now, timeout), rest[1..], a, b, err, now, timeout);
    }
  }

  /** Accounting the completed flush opens the retirement of its list. */
  lemma AccountOpens(s: State, err: bool)
    requires Settled(s) && FlushInFlight(s) && FlushItem in s.driver
    ensures LastIssue(s.log) >= 0
    ensures Retiring(AccountFlush(s, err), s.queues[s.runningIdx], LastIssue(s.log), |s.log|, err)
  {
    var t := AccountFlush(s, err);
    var a := LastIssue(s.log);
    LastIssueAppend(s.log, FlushDone(err));
    DurableAppend(s.log, FlushDone(err));
    forall rq | rq in t.live ensures ReqOk(t.log, rq, t.live[rq]) { ReqOkAppend(s.log, FlushDone(err), rq, s.live[rq]); }
    assert t.log[..a] == s.log[..a];
    assert t.log[..|s.log|] == s.log;
  }

  /** flush_end_io keeps the invariant, also when it issues the next flush while it retires the last one. */
  lemma FlushEndKeepsSettled(s: State, err: bool, now: int, timeout: int)
    requires Settled(s) && FlushItem in s.driver
    ensures FlushInFlight(s) && Settled(FlushEnd(s, err, now, timeout))
  {
    assert FlushInFlight(s);
    AccountOpens(s, err);
    hide Core, Retire, AccountFlush;
    RetiredIsSettled(FlushEnd(s, err, now, timeout), LastIssue(s.log), |s.log|, err) by {
      RetireKeeps(AccountFlush(s, err), s.queues[s.runningIdx], LastIssue(s.log), |s.log|, err, now, timeout);
    }
  }

  lemma RetiredIsSettled(s: State, a: nat, b: nat, err: bool)
    requires Retiring(s, [], a, b, err) && NoStall(s)
    ensures Settled(s)
  {
  }

  lemma FetchKeepsSettled(s: State)
    requires Settled(s) && s.head != []
    ensures Settled(Fetch(s))
  {
    var t := Fetch(s);
    assert s.head == [s.head[0]] + t.head;
    forall x ensures x in s.head || x in s.driver <==> x in t.head || x in t.driver { }
    assert t.head == s.head[1..];
  }

  // ---------------------------------------------------------------- whole runs

  /** One entry point of the block layer or one action of the driver, at time `now`. */
  datatype Action =
    | Submit(rq: Rq, sub: Submission, caps: Caps, now: int)
    | Take
    | DataCompletes(rq: Rq, err: bool, now: int)
    | FlushCompletes(err: bool, now: int)

  ghost predicate Enabled(s: State, act: Action) {
    match act
    case Submit(rq, sub, _, _) => Sane(sub) && !Inserted(s.log, rq)
    case Take => s.head != []
    case DataCompletes(rq, _, _) => rq in s.live && DataItem(rq) in s.driver
    case FlushCompletes(_, _) => FlushItem in s.driver
  }

  ghost function Act(s: State, act: Action, timeout: int): (t: State)
    requires Indexed(s) && Enabled(s, act)
    ensures Indexed(t)
  {
    match act
    case Submit(rq, sub, caps, now) => InsertFlush(s, rq, sub, caps, now, timeout)
    case Take => Fetch(s)
    case DataCompletes(rq, err, now) => DataEnd(s, rq, err, now, timeout)
    case FlushCompletes(err, now) => FlushEnd(s, err, now, timeout)
  }

  /** `t` is reached from the empty queue by the actions `acts`. */
  ghost predicate Reaches(acts: seq<Action>, t: State, timeout: int) {
    if acts == [] then t == Empty
    else exists s :: Reaches(acts[..|acts| - 1], s, timeout) && Indexed(s) && Enabled(s, acts[|acts| - 1])
                     && t == Act(s, acts[|acts| - 1], timeout)
  }

  lemma ActKeepsSettled(s: State, act: Action, timeout: int)
    requires Settled(s) && Enabled(s, act)
    ensures Settled(Act(s, act, timeout))
  {
    hide Settled;
    match act
    case Submit(rq, sub, caps, now) => InsertKeepsSettled(s, rq, sub, caps, now, timeout);
    case Take => FetchKeepsSettled(s);
    case DataCompletes(rq, err, now) => DataEndKeepsSettled(s, rq, err, now, timeout);
    case FlushCompletes(err, now) => FlushEndKeepsSettled(s, err, now, timeout);
  }

  lemma {:induction false} EveryRunSettled(acts: seq<Action>, t: State, timeout: int)
    requires Reaches(acts, t, timeout)
    ensures Settled(t)
  {
    if acts != [] {
      var last := acts[|acts| - 1];
      var s :| Reaches(acts[..|acts| - 1], s, timeout) && Indexed(s) && Enabled(s, last) && t == Act(s, last, timeout);
      EveryRunSettled(acts[..|acts| - 1], s, timeout);
      ActKeepsSettled(s, last, timeout);
    }
  }

  lemma {:induction false} DurableAt(h: seq<Event>, i: nat)
    requires Durable(h) && i < |h|
    ensures Durable(h[..i]) && EventOk(h[..i], h[i])
  {
    var g := h[..|h| - 1];
    if i < |g| {
      DurableAt(g, i);
      assert g[..i] == h[..i];
    }
  }

  lemma {:induction false} InsertedOnce(h: seq<Event>, rq: Rq, sub: Submission, caps: Caps, sub': Submission, caps': Caps)
    requires Durable(h) && Insert(rq, sub, caps) in h && Insert(rq, sub', caps') in h
    ensures sub == sub' && caps == caps'
  {
    var g, e := h[..|h| - 1], h[|h| - 1];
    assert h == g + [e];
    if e.Insert? && e.rq == rq {
      assert !Inserted(g, rq);
    } else {
      InsertedOnce(g, rq, sub, caps, sub', caps');
    }
  }

  /** What the log of a run says about the data of a request, when the request was submitted as `sub`. */
  lemma DataEvent(h: seq<Event>, i: nat, rq: Rq, sub: Submission, caps: Caps)
    requires Durable(h) && i < |h| && h[i].QueueData? && h[i].rq == rq && Insert(rq, sub, caps) in h
    ensures h[i].fua == (caps.fua && sub.fua) && sub.sectors > 0 && caps.flush && !Plain(sub, caps)
    ensures sub.flush ==> FlushedSince(h[..i], Insert(rq, sub, caps))
    ensures !Queued(h[..i], rq)
  {
    DurableAt(h, i);
    var g := h[..i];
    hide FlushedSince, Durable;
    var sub', caps' :| Insert(rq, sub', caps') in g && !Plain(sub', caps') && sub'.sectors > 0 && caps'.flush
                       && h[i].fua == (caps'.fua && sub'.fua) && (sub'.flush ==> FlushedSince(g, Insert(rq, sub', caps')));
    InsertedOnce(h, rq, sub, caps, sub', caps');
  }

  lemma EndEvent(h: seq<Event>, i: nat, rq: Rq, err: bool, sub: Submission, caps: Caps)
    requires Durable(h) && i < |h| && h[i] == End(rq, err) && Insert(rq, sub, caps) in h
    ensures if err then MayFail(h[..i], rq, sub, caps) else MayEnd(h[..i], rq, sub, caps)
    ensures !Ended(h[..i], rq) && Sane(sub) && !Plain(sub, caps)
  {
    DurableAt(h, i);
    var g := h[..i];
    var j :| 0 <= j < |h| && h[j] == Insert(rq, sub, caps);
    DurableAt(h, j);
    hide MayEnd, MayFail, Durable;
    var sub', caps' :| Insert(rq, sub', caps') in g && !Plain(sub', caps')
                       && if err then MayFail(g, rq, sub', caps') else MayEnd(g, rq, sub', caps');
    InsertedOnce(h, rq, sub, caps, sub', caps');
  }

  lemma BypassEvent(h: seq<Event>, rq: Rq, fua: bool, sub: Submission, caps: Caps)
    requires Durable(h) && Bypass(rq, fua) in h && Insert(rq, sub, caps) in h
    ensures fua == (caps.fua && sub.fua) && Plain(sub, caps)
  {
    var i :| 0 <= i < |h| && h[i] == Bypass(rq, fua);
    DurableAt(h, i);
    hide Durable;
    var sub', caps' :| Insert(rq, sub', caps') in h[..i] && Plain(sub', caps') && fua == (caps'.fua && sub'.fua);
    InsertedOnce(h, rq, sub, caps, sub', caps');
  }

  /** The driver is asked for FUA exactly if the submitter asked for it and the device can do it. */
  lemma DriverSeesFua(acts: seq<Action>, t: State, timeout: int, rq: Rq, fua: bool, sub: Submission, caps: Caps)
    requires Reaches(acts, t, timeout) && Insert(rq, sub, caps) in t.log
    requires QueueData(rq, fua) in t.log || Bypass(rq, fua) in t.log
    ensures fua <==> caps.fua && sub.fua
  {
    EveryRunSettled(acts, t, timeout);
    hide Reaches, OnLists, Items, Requests, Running, Durable;
    if Bypass(rq, fua) in t.log {
      BypassEvent(t.log, rq, fua, sub, caps);
    } else {
      var i :| 0 <= i < |t.log| && t.log[i] == QueueData(rq, fua);
      DataEvent(t.log, i, rq, sub, caps);
    }
  }

  /** The flush a request asked for in front of its data has completed before the data is queued. */
  lemma PreflushBeforeData(acts: seq<Action>, t: State, timeout: int, i: nat, rq: Rq, sub: Submission, caps: Caps)
    requires Reaches(acts, t, timeout)
    requires i < |t.log| && t.log[i].QueueData? && t.log[i].rq == rq
    requires Insert(rq, sub, caps) in t.log && sub.flush
    ensures FlushedSince(t.log[..i], Insert(rq, sub, caps))
    ensures !Queued(t.log[..i], rq)
  {
    EveryRunSettled(acts, t, timeout);
    hide Reaches, OnLists, Items, Requests, Running, Durable;
    DataEvent(t.log, i, rq, sub, caps);
  }

  /** A request ends without error, and only once, when all it asked for is on the medium. */
  lemma EndMeansDurable(acts: seq<Action>, t: State, timeout: int, i: nat, rq: Rq, sub: Submission, caps: Caps)
    requires Reaches(acts, t, timeout)
    requires i < |t.log| && t.log[i] == End(rq, false) && Insert(rq, sub, caps) in t.log && caps.flush
    ensures sub.sectors > 0 ==> DataDone(rq, false) in t.log[..i]
    ensures sub.fua ==> (caps.fua && QueueData(rq, true) in t.log[..i]) || FlushedSince(t.log[..i], DataDone(rq, false))
    ensures sub.flush && sub.sectors == 0 ==> FlushedSince(t.log[..i], Insert(rq, sub, caps))
    ensures !Ended(t.log[..i], rq)
  {
    EveryRunSettled(acts, t, timeout);
    hide Reaches, OnLists, Items, Requests, Running, Durable, FlushedSince;
    EndEvent(t.log, i, rq, false, sub, caps);
  }

  /** A request ends with an error only if its own data failed, or a flush issued after it began to wait for one. */
  lemma EndMeansFailed(acts: seq<Action>, t: State, timeout: int, i: nat, rq: Rq, sub: Submission, caps: Caps)
    requires Reaches(acts, t, timeout)
    requires i < |t.log| && t.log[i] == End(rq, true) && Insert(rq, sub, caps) in t.log
    ensures DataDone(rq, true) in t.log[..i]
         || FailedSince(t.log[..i], Insert(rq, sub, caps)) || FailedSince(t.log[..i], DataDone(rq, false))
  {
    EveryRunSettled(acts, t, timeout);
    hide Reaches, OnLists, Items, Requests, Running, Durable, FailedSince;
    EndEvent(t.log, i, rq, true, sub, caps);
  }

  /** No flush is issued for nothing: when one is, some request that has not ended waits for it. */
  lemma FlushIsWanted(acts: seq<Action>, t: State, timeout: int, i: nat)
    requires Reaches(acts, t, timeout) && i < |t.log| && t.log[i] == IssueFlush
    ensures LastIssue(t.log[..i]) < 0 && exists rq, sub, caps :: Wants(t.log[..i], rq, sub, caps)
  {
    EveryRunSettled(acts, t, timeout);
    hide Reaches, OnLists, Items, Requests, Running, Durable, Wants;
    DurableAt(t.log, i);
  }

  /** A request is handed over for plain execution exactly if no flush is needed around its data. */
  lemma BypassedIffPlain(acts: seq<Action>, t: State, timeout: int, rq: Rq, sub: Submission, caps: Caps)
    requires Reaches(acts, t, timeout) && Insert(rq, sub, caps) in t.log
    ensures Bypassed(t.log, rq) <==> caps.flush && sub.sectors > 0 && !sub.flush && (sub.fua ==> caps.fua)
    ensures Bypassed(t.log, rq) ==> rq !in t.live && !Queued(t.log, rq) && !Ended(t.log, rq)
  {
    EveryRunSettled(acts, t, timeout);
    EveryRunAccounts(acts, t, timeout);
    hide Reaches, OnLists, Items, Running;
    assert Inserted(t.log, rq);
    if rq in t.live {
      assert ReqOk(t.log, rq, t.live[rq]);
      InsertedOnce(t.log, rq, sub, caps, t.live[rq].sub, t.live[rq].caps);
    }
    hide Requests, ReqOk, Durable;
    if Bypassed(t.log, rq) {
      var fua :| Bypass(rq, fua) in t.log;
      BypassEvent(t.log, rq, fua, sub, caps);
    }
    NotPlain(t.log, rq, sub, caps);
  }

  lemma NotPlain(h: seq<Event>, rq: Rq, sub: Submission, caps: Caps)
    requires Durable(h) && Insert(rq, sub, caps) in h
    ensures Queued(h, rq) || Ended(h, rq) ==> !Plain(sub, caps)
  {
    hide Durable;
    if Queued(h, rq) {
      var f :| QueueData(rq, f) in h;
      var i :| 0 <= i < |h| && h[i] == QueueData(rq, f);
      DataEvent(h, i, rq, sub, caps);
    }
    if Ended(h, rq) {
      var err :| End(rq, err) in h;
      var i :| 0 <= i < |h| && h[i] == End(rq, err);
      EndEvent(h, i, rq, err, sub, caps);
    }
  }

  /** A write that ends without error was executed exactly when the queue had REQ_FLUSH on insertion. */
  lemma ExecutedIffFlushCapable(acts: seq<Action>, t: State, timeout: int, rq: Rq, sub: Submission, caps: Caps)
    requires Reaches(acts, t, timeout)
    requires End(rq, false) in t.log && Insert(rq, sub, caps) in t.log && sub.sectors > 0
    ensures DataDone(rq, false) in t.log <==> caps.flush
  {
    EveryRunSettled(acts, t, timeout);
    if caps.flush {
      var i :| 0 <= i < |t.log| && t.log[i] == End(rq, false);
      EndMeansDurable(acts, t, timeout, i, rq, sub, caps);
    } else if DataDone(rq, false) in t.log {
      DataEndedImpliesQueued(t.log, rq);
      var f :| QueueData(rq, f) in t.log;
      var i :| 0 <= i < |t.log| && t.log[i] == QueueData(rq, f);
      DurableAt(t.log, i);
      var sub', caps' :| Insert(rq, sub', caps') in t.log[..i] && caps'.flush;
      InsertedOnce(t.log, rq, sub, caps, sub', caps');
      assert false;
    }
  }

  /**
   * Without the capabilities a write is ended at once and never executed. The test at blk-core.c:1508 lets such a write
   * through only with its flags off, but it reads flush_flags without the queue lock: if the driver clears them between
   * that test and blk-flush.c:300, which caches them because they may change, the write gets here.
   */
  lemma WriteDroppedWithoutCapability()
    ensures exists acts, t :: Reaches(acts, t, 0) && Insert(0, Submission(false, true, 8), Caps(false, false)) in t.log
                              && End(0, false) in t.log && t.live == map[] && t.head == []
  {
    var a := Submit(0, Submission(false, true, 8), Caps(false, false), 0);
    assert Enabled(Empty, a);
    var t := Act(Empty, a, 0);
    assert [a][..0] == [];
    assert Reaches([a][..0], Empty, 0);
    assert Reaches([a], t, 0);
    assert t.log == [Insert(0, a.sub, a.caps), End(0, false)];
  }

  // ---------------------------------------------------------------- no request is lost

  /** Every submitted request other than `lifted` is on a list, handed over for normal execution, or ended. */
  ghost predicate Accounted(s: State, lifted: set<Rq>) {
    forall rq :: Inserted(s.log, rq) && rq !in lifted ==> rq in s.live || Bypassed(s.log, rq) || Ended(s.log, rq)
  }

  lemma CompleteAccounts(s: State, rq: Rq, r: Req, done: Mask, err: bool, now: int, timeout: int)
    requires Indexed(s) && Accounted(s, {rq})
    ensures Accounted(Complete(s, rq, r, done, err, now, timeout), {})
  {
    var r' := r.(steps := Or(r.steps, done));
    var p := Place(s, rq, r', err, now);
    var t := Kick(p, now, timeout);
    assert rq in p.live || End(rq, err) in p.log;
    assert forall e :: e in s.log ==> e in p.log;
    assert forall e :: e in p.log ==> e in t.log;
    assert forall q, sub, caps :: Insert(q, sub, caps) in t.log ==> Insert(q, sub, caps) in s.log;
  }

  lemma {:induction false} RetireAccounts(s: State, rest: seq<Rq>, err: bool, now: int, timeout: int)
    requires Indexed(s) && Accounted(s, {})
    ensures Accounted(Retire(s, rest, err, now, timeout), {})
    decreases rest
  {
    if rest != [] {
      var rq := rest[0];
      if rq in s.live {
        assert Accounted(Lift(s, rq), {rq});
        CompleteAccounts(Lift(s, rq), rq, s.live[rq], MaskOf(CurSeq(s.live[rq].steps)), err, now, timeout);
      }
      RetireAccounts(RetireOne(s, rq, err, now, timeout), rest[1..], err, now, timeout);
    }
  }

  lemma ActAccounts(s: State, act: Action, timeout: int)
    requires Indexed(s) && Enabled(s, act) && Accounted(s, {})
    ensures Accounted(Act(s, act, timeout), {})
  {
    hide Complete, Retire;
    match act
    case Submit(rq, sub, caps, now) =>
      var e := Insert(rq, sub, caps);
      var u := s.(log := s.log + [e]);
      var r := Req(sub, caps, Mask(false, false, false));
      assert Accounted(u, {rq});
      CompleteAccounts(u, rq, r, Not(Policy(caps, sub)), false, now, timeout);
      var f := Bypass(rq, DriverFua(r));
      assert f in u.log + [f];
      assert Accounted(u.(log := u.log + [f]), {});
    case Take =>
    case DataCompletes(rq, err, now) =>
      var u := s.(driver := s.driver - {DataItem(rq)}, log := s.log + [DataDone(rq, err)]);
      assert Accounted(Lift(u, rq), {rq});
      CompleteAccounts(Lift(u, rq), rq, s.live[rq], MaskOf(Data), err, now, timeout);
    case FlushCompletes(err, now) =>
      assert Accounted(AccountFlush(s, err), {});
      RetireAccounts(AccountFlush(s, err), s.queues[s.runningIdx], err, now, timeout);
  }

  lemma {:induction false} EveryRunAccounts(acts: seq<Action>, t: State, timeout: int)
    requires Reaches(acts, t, timeout)
    ensures Accounted(t, {})
  {
    if acts != [] {
      var last := acts[|acts| - 1];
      var s :| Reaches(acts[..|acts| - 1], s, timeout) && Indexed(s) && Enabled(s, last) && t == Act(s, last, timeout);
      EveryRunAccounts(acts[..|acts| - 1], s, timeout);
      ActAccounts(s, last, timeout);
    }
  }

  // ---------------------------------------------------------------- order and timing

  /** What was queued stays in order; flush data goes in front of it, everything else behind. */
  ghost predicate Around(old': seq<Item>, new': seq<Item>) {
    exists front, back :: new' == front + old' + back
                          && (forall x :: x in front ==> x.DataItem?) && (forall x :: x in back ==> !x.DataItem?)
  }

  lemma AroundBy(old': seq<Item>, front: seq<Item>, back: seq<Item>)
    requires (forall x :: x in front ==> x.DataItem?) && (forall x :: x in back ==> !x.DataItem?)
    ensures Around(old', front + old' + back)
  {
  }

  lemma AroundTrans(a: seq<Item>, b: seq<Item>, c: seq<Item>)
    requires Around(a, b) && Around(b, c)
    ensures Around(a, c)
  {
    var f, g :| b == f + a + g && (forall x :: x in f ==> x.DataItem?) && (forall x :: x in g ==> !x.DataItem?);
    var f', g' :| c == f' + b + g' && (forall x :: x in f' ==> x.DataItem?) && (forall x :: x in g' ==> !x.DataItem?);
    assert c == (f' + f) + a + (g + g');
    AroundBy(a, f' + f, g + g');
  }

  lemma CompleteOrder(s: State, rq: Rq, r: Req, done: Mask, err: bool, now: int, timeout: int)
    requires Indexed(s)
    ensures Around(s.head, Complete(s, rq, r, done, err, now, timeout).head)
  {
    var p := Place(s, rq, r.(steps := Or(r.steps, done)), err, now);
    var t := Kick(p, now, timeout);
    var front := if p.head == s.head then [] else [DataItem(rq)];
    var back := if t.head == p.head then [] else [FlushItem];
    assert t.head == front + s.head + back;
    AroundBy(s.head, front, back);
  }

  lemma {:induction false} RetireOrder(s: State, rest: seq<Rq>, err: bool, now: int, timeout: int)
    requires Indexed(s)
    ensures Around(s.head, Retire(s, rest, err, now, timeout).head)
    decreases rest
  {
    hide Complete, Around;
    if rest == [] {
      assert s.head == [] + s.head + [];
      AroundBy(s.head, [], []);
    } else {
      var rq := rest[0];
      var t := RetireOne(s, rq, err, now, timeout);
      RetireOrder(t, rest[1..], err, now, timeout);
      if rq in s.live {
        CompleteOrder(Lift(s, rq), rq, s.live[rq], MaskOf(CurSeq(s.live[rq].steps)), err, now, timeout);
        AroundTrans(s.head, t.head, Retire(t, rest[1..], err, now, timeout).head);
      }
    }
  }

  /** Dispatch order: the driver takes the first entry; flush data overtakes what is queued, nothing else does. */
  lemma DispatchOrder(s: State, act: Action, timeout: int)
    requires Indexed(s) && Enabled(s, act)
    ensures Around(if act.Take? then s.head[1..] else s.head, Act(s, act, timeout).head)
  {
    hide Complete, Retire, Around;
    match act
    case Submit(rq, sub, caps, now) =>
      var u := s.(log := s.log + [Insert(rq, sub, caps)]);
      CompleteOrder(u, rq, Req(sub, caps, Mask(false, false, false)), Not(Policy(caps, sub)), false, now, timeout);
      assert s.head + [NormalItem(rq)] == [] + s.head + [NormalItem(rq)];
      AroundBy(s.head, [], [NormalItem(rq)]);
    case Take =>
      assert s.head[1..] == [] + s.head[1..] + [];
      AroundBy(s.head[1..], [], []);
    case DataCompletes(rq, err, now) =>
      var u := s.(driver := s.driver - {DataItem(rq)}, log := s.log + [DataDone(rq, err)]);
      CompleteOrder(Lift(u, rq), rq, s.live[rq], MaskOf(Data), err, now, timeout);
    case FlushCompletes(err, now) =>
      RetireOrder(AccountFlush(s, err), s.queues[s.runningIdx], err, now, timeout);
  }

  /** The actions that look whether a flush is due. */
  predicate Looks(act: Action) {
    match act
    case Submit(_, sub, caps, _) => !Plain(sub, caps)
    case DataCompletes(_, _, _) => true
    case _ => false
  }

  /** The pending list of `s` is still waiting in `t`, and since the same time. */
  predicate StillWaits(s: State, t: State)
    requires Indexed(s) && Indexed(t)
  {
    t.since == s.since && t.pendingIdx == s.pendingIdx && s.queues[s.pendingIdx] <= t.queues[t.pendingIdx]
  }

  lemma CompleteTimer(s: State, rq: Rq, r: Req, done: Mask, err: bool, now: int, timeout: int)
    requires Indexed(s) && !FlushInFlight(s) && s.queues[s.pendingIdx] != []
    ensures var t := Complete(s, rq, r, done, err, now, timeout);
            !FlushInFlight(t) ==> StillWaits(s, t) && t.data != [] && now < s.since + timeout
  {
  }

  /** While no flush is issued, whoever waits goes on waiting, and nobody who looks finds it due. */
  lemma TimerKeeps(s: State, act: Action, timeout: int)
    requires Indexed(s) && Enabled(s, act) && !act.FlushCompletes? && !FlushInFlight(s) && s.queues[s.pendingIdx] != []
    requires act.DataCompletes? ==> act.rq !in s.queues[s.pendingIdx]
    ensures var t := Act(s, act, timeout);
            !FlushInFlight(t) ==> StillWaits(s, t) && (Looks(act) ==> t.data != [] && act.now < s.since + timeout)
  {
    hide Complete;
    match act
    case Submit(rq, sub, caps, now) =>
      var u := s.(log := s.log + [Insert(rq, sub, caps)]);
      CompleteTimer(u, rq, Req(sub, caps, Mask(false, false, false)), Not(Policy(caps, sub)), false, now, timeout);
    case Take =>
    case DataCompletes(rq, err, now) =>
      var u := s.(driver := s.driver - {DataItem(rq)}, log := s.log + [DataDone(rq, err)]);
      CompleteTimer(Lift(u, rq), rq, s.live[rq], MaskOf(Data), err, now, timeout);
  }

  lemma CompleteDue(s: State, rq: Rq, r: Req, done: Mask, err: bool, now: int, timeout: int)
    requires Indexed(s) && !FlushInFlight(s)
    ensures var t := Complete(s, rq, r, done, err, now, timeout);
            FlushInFlight(t) ==> t.data == [] || t.since + timeout <= now
  {
  }

  /** And none is issued early: while flush data is in flight, only after the oldest of the list has waited long enough. */
  lemma FlushOnlyIfDue(s: State, act: Action, timeout: int)
    requires Indexed(s) && Enabled(s, act) && !act.FlushCompletes? && !FlushInFlight(s)
    ensures var t := Act(s, act, timeout);
            FlushInFlight(t) ==> Looks(act) && (t.data == [] || t.since + timeout <= act.now)
  {
    hide Complete;
    match act
    case Submit(rq, sub, caps, now) =>
      var u := s.(log := s.log + [Insert(rq, sub, caps)]);
      CompleteDue(u, rq, Req(sub, caps, Mask(false, false, false)), Not(Policy(caps, sub)), false, now, timeout);
    case Take =>
    case DataCompletes(rq, err, now) =>
      var u := s.(driver := s.driver - {DataItem(rq)}, log := s.log + [DataDone(rq, err)]);
      CompleteDue(Lift(u, rq), rq, s.live[rq], MaskOf(Data), err, now, timeout);
  }

  /** The actions happen one after the other, and no flush is in flight before or after any of them. */
  ghost predicate WithoutFlush(s: State, acts: seq<Action>, timeout: int)
    decreases |acts|
  {
    && Indexed(s) && !FlushInFlight(s)
    && (acts != [] ==> Enabled(s, acts[0]) && WithoutFlush(Act(s, acts[0], timeout), acts[1..], timeout))
  }

  /** A flush is not put off for ever: as long as none is issued for a waiting list, its time is not up. */
  lemma {:induction false} NotPutOff(s: State, acts: seq<Action>, timeout: int, i: nat)
    requires Settled(s) && s.queues[s.pendingIdx] != [] && WithoutFlush(s, acts, timeout)
    requires i < |acts| && Looks(acts[i])
    ensures acts[i].now < s.since + timeout
    decreases |acts|
  {
    Undisturbed(s, acts[0]);
    TimerKeeps(s, acts[0], timeout);
    ActKeepsSettled(s, acts[0], timeout);
    hide Settled, Act;
    if i > 0 { NotPutOff(Act(s, acts[0], timeout), acts[1..], timeout, i - 1); }
  }

  lemma Undisturbed(s: State, act: Action)
    requires Core(s) && Enabled(s, act) && !FlushInFlight(s)
    ensures !act.FlushCompletes? && (act.DataCompletes? ==> act.rq !in s.queues[s.pendingIdx])
  {
    hide NoDup, Durable, ReqOk;
  }

  /** The structure of every reachable state. */
  lemma EveryRunStructured(acts: seq<Action>, t: State, timeout: int)
    requires Reaches(acts, t, timeout)
    ensures Indexed(t)
    ensures FlushInFlight(t) <==> FlushItem in t.head || FlushItem in t.driver
    ensures forall rq :: rq in t.live ==>
              multiset(t.queues[0])[rq] + multiset(t.queues[1])[rq] + multiset(t.data)[rq] == 1
    ensures forall rq :: rq in t.data <==> DataItem(rq) in t.head || DataItem(rq) in t.driver
    ensures !FlushInFlight(t) && t.data == [] ==> t.live == map[]
  {
    hide Reaches, OnLists, Items, Requests, Running, Durable, IdleEmpty, NoStall;
    EveryRunSettled(acts, t, timeout);
    OnOneList(t);
    InTheDriver(t);
    NothingWaits(t);
  }

  lemma InTheDriver(t: State)
    requires Items(t)
    ensures FlushInFlight(t) <==> FlushItem in t.head || FlushItem in t.driver
    ensures forall rq :: rq in t.data <==> DataItem(rq) in t.head || DataItem(rq) in t.driver
  {
    hide NoDup;
  }

  lemma NothingWaits(t: State)
    requires OnLists(t) && NoStall(t) && IdleEmpty(t)
    ensures !FlushInFlight(t) && t.data == [] ==> t.live == map[]
  {
    hide NoDup;
    if !FlushInFlight(t) && t.data == [] {
      assert t.queues[0] == [] && t.queues[1] == [];
    }
  }

  lemma OnOneList(t: State)
    requires OnLists(t)
    ensures Indexed(t)
    ensures forall rq :: rq in t.live ==>
              multiset(t.queues[0])[rq] + multiset(t.queues[1])[rq] + multiset(t.data)[rq] == 1
  {
    forall rq | rq in t.live
      ensures multiset(t.queues[0])[rq] + multiset(t.queues[1])[rq] + multiset(t.data)[rq] == 1
    {
      NoDupCount(t.queues[0], rq);
      NoDupCount(t.queues[1], rq);
      NoDupCount(t.data, rq);
    }
  }

  /** The sequencer never stalls: once no flush and no flush data is in flight, every request has been served. */
  lemma QuiescentMeansServed(acts: seq<Action>, t: State, timeout: int, rq: Rq)
    requires Reaches(acts, t, timeout)
    requires FlushItem !in t.head && FlushItem !in t.driver
    requires forall q :: DataItem(q) !in t.head && DataItem(q) !in t.driver
    requires Inserted(t.log, rq)
    ensures Bypassed(t.log, rq) || Ended(t.log, rq)
  {
    EveryRunStructured(acts, t, timeout);
    EveryRunAccounts(acts, t, timeout);
    if t.data != [] { assert t.data[0] in t.data; }
  }
}
