/**
 * The request-queue object that blk-flush.c works on, updated in place by its entry points.
 * Every method is tied to the transition function of module Flush that specifies it; the BUG_ONs of the
 * source are preconditions of CompleteSeq or asserts, discharged from the invariant.
 */
module FlushQueue {
  import opened Lists
  import opened Flush

  class RequestQueue {
    var live: map<Rq, Req>
    var queues: seq<seq<Rq>>
    var pendingIdx: nat
    var runningIdx: nat
    var dataInFlight: seq<Rq>
    var queueHead: seq<Item>
    var driver: set<Item>
    var pendingSince: int
    var delayed: bool            // flush_queue_delayed
    const timeout: int           // FLUSH_PENDING_TIMEOUT
    ghost var log: seq<Event>

    ghost function View(): State
      reads this
    {
      State(live, queues, pendingIdx, runningIdx, dataInFlight, queueHead, driver, pendingSince, log)
    }

    ghost predicate Valid()
      reads this
    {
      Settled(View())
    }

    constructor (timeout: int)
      ensures View() == Empty && Valid() && this.timeout == timeout && !delayed
    {
      live, queues, pendingIdx, runningIdx := map[], [[], []], 0, 0;
      dataInFlight, queueHead, driver, pendingSince, delayed := [], [], {}, 0, false;
      this.timeout := timeout;
      log := [];
    }

    /** blk_kick_flush: true if a flush was issued. */
    method KickFlush(now: int) returns (issued: bool)
      requires Indexed(View())
      modifies this`pendingIdx, this`queueHead, this`log
      ensures View() == Kick(old(View()), now, timeout)
      ensures issued <==> FlushInFlight(View()) && !old(FlushInFlight(View()))
      ensures issued <==> |queueHead| > |old(queueHead)|
      ensures |queueHead| >= |old(queueHead)|
    {
      if pendingIdx != runningIdx || queues[pendingIdx] == [] {
        return false;
      }
      if dataInFlight != [] && now < pendingSince + timeout {
        return false;
      }
      pendingIdx := 1 - pendingIdx;
      queueHead := queueHead + [FlushItem];
      log := log + [IssueFlush];
      return true;
    }

    /** list_del on `rq->flush.list`; the request is in the caller's hands. */
    method Unlink(rq: Rq)
      requires Indexed(View())
      modifies this`queues, this`dataInFlight, this`live
      ensures View() == Lift(old(View()), rq)
    {
      queues := [Without(queues[0], rq), Without(queues[1], rq)];
      dataInFlight := Without(dataInFlight, rq);
      live := live - {rq};
    }

    /** The switch of blk_flush_complete_seq: put the request where its next step happens. */
    method Enter(rq: Rq, r: Req, err: bool, now: int) returns (queued: bool)
      requires Indexed(View())
      modifies this`queues, this`dataInFlight, this`live, this`queueHead, this`pendingSince, this`log
      ensures View() == Place(old(View()), rq, r, err, now)
      ensures queued <==> |queueHead| > |old(queueHead)|
      ensures |queueHead| >= |old(queueHead)|
    {
      queued := false;
      var step := if err then Done else CurSeq(r.steps);
      match step {
        case Data =>
          live := live[rq := r];
          dataInFlight := dataInFlight + [rq];
          queueHead := [DataItem(rq)] + queueHead;
          log := log + [QueueData(rq, DriverFua(r))];
          queued := true;
        case Done =>
          log := log + [End(rq, err)];
        case _ =>
          if queues[pendingIdx] == [] {
            pendingSince := now;
          }
          live := live[rq := r];
          queues := queues[pendingIdx := queues[pendingIdx] + [rq]];
      }
    }

    /** blk_flush_complete_seq: true if something was added to the dispatch queue. */
    method CompleteSeq(rq: Rq, done: Mask, err: bool, now: int) returns (queued: bool)
      requires Indexed(View()) && rq in live
      requires Disjoint(live[rq].steps, done)                                              // BUG_ON at 150
      requires err || CurSeq(Or(live[rq].steps, done)) == Done ==> DataItem(rq) !in queueHead   // BUG_ON at 180
      modifies this
      ensures View() == Complete(Lift(old(View()), rq), rq, old(live[rq]), done, err, now, timeout)
      ensures queued <==> |queueHead| > |old(queueHead)|
      ensures |queueHead| >= |old(queueHead)|
      ensures unchanged(`delayed)
    {
      hide Place, Kick, Lift;
      var r := live[rq].(steps := Or(live[rq].steps, done));
      Unlink(rq);
      assert queueHead == old(queueHead);
      queued := Enter(rq, r, err, now);
      var issued := KickFlush(now);
      queued := queued || issued;
    }

    /** The last lines of blk_insert_flush: `rq` enters the flush machinery. */
    method StartSequence(rq: Rq, r: Req, policy: Mask, now: int)
      requires OnLists(View()) && rq !in live && DataItem(rq) !in queueHead
      requires r.steps == Mask(false, false, false)
      modifies this
      ensures View() == Complete(old(View()), rq, r, Not(policy), false, now, timeout)
      ensures unchanged(`delayed)
    {
      LiftFresh(View(), rq, r);
      hide Complete, OnLists;
      live := live[rq := r];
      var _ := CompleteSeq(rq, Not(policy), false, now);
    }

    /** blk_insert_flush */
    method InsertFlush(rq: Rq, sub: Submission, caps: Caps, now: int)
      requires Valid() && Sane(sub) && !Inserted(log, rq)
      modifies this
      ensures Valid() && View() == Flush.InsertFlush(old(View()), rq, sub, caps, now, timeout)
      ensures unchanged(`delayed)
    {
      hide Settled, Complete, OnLists;
      InsertKeepsSettled(View(), rq, sub, caps, now, timeout);
      LogInsert(View(), rq, sub, caps);
      var policy := Policy(caps, sub);
      log := log + [Insert(rq, sub, caps)];
      var r := Req(sub, caps, Mask(false, false, false));
      if policy.data && !policy.pre && !policy.post {
        queueHead := queueHead + [NormalItem(rq)];
        log := log + [Bypass(rq, DriverFua(r))];
      } else {
        StartSequence(rq, r, policy, now);
      }
    }

    /** blk_fetch_request: the driver takes the first entry of the dispatch queue. */
    method FetchRequest() returns (item: Item)
      requires Valid() && queueHead != []
      modifies this`queueHead, this`driver
      ensures Valid() && View() == Fetch(old(View())) && item == old(queueHead)[0]
    {
      FetchKeepsSettled(View());
      hide Settled;
      item := queueHead[0];
      queueHead, driver := queueHead[1..], driver + {item};
    }

    /** flush_data_end_io: the queue is run when something was queued. */
    method DataEndIo(rq: Rq, err: bool, now: int) returns (ran: bool)
      requires Valid() && DataItem(rq) in driver
      modifies this
      ensures Valid()
      ensures rq in old(live) && View() == DataEnd(old(View()), rq, err, now, timeout)
      ensures ran <==> |queueHead| > |old(queueHead)|
      ensures unchanged(`delayed)
    {
      DataEndKeepsSettled(View(), rq, err, now, timeout);
      assert ReqOk(log, rq, live[rq]);
      driver := driver - {DataItem(rq)};
      log := log + [DataDone(rq, err)];
      ran := CompleteSeq(rq, MaskOf(Data), err, now);
    }

    /** The loop of flush_end_io over the list `running`, served by the flush from `a` to `b` of the log. */
    method RetireList(running: nat, err: bool, now: int, ghost a: nat, ghost b: nat) returns (queued: bool)
      requires Indexed(View()) && running == 1 - runningIdx && Retiring(View(), queues[running], a, b, err)
      modifies this
      ensures Indexed(View()) && View() == Retire(old(View()), old(queues[running]), err, now, timeout)
      ensures queued <==> |queueHead| > |old(queueHead)|
      ensures unchanged(`delayed)
    {
      hide Core, Complete, BegunBefore, Span;
      queued := false;
      // list_for_each_entry_safe: each member leaves the list before the next one is looked at
      while queues[running] != []
        invariant Indexed(View()) && runningIdx == 1 - running
        invariant Retiring(View(), queues[running], a, b, err)
        invariant Retire(View(), queues[running], err, now, timeout)
               == Retire(old(View()), old(queues[running]), err, now, timeout)
        invariant |queueHead| >= |old(queueHead)|
        invariant queued <==> |queueHead| > |old(queueHead)|
        invariant delayed == old(delayed)
        decreases |queues[running]|
      {
        var rq := queues[running][0];
        RetireOneKeeps(View(), queues[running], a, b, err, now, timeout);
        var step := CurSeq(live[rq].steps);
        assert step == PreFlush || step == PostFlush;                      // BUG_ON at 210
        NotOnQueueHead(View(), rq);
        var q := CompleteSeq(rq, MaskOf(step), err, now);
        queued := queued || q;
      }
    }

    /** flush_end_io: retires the running list, possibly issuing the next flush on the way. */
    method FlushEndIo(err: bool, now: int) returns (ran: bool)
      requires Valid() && FlushItem in driver
      modifies this
      ensures Valid() && View() == FlushEnd(old(View()), err, now, timeout)
      ensures ran <==> |queueHead| > |old(queueHead)| || old(delayed)
      ensures !delayed
    {
      hide Core, Retiring;
      FlushEndKeepsSettled(View(), err, now, timeout);
      assert pendingIdx != runningIdx;                                     // BUG_ON at 200
      AccountOpens(View(), err);
      var running := runningIdx;
      ghost var a, b := LastIssue(log), |log|;
      runningIdx := 1 - runningIdx;
      driver := driver - {FlushItem};
      log := log + [FlushDone(err)];
      var queued := RetireList(running, err, now, a, b);
      ran := queued || delayed;
      delayed := false;
    }
  }

  lemma LiftFresh(s: State, rq: Rq, r: Req)
    requires OnLists(s) && rq !in s.live
    ensures Lift(s.(live := s.live[rq := r]), rq) == s
  {
    assert s.live[rq := r] - {rq} == s.live;
    assert s.queues == [s.queues[0], s.queues[1]];
  }

  lemma NotOnQueueHead(s: State, rq: Rq)
    requires Core(s) && rq in s.live && CurSeq(s.live[rq].steps) != Data
    ensures DataItem(rq) !in s.head
  {
  }
}
