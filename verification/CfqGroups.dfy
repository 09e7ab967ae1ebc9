/**
 * Accounting of queues and groups in omap/block/cfq-iosched.c.
 *
 * A busy queue is on one of the seven service trees of its group; a group with busy queues is on the group tree,
 * whose total weight scales the slices.
 */
module CfqGroups {
  import opened Common
  import opened Lists

  /** The service trees of a group: two priority classes of three workload types, and the idle class. */
  const TREES := 7

  /** `onRr` marks a busy queue; `prio` says that it is on the tree of its priority, sorted by the next sector. */
  datatype Queue = Queue(group: nat, tree: Option<nat>, onRr: bool, prio: bool)

  /** The service trees of asynchronous requests, of the best-effort and the real-time class, and of the idle class. */
  const ASYNC_BE := 0
  const ASYNC_RT := 3
  const IDLE := 6

  /** `counts` are the counts of the service trees; `onTree` says that the group is on the group tree. */
  datatype Group = Group(weight: nat, newWeight: nat, needsUpdate: bool, nr: int, counts: seq<int>, onTree: bool)

  function Here(g: nat, k: nat): Queue -> int { (q: Queue) => if q.group == g && q.tree == Some(k) then 1 else 0 }

  function InGroup(g: nat): Queue -> int { (q: Queue) => if q.group == g && q.tree.Some? then 1 else 0 }

  function Busy(): Queue -> int { (q: Queue) => if q.onRr then 1 else 0 }

  function InEffect(): Group -> int { (g: Group) => if g.onTree then g.weight else 0 }

  function Ident(): int -> int { (n: int) => n }

  // ---------------------------------------------------------------- the invariant

  ghost predicate QueueOk(q: Queue, groups: nat) {
    q.group < groups && (q.tree.Some? <==> q.onRr) && (q.tree.Some? ==> q.tree.value < TREES) && (q.prio ==> q.onRr)
  }

  /** The counters of a group say how many queues are where, and it is on the group tree exactly if it has any. */
  ghost predicate GroupOk(g: Group, i: nat, qs: seq<Queue>) {
    && |g.counts| == TREES && (forall k :: 0 <= k < TREES ==> g.counts[k] == Sum(qs, Here(i, k)))
    && g.nr == Sum(g.counts, Ident()) && g.nr == Sum(qs, InGroup(i))
    && (g.onTree <==> g.nr > 0)
  }

  ghost predicate AllOk(qs: seq<Queue>, gs: seq<Group>) {
    && (forall j :: 0 <= j < |qs| ==> QueueOk(qs[j], |gs|))
    && (forall i :: 0 <= i < |gs| ==> GroupOk(gs[i], i, qs))
  }

  /** `asked` is the weight each group was last given; it is the one in effect unless an update waits. */
  ghost predicate Weighed(gs: seq<Group>, asked: seq<nat>) {
    |asked| == |gs| && forall i :: 0 <= i < |gs| ==> asked[i] == if gs[i].needsUpdate then gs[i].newWeight else gs[i].weight
  }

  lemma NrNotNegative(qs: seq<Queue>, i: nat)
    ensures Sum(qs, InGroup(i)) >= 0
  {
    SumNonNegative(qs, InGroup(i));
  }

  lemma NrPositive(qs: seq<Queue>, i: nat, j: nat)
    requires j < |qs| && qs[j].group == i && qs[j].tree.Some?
    ensures Sum(qs, InGroup(i)) >= 1
  {
    SumAtLeast(qs, InGroup(i), j);
  }

  /** The counts of a group after one of its queues goes from one place to another. */
  function Moved(g: Group, from: Option<nat>, to: Option<nat>): Group
    requires |g.counts| == TREES && (from.Some? ==> from.value < TREES) && (to.Some? ==> to.value < TREES)
  {
    var c := if from.Some? then g.counts[from.value := g.counts[from.value] - 1] else g.counts;
    g.(counts := if to.Some? then c[to.value := c[to.value] + 1] else c)
  }

  function Flag(t: Option<nat>): int { if t.Some? then 1 else 0 }

  lemma MovedCounts(g: Group, i: nat, qs: seq<Queue>, j: nat, q: Queue)
    requires GroupOk(g, i, qs) && j < |qs| && qs[j].group == i == q.group
    requires (qs[j].tree.Some? ==> qs[j].tree.value < TREES) && (q.tree.Some? ==> q.tree.value < TREES)
    ensures forall k :: 0 <= k < TREES ==> Moved(g, qs[j].tree, q.tree).counts[k] == Sum(qs[j := q], Here(i, k))
  {
    hide Sum;
    forall k | 0 <= k < TREES ensures Moved(g, qs[j].tree, q.tree).counts[k] == Sum(qs[j := q], Here(i, k)) {
      SumUpdate(qs, Here(i, k), j, q);
    }
  }

  lemma MovedTotal(g: Group, i: nat, qs: seq<Queue>, j: nat, q: Queue)
    requires GroupOk(g, i, qs) && j < |qs| && qs[j].group == i == q.group
    requires (qs[j].tree.Some? ==> qs[j].tree.value < TREES) && (q.tree.Some? ==> q.tree.value < TREES)
    ensures var nr := g.nr - Flag(qs[j].tree) + Flag(q.tree);
            Sum(Moved(g, qs[j].tree, q.tree).counts, Ident()) == nr == Sum(qs[j := q], InGroup(i))
  {
    hide Sum, Here;
    var from, to := qs[j].tree, q.tree;
    SumUpdate(qs, InGroup(i), j, q);
    var c := if from.Some? then g.counts[from.value := g.counts[from.value] - 1] else g.counts;
    if from.Some? { SumUpdate(g.counts, Ident(), from.value, g.counts[from.value] - 1); }
    if to.Some? { SumUpdate(c, Ident(), to.value, c[to.value] + 1); }
  }

  /** A queue changes place: its group stays in order if its number of queues and its place on the tree follow. */
  lemma GroupFollows(g: Group, i: nat, qs: seq<Queue>, j: nat, q: Queue, g': Group)
    requires GroupOk(g, i, qs) && j < |qs| && qs[j].group == i == q.group
    requires (qs[j].tree.Some? ==> qs[j].tree.value < TREES) && (q.tree.Some? ==> q.tree.value < TREES)
    requires g'.counts == Moved(g, qs[j].tree, q.tree).counts && g'.nr == g.nr - Flag(qs[j].tree) + Flag(q.tree)
    requires g'.onTree <==> g'.nr > 0
    ensures GroupOk(g', i, qs[j := q])
  {
    MovedCounts(g, i, qs, j, q);
    MovedTotal(g, i, qs, j, q);
    hide Sum, Here, InGroup;
  }

  /** Other groups do not notice. */
  lemma OtherGroup(g: Group, i: nat, qs: seq<Queue>, j: nat, q: Queue)
    requires GroupOk(g, i, qs) && j < |qs| && qs[j].group != i && q.group != i
    ensures GroupOk(g, i, qs[j := q])
  {
    forall k | 0 <= k < TREES ensures g.counts[k] == Sum(qs[j := q], Here(i, k)) {
      SumUpdate(qs, Here(i, k), j, q);
    }
    SumUpdate(qs, InGroup(i), j, q);
  }

  lemma AllFollow(qs: seq<Queue>, gs: seq<Group>, j: nat, q: Queue, g': Group)
    requires AllOk(qs, gs) && j < |qs| && q.group == qs[j].group && QueueOk(q, |gs|)
    requires var g := gs[q.group];
             && |g.counts| == TREES && (qs[j].tree.Some? ==> qs[j].tree.value < TREES)
             && g'.counts == Moved(g, qs[j].tree, q.tree).counts && g'.nr == g.nr - Flag(qs[j].tree) + Flag(q.tree)
             && (g'.onTree <==> g'.nr > 0)
    ensures AllOk(qs[j := q], gs[q.group := g'])
  {
    hide Sum, GroupOk;
    var qs', gs' := qs[j := q], gs[q.group := g'];
    forall i | 0 <= i < |gs'| ensures GroupOk(gs'[i], i, qs') {
      assert GroupOk(gs[i], i, qs);
      if i == q.group {
        GroupFollows(gs[i], i, qs, j, q, g');
      } else {
        OtherGroup(gs[i], i, qs, j, q);
      }
    }
  }

  /** The group of a queue, with what the operations need to know about it. */
  lemma GroupOf(qs: seq<Queue>, gs: seq<Group>, j: nat)
    requires AllOk(qs, gs) && j < |qs|
    ensures QueueOk(qs[j], |gs|)
    ensures var g := gs[qs[j].group];
            && |g.counts| == TREES && g.nr >= 0 && (g.onTree <==> g.nr > 0) && (qs[j].onRr ==> g.nr >= 1)
  {
    var i := qs[j].group;
    assert GroupOk(gs[i], i, qs);
    NrNotNegative(qs, i);
    if qs[j].tree.Some? { NrPositive(qs, i, j); }
  }

  /** The queues that are neither asynchronous nor idle are not fewer than none. */
  lemma NrSyncNotNegative(g: Group, i: nat, qs: seq<Queue>)
    requires GroupOk(g, i, qs)
    ensures g.nr - (g.counts[ASYNC_RT] + g.counts[ASYNC_BE]) - g.counts[IDLE] >= 0
  {
    forall k | 0 <= k < TREES ensures g.counts[k] >= 0 {
      SumNonNegative(qs, Here(i, k));
    }
    var c := g.counts;
    var rest := [c[1], c[2], c[4], c[5]];
    assert c == [c[0], c[1], c[2], c[3], c[4], c[5], c[6]];
    SumNonNegative(rest, Ident());
    SevenTerms(c);
  }

  lemma SevenTerms(c: seq<int>)
    requires |c| == TREES
    ensures Sum(c, Ident()) == c[0] + c[1] + c[2] + c[3] + c[4] + c[5] + c[6]
  {
    var f := Ident();
    assert c[..7] == c;
    forall n | 0 <= n < 7 ensures Sum(c[..n + 1], f) == Sum(c[..n], f) + c[n] {
      assert c[..n + 1][..n] == c[..n];
    }
    assert Sum(c[..1], f) == c[0];
    assert Sum(c[..3], f) == c[0] + c[1] + c[2];
    assert Sum(c[..5], f) == c[0] + c[1] + c[2] + c[3] + c[4];
  }

  /** Whether a queue is on the tree of its priority concerns no counter. */
  lemma PrioOk(qs: seq<Queue>, gs: seq<Group>, j: nat, prio: bool)
    requires AllOk(qs, gs) && j < |qs| && (prio ==> qs[j].onRr)
    ensures AllOk(qs[j := qs[j].(prio := prio)], gs)
  {
    GroupOf(qs, gs, j);
    var g := gs[qs[j].group];
    if qs[j].tree.Some? {
      var k := qs[j].tree.value;
      assert g.counts[k := g.counts[k] - 1][k := g.counts[k]] == g.counts;
    }
    hide Sum, AllOk;
    assert gs[qs[j].group := g] == gs;
    AllFollow(qs, gs, j, qs[j].(prio := prio), g);
  }

  /** A group that loses its weight: the total stays right exactly if the group was on the tree, or weighs nothing. */
  lemma LosesWeight(gs: seq<Group>, i: nat)
    requires i < |gs|
    ensures var gs' := gs[i := gs[i].(onTree := false)];
            Sum(gs, InEffect()) - gs[i].weight == Sum(gs', InEffect()) <==> gs[i].onTree || gs[i].weight == 0
  {
    SumUpdate(gs, InEffect(), i, gs[i].(onTree := false));
  }

  class CfqData {
    var qs: seq<Queue>
    var gs: seq<Group>
    var totalWeight: int
    var busyQueues: int
    var active: Option<nat>
    ghost var asked: seq<nat>

    /** The counters are right. */
    ghost predicate Accounted()
      reads this`qs, this`gs, this`totalWeight, this`busyQueues, this`asked
    {
      && AllOk(qs, gs) && Weighed(gs, asked)
      && totalWeight == Sum(gs, InEffect())
      && busyQueues == Sum(qs, Busy())
    }

    /** Between operations the active queue is busy. */
    ghost predicate Valid()
      reads this
    {
      Accounted() && (active.Some? ==> active.value < |qs| && qs[active.value].onRr)
    }

    constructor ()
      ensures Valid() && qs == [] && gs == [] && active == None && asked == []
    {
      qs, gs, totalWeight, busyQueues, active, asked := [], [], 0, 0, None, [];
    }

    /** What is served is on a service tree that counts it, in a group that is on the group tree. */
    lemma ActiveIsServed()
      requires Valid() && active.Some?
      ensures var q := qs[active.value];
              && q.group < |gs| && gs[q.group].onTree && gs[q.group].nr >= 1
              && q.tree.Some? && q.tree.value < |gs[q.group].counts| && gs[q.group].counts[q.tree.value] >= 1
    {
      var j := active.value;
      var q := qs[j];
      GroupOf(qs, gs, j);
      assert GroupOk(gs[q.group], q.group, qs);
      SumAtLeast(qs, Here(q.group, q.tree.value), j);
    }

    /** cfq_alloc_cfqg and cfq_init_add_cfqg_lists */
    method NewGroup(weight: nat)
      requires Valid()
      modifies this`gs, this`asked
      ensures Valid() && gs == old(gs) + [Group(weight, 0, false, 0, [0, 0, 0, 0, 0, 0, 0], false)]
      ensures asked == old(asked) + [weight]
    {
      hide Sum, AllOk;
      var g := Group(weight, 0, false, 0, [0, 0, 0, 0, 0, 0, 0], false);
      SumAppend(gs, InEffect(), g);
      NewGroupOk(qs, gs, g);
      gs, asked := gs + [g], asked + [weight];
    }

    /** cfq_update_blkio_group_weight: the new weight waits until the group is off the tree. */
    method UpdateWeight(i: nat, weight: nat)
      requires Valid() && i < |gs|
      modifies this`gs, this`asked
      ensures Valid() && gs == old(gs)[i := old(gs)[i].(newWeight := weight, needsUpdate := true)]
      ensures |old(asked)| == |gs| && asked == old(asked)[i := weight]
    {
      SumUpdate(gs, InEffect(), i, gs[i].(newWeight := weight, needsUpdate := true));
      hide Sum;
      assert GroupOk(gs[i], i, qs);
      gs, asked := gs[i := gs[i].(newWeight := weight, needsUpdate := true)], asked[i := weight];
    }

    /** A queue that is created for a group; it has no requests yet. */
    method NewQueue(group: nat)
      requires Valid() && group < |gs|
      modifies this`qs
      ensures Valid() && qs == old(qs) + [Queue(group, None, false, false)]
    {
      hide Sum, AllOk;
      var q := Queue(group, None, false, false);
      SumAppend(qs, Busy(), q);
      NewQueueOk(qs, gs, q);
      qs := qs + [q];
    }

    /** cfq_group_service_tree_add: a requested weight takes effect now. */
    method GroupTreeAdd(i: nat)
      // BUG_ON(!RB_EMPTY_NODE(&cfqg->rb_node))
      requires i < |gs| && !gs[i].onTree
      modifies this`gs, this`totalWeight
      ensures gs == old(gs)[i := Enlisted(old(gs)[i])] && totalWeight == old(totalWeight) + gs[i].weight
      ensures Weighed(old(gs), asked) ==> Weighed(gs, asked) && gs[i].weight == asked[i]
    {
      if gs[i].needsUpdate {
        gs := gs[i := gs[i].(weight := gs[i].newWeight, needsUpdate := false)];
      }
      gs := gs[i := gs[i].(onTree := true)];
      totalWeight := totalWeight + gs[i].weight;
    }

    /** cfq_group_service_tree_del: the weight goes whether or not the group is on the tree. */
    method GroupTreeDel(i: nat)
      requires i < |gs|
      modifies this`gs, this`totalWeight
      ensures gs == old(gs)[i := old(gs)[i].(onTree := false)] && totalWeight == old(totalWeight) - gs[i].weight
      ensures old(totalWeight) == Sum(old(gs), InEffect()) ==>
                (totalWeight == Sum(gs, InEffect()) <==> old(gs)[i].onTree || old(gs)[i].weight == 0)
    {
      LosesWeight(gs, i);
      totalWeight := totalWeight - gs[i].weight;
      if gs[i].onTree {
        gs := gs[i := gs[i].(onTree := false)];
      }
      assert gs == old(gs)[i := old(gs)[i].(onTree := false)];
    }

    /** cfq_group_notify_queue_add */
    method NotifyAdd(i: nat)
      requires i < |gs|
      modifies this`gs, this`totalWeight
      ensures gs == old(gs)[i := OneMore(old(gs)[i])]
      ensures totalWeight == old(totalWeight) + if old(gs)[i].onTree then 0 else gs[i].weight
      ensures Weighed(old(gs), asked) ==>
                Weighed(gs, asked) && gs[i].weight == if old(gs)[i].onTree then old(gs)[i].weight else asked[i]
    {
      gs := gs[i := gs[i].(nr := gs[i].nr + 1)];
      if gs[i].onTree {
        return;
      }
      GroupTreeAdd(i);
    }

    /** cfq_group_notify_queue_del */
    method NotifyDel(i: nat)
      // BUG_ON(cfqg->nr_cfqq < 1)
      requires i < |gs| && gs[i].nr >= 1
      modifies this`gs, this`totalWeight
      ensures gs == old(gs)[i := OneLess(old(gs)[i])]
      ensures totalWeight == old(totalWeight) - if gs[i].nr == 0 then gs[i].weight else 0
    {
      hide Sum;
      gs := gs[i := gs[i].(nr := gs[i].nr - 1)];
      if gs[i].nr != 0 {
        return;
      }
      GroupTreeDel(i);
    }

    /** cfq_rb_erase of a queue from its service tree. */
    method EraseQueue(j: nat)
      requires j < |qs| && qs[j].group < |gs| && qs[j].tree.Some? && qs[j].tree.value < |gs[qs[j].group].counts|
      modifies this`qs, this`gs
      ensures qs == old(qs)[j := old(qs)[j].(tree := None)]
      ensures var g, k := old(gs)[qs[j].group], old(qs)[j].tree.value;
              gs == old(gs)[qs[j].group := g.(counts := g.counts[k := g.counts[k] - 1])]
    {
      var i, k := qs[j].group, qs[j].tree.value;
      gs := gs[i := gs[i].(counts := gs[i].counts[k := gs[i].counts[k] - 1])];
      qs := qs[j := qs[j].(tree := None)];
    }

    /**
     * cfq_service_tree_add into the service tree `k`; `same` says that the sort key did not change.
     * The queue is marked busy already.
     */
    method ServiceTreeAdd(j: nat, k: nat, front: bool, same: bool)
      requires j < |qs| && k < TREES && qs[j].onRr && (front ==> qs[j].tree.Some?)
      requires AllOk(Settled(qs, j), gs) && totalWeight == Sum(gs, InEffect())
      modifies this`qs, this`gs, this`totalWeight
      ensures AllOk(qs, gs) && totalWeight == Sum(gs, InEffect())
      ensures qs == old(qs)[j := old(qs)[j].(tree := Some(k))]
      ensures Follows(old(gs), gs, old(qs)[j], Some(k))
    {
      hide Sum, AllOk;
      ghost var qs0, gs0 := Settled(qs, j), gs;
      GroupOf(qs0, gs0, j);
      var i := qs[j].group;
      var isNew := true;
      if qs[j].tree.Some? {
        isNew := false;
        if same && qs[j].tree == Some(k) {
          StaysPut(qs, gs, j, k);
          return;
        }
        EraseQueue(j);
      }
      qs := qs[j := qs[j].(tree := Some(k))];
      gs := gs[i := gs[i].(counts := gs[i].counts[k := gs[i].counts[k] + 1])];
      if !(front || !isNew) {
        NotifyAdd(i);
      }
      AllFollow(qs0, gs0, j, qs[j], gs[i]);
      SumUpdate(gs0, InEffect(), i, gs[i]);
      assert qs == qs0[j := qs[j]] && gs == gs0[i := gs[i]];
    }

    /**
     * cfq_prio_tree_add, and the removal in cfq_del_rq_rb: `prio` says that the queue has a next request, is not of
     * the idle class and meets no other queue at that sector.
     */
    method PrioTreeAdd(j: nat, prio: bool)
      requires Accounted() && j < |qs| && (prio ==> qs[j].onRr)
      modifies this`qs
      ensures Accounted() && (old(Valid()) ==> Valid()) && qs == old(qs)[j := old(qs)[j].(prio := prio)]
    {
      hide Sum, AllOk;
      PrioOk(qs, gs, j, prio);
      SumUpdate(qs, Busy(), j, qs[j].(prio := prio));
      qs := qs[j := qs[j].(prio := prio)];
    }

    /** cfq_resort_rr_list: nothing for a queue that is not busy. */
    method Resort(j: nat, k: nat, same: bool, prio: bool)
      requires Accounted() && j < |qs| && k < TREES
      modifies this`qs, this`gs, this`totalWeight
      ensures Accounted() && (old(Valid()) ==> Valid()) && OnlyNewWeights(old(gs), gs, asked)
      ensures old(qs)[j].onRr ==>
                && qs == old(qs)[j := old(qs)[j].(tree := Some(k), prio := prio)]
                && Follows(old(gs), gs, old(qs)[j], Some(k))
      ensures !old(qs)[j].onRr ==> qs == old(qs) && gs == old(gs)
    {
      hide Sum, AllOk;
      if qs[j].onRr {
        GroupOf(qs, gs, j);
        SumUpdate(qs, Busy(), j, qs[j].(tree := Some(k)));
        assert Settled(qs, j) == qs;
        WeightsFollow(gs, asked, qs[j], Some(k));
        ServiceTreeAdd(j, k, false, same);
        PrioTreeAdd(j, prio);
      }
    }

    /** cfq_add_cfqq_rr */
    method AddQueue(j: nat, k: nat, prio: bool)
      // BUG_ON(cfq_cfqq_on_rr(cfqq))
      requires Valid() && j < |qs| && !qs[j].onRr && k < TREES
      modifies this`qs, this`gs, this`totalWeight, this`busyQueues
      ensures Valid() && qs == old(qs)[j := old(qs)[j].(onRr := true, tree := Some(k), prio := prio)]
      ensures Follows(old(gs), gs, old(qs)[j], Some(k)) && busyQueues == old(busyQueues) + 1
      ensures OnlyNewWeights(old(gs), gs, asked)
    {
      hide Sum, AllOk;
      GroupOf(qs, gs, j);
      SumUpdate(qs, Busy(), j, qs[j].(onRr := true, tree := Some(k)));
      ghost var qs0 := qs;
      qs := qs[j := qs[j].(onRr := true)];
      assert Settled(qs, j) == qs0;
      busyQueues := busyQueues + 1;
      WeightsFollow(gs, asked, qs[j], Some(k));
      ServiceTreeAdd(j, k, false, false);
      assert qs == qs0[j := qs0[j].(onRr := true, tree := Some(k))];
      PrioTreeAdd(j, prio);
    }

    /** cfq_del_cfqq_rr, which is called for the active queue only. */
    method DelQueue(j: nat)
      // BUG_ON(!cfq_cfqq_on_rr(cfqq))
      requires Accounted() && j < |qs| && qs[j].onRr
      modifies this`qs, this`gs, this`totalWeight, this`busyQueues
      ensures Accounted() && qs == old(qs)[j := Queue(old(qs)[j].group, None, false, false)]
      ensures Follows(old(gs), gs, old(qs)[j], None) && OnlyNewWeights(old(gs), gs, asked)
      // BUG_ON(!cfqd->busy_queues)
      ensures old(busyQueues) >= 1 && busyQueues == old(busyQueues) - 1
    {
      hide Sum, AllOk;
      ghost var qs0, gs0 := qs, gs;
      GroupOf(qs, gs, j);
      var i := qs[j].group;
      SumAtLeast(qs, Busy(), j);
      SumUpdate(qs, Busy(), j, Queue(i, None, false, false));
      WeightsFollow(gs, asked, qs[j], None);
      qs := qs[j := qs[j].(onRr := false, prio := false)];
      EraseQueue(j);
      NotifyDel(i);
      busyQueues := busyQueues - 1;
      AllFollow(qs0, gs0, j, qs[j], gs[i]);
      SumUpdate(gs0, InEffect(), i, gs[i]);
      assert qs == qs0[j := qs[j]] && gs == gs0[i := gs[i]];
    }

    /**
     * cfq_group_served: off the tree and on again, which is when a requested weight takes effect.
     * The counters stay right exactly if the group was on the tree.
     */
    method GroupServed(i: nat)
      requires Accounted() && i < |gs|
      modifies this`gs, this`totalWeight
      ensures gs == old(gs)[i := Enlisted(old(gs)[i])] && Weighed(gs, asked) && gs[i].weight == asked[i]
      ensures Accounted() <==> old(gs)[i].onTree
      ensures totalWeight == Sum(gs, InEffect()) <==> old(gs)[i].onTree || old(gs)[i].weight == 0
    {
      hide Sum, AllOk;
      ghost var gs0 := gs;
      GroupTreeDel(i);
      GroupTreeAdd(i);
      assert gs == gs0[i := Enlisted(gs0[i])];
      SumUpdate(gs0, InEffect(), i, gs[i]);
      if gs0[i].onTree {
        SameCounters(qs, gs0, i, gs[i]);
      } else {
        OffTheTree(qs, gs0, i, gs[i]);
      }
    }

    /** __cfq_set_active_queue of a queue found on a service tree, or on the tree of its priority, or of none. */
    method SetActive(next: Option<nat>)
      requires Valid() && (next.Some? ==> next.value < |qs| && (qs[next.value].tree.Some? || qs[next.value].prio))
      modifies this`active
      ensures Valid() && active == next
    {
      active := next;
    }

    /** cfq_slice_expired of the active queue; `empty` says that it has no requests left. */
    method SliceExpired(empty: bool, k: nat, same: bool, prio: bool)
      requires Valid() && k < TREES
      modifies this
      ensures Valid() && active == None
      ensures old(active).None? ==> qs == old(qs) && gs == old(gs)
      ensures old(active).Some? ==>
                var j := old(active).value;
                var i := old(qs)[j].group;
                && qs == old(qs)[j := Expired(old(qs)[j], empty, k, prio)]
                && i < |old(gs)|
                && Follows(old(gs)[i := Enlisted(old(gs)[i])], gs, old(qs)[j], if empty then None else Some(k))
      // the group that was served has the weight it was last given, and no other group a new one
      ensures asked == old(asked) && |asked| == |gs| == |old(gs)|
      ensures forall x :: 0 <= x < |gs| ==>
                gs[x].weight == if old(active).Some? && old(qs)[old(active).value].group == x then asked[x] else old(gs)[x].weight
    {
      hide Sum, AllOk;
      if active.None? {
        return;
      }
      var j := active.value;
      GroupOf(qs, gs, j);
      GroupServed(qs[j].group);
      if empty {
        DelQueue(j);
      }
      Resort(j, k, same, prio);
      active := None;
    }

    /**
     * The end of cfq_select_queue with a close cooperator, which was found on the tree of its priority while the
     * active queue, having no requests, was not on one.
     */
    method SwitchTo(close: nat, k: nat, same: bool)
      requires Valid() && k < TREES && close < |qs| && qs[close].prio && active.Some? && !qs[active.value].prio
      modifies this
      ensures Valid() && active == Some(close)
      ensures qs == old(qs)[old(active).value := Expired(old(qs)[old(active).value], true, k, false)]
    {
      hide Sum, AllOk;
      SliceExpired(true, k, same, false);
      SetActive(Some(close));
    }

    /**
     * cfq_preempt_queue by a queue that has just got a request: it is still busy after the active queue is gone,
     * and goes to the front of the service tree `t`.
     */
    method Preempt(j: nat, t: nat, sameKey: bool, empty: bool, k: nat, same: bool, prio: bool)
      requires Valid() && k < TREES && t < TREES && j < |qs| && qs[j].onRr && active.Some? && active != Some(j)
      modifies this
      ensures Valid() && active == None
      ensures var a := old(active).value;
              qs == old(qs)[a := Expired(old(qs)[a], empty, k, prio)][j := old(qs)[j].(tree := Some(t))]
    {
      hide Sum, AllOk;
      SliceExpired(empty, k, same, prio);
      // BUG_ON(!cfq_cfqq_on_rr(cfqq))
      assert qs[j].onRr;
      GroupOf(qs, gs, j);
      SumUpdate(qs, Busy(), j, qs[j].(tree := Some(t)));
      assert Settled(qs, j) == qs;
      WeightsFollow(gs, asked, qs[j], Some(t));
      ServiceTreeAdd(j, t, true, sameKey);
    }
  }

  /** A queue after its slice: gone from the trees if it is empty, else sorted in again. */
  function Expired(q: Queue, empty: bool, k: nat, prio: bool): Queue {
    if empty then Queue(q.group, None, false, false) else q.(tree := Some(k), prio := prio)
  }

  /** Only the group of a queue changes when the queue moves: its counts, its number of queues, its place on the tree. */
  ghost predicate Follows(gs: seq<Group>, gs': seq<Group>, q: Queue, to: Option<nat>) {
    && q.group < |gs| && |gs[q.group].counts| == TREES
    && (q.tree.Some? ==> q.tree.value < TREES) && (to.Some? ==> to.value < TREES)
    && var g := Moved(gs[q.group], q.tree, to);
    gs' == gs[q.group := if q.tree.None? && to.Some? then OneMore(g) else if q.tree.Some? && to.None? then OneLess(g) else g]
  }

  function OneMore(g: Group): Group { if g.onTree then g.(nr := g.nr + 1) else Enlisted(g.(nr := g.nr + 1)) }

  function OneLess(g: Group): Group { g.(nr := g.nr - 1, onTree := g.onTree && g.nr != 1) }

  /** A group has the weight it had, and one that has gone on the tree the weight it was last given. */
  ghost predicate OnlyNewWeights(gs: seq<Group>, gs': seq<Group>, asked: seq<nat>) {
    |gs'| == |gs| == |asked| &&
    forall i :: 0 <= i < |gs| ==> gs'[i].weight == if !gs[i].onTree && gs'[i].onTree then asked[i] else gs[i].weight
  }

  lemma WeightsFollow(gs: seq<Group>, asked: seq<nat>, q: Queue, to: Option<nat>)
    requires Weighed(gs, asked)
    ensures forall gs' :: Follows(gs, gs', q, to) ==> Weighed(gs', asked) && OnlyNewWeights(gs, gs', asked)
  {
  }

  lemma StaysPut(qs: seq<Queue>, gs: seq<Group>, j: nat, k: nat)
    requires j < |qs| && qs[j].onRr && qs[j].tree == Some(k) && k < TREES
    requires qs[j].group < |gs| && |gs[qs[j].group].counts| == TREES
    ensures Settled(qs, j) == qs == qs[j := qs[j].(tree := Some(k))] && Follows(gs, gs, qs[j], Some(k))
  {
    var i := qs[j].group;
    var c := gs[i].counts;
    assert c[k := c[k] - 1][k := c[k]] == c;
    assert gs[i := gs[i]] == gs;
  }

  /** The queue with its mark as its place says. */
  function Settled(qs: seq<Queue>, j: nat): seq<Queue>
    requires j < |qs|
  {
    qs[j := qs[j].(onRr := qs[j].tree.Some?)]
  }

  lemma SameCounters(qs: seq<Queue>, gs: seq<Group>, i: nat, g: Group)
    requires AllOk(qs, gs) && i < |gs| && g.nr == gs[i].nr && g.counts == gs[i].counts && g.onTree == gs[i].onTree
    ensures AllOk(qs, gs[i := g])
  {
    hide Sum;
    assert GroupOk(gs[i], i, qs);
    var gs' := gs[i := g];
    forall x | 0 <= x < |gs'| ensures GroupOk(gs'[x], x, qs) {
      assert GroupOk(gs[x], x, qs);
    }
  }

  /** A group that is put on the tree without queues. */
  lemma OffTheTree(qs: seq<Queue>, gs: seq<Group>, i: nat, g: Group)
    requires AllOk(qs, gs) && i < |gs| && !gs[i].onTree && g.nr == gs[i].nr && g.onTree
    ensures !AllOk(qs, gs[i := g])
  {
    hide Sum;
    assert GroupOk(gs[i], i, qs);
    var gs' := gs[i := g];
    assert gs'[i] == g && !GroupOk(gs'[i], i, qs);
  }

  /** On the group tree, with the requested weight. */
  function Enlisted(g: Group): Group {
    (if g.needsUpdate then g.(weight := g.newWeight, needsUpdate := false) else g).(onTree := true)
  }

  lemma NewGroupOk(qs: seq<Queue>, gs: seq<Group>, g: Group)
    requires AllOk(qs, gs) && |g.counts| == TREES && g.nr == 0 && !g.onTree
    requires forall k :: 0 <= k < TREES ==> g.counts[k] == 0
    ensures AllOk(qs, gs + [g])
  {
    var i := |gs|;
    forall k | 0 <= k < TREES ensures g.counts[k] == Sum(qs, Here(i, k)) {
      SumZero(qs, Here(i, k));
    }
    SumZero(qs, InGroup(i));
    SumZero(g.counts, Ident());
    hide Sum;
    assert GroupOk(g, i, qs);
    forall x | 0 <= x < |gs + [g]| ensures GroupOk((gs + [g])[x], x, qs) {
      if x < |gs| { assert GroupOk(gs[x], x, qs); }
    }
  }

  lemma NewQueueOk(qs: seq<Queue>, gs: seq<Group>, q: Queue)
    requires AllOk(qs, gs) && QueueOk(q, |gs|) && q.tree.None?
    ensures AllOk(qs + [q], gs)
  {
    hide Sum;
    forall i | 0 <= i < |gs| ensures GroupOk(gs[i], i, qs + [q]) {
      assert GroupOk(gs[i], i, qs);
      forall k | 0 <= k < TREES ensures gs[i].counts[k] == Sum(qs + [q], Here(i, k)) {
        SumAppend(qs, Here(i, k), q);
      }
      SumAppend(qs, InGroup(i), q);
    }
  }
}
