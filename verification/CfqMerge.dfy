/**
 * Merging of cooperating queues in omap/block/cfq-iosched.c.
 *
 * A queue that is scheduled to merge points to the queue it merges into, which in turn may point further. Processes
 * follow these pointers lazily, so a queue that is pointed to must not go away while someone may still follow.
 */
module CfqMerge {
  import opened Common

  /** A slot of memory that may hold a queue. `rd` and `wr` are the requests allocated per direction. */
  datatype Queue = Queue(live: bool, ref: int, rd: nat, wr: nat, next: Option<nat>)

  /** cfqq_process_refs */
  function ProcessRefs(q: Queue): int { if q.live then q.ref - q.rd - q.wr else 0 }

  function Share(q: Queue, x: nat): int { if q.next == Some(x) then ProcessRefs(q) else 0 }

  /** The process references of all queues that are scheduled to merge into `x`. */
  function Into(qs: seq<Queue>, x: nat): int {
    if qs == [] then 0 else Into(qs[..|qs| - 1], x) + Share(qs[|qs| - 1], x)
  }

  function One(c: Option<nat>, x: nat): nat { if c == Some(x) then 1 else 0 }

  /** The contexts that point at `x`. */
  function Pointing(ctxs: seq<Option<nat>>, x: nat): nat {
    if ctxs == [] then 0 else Pointing(ctxs[..|ctxs| - 1], x) + One(ctxs[|ctxs| - 1], x)
  }

  // ---------------------------------------------------------------- the invariant

  /** Enough references for everyone who may come, and one more at `spare`. */
  ghost predicate Covered(qs: seq<Queue>, ctxs: seq<Option<nat>>, spare: Option<nat>) {
    forall x :: 0 <= x < |qs| ==> ProcessRefs(qs[x]) >= Pointing(ctxs, x) + Into(qs, x) + One(spare, x)
  }

  ghost predicate NonNegative(qs: seq<Queue>) { forall i :: 0 <= i < |qs| ==> ProcessRefs(qs[i]) >= 0 }

  /** A live queue has references, and one that is gone has no requests left. */
  ghost predicate Sound(qs: seq<Queue>) {
    NonNegative(qs) && forall i :: 0 <= i < |qs| ==> if qs[i].live then qs[i].ref > 0 else qs[i].rd == 0 && qs[i].wr == 0
  }

  /** Merge pointers lead to ever higher ranks. */
  ghost predicate Ranked(qs: seq<Queue>, rank: seq<nat>, height: nat) {
    && |rank| == |qs| && (forall i :: 0 <= i < |rank| ==> rank[i] < height)
    && (forall i :: 0 <= i < |qs| && qs[i].next.Some? ==> qs[i].next.value < |qs| && rank[i] < rank[qs[i].next.value])
  }

  ghost predicate InRange(ctxs: seq<Option<nat>>, n: nat) {
    forall c :: 0 <= c < |ctxs| && ctxs[c].Some? ==> ctxs[c].value < n
  }

  lemma {:induction false} IntoUpdate(qs: seq<Queue>, i: nat, q: Queue, x: nat)
    requires i < |qs|
    ensures Into(qs[i := q], x) == Into(qs, x) - Share(qs[i], x) + Share(q, x)
    decreases |qs|
  {
    var n := |qs| - 1;
    if i == n {
      assert qs[i := q][..n] == qs[..n];
    } else {
      assert qs[i := q][..n] == qs[..n][i := q];
      IntoUpdate(qs[..n], i, q, x);
    }
  }

  lemma {:induction false} IntoBounds(qs: seq<Queue>, i: nat, x: nat)
    requires NonNegative(qs) && i < |qs|
    ensures 0 <= Share(qs[i], x) <= Into(qs, x)
    decreases |qs|
  {
    var n := |qs| - 1;
    IntoNonNegative(qs[..n], x);
    if i < n { IntoBounds(qs[..n], i, x); }
  }

  lemma {:induction false} IntoNonNegative(qs: seq<Queue>, x: nat)
    requires NonNegative(qs)
    ensures Into(qs, x) >= 0
    decreases |qs|
  {
    if qs != [] { IntoNonNegative(qs[..|qs| - 1], x); }
  }

  lemma {:induction false} PointingUpdate(ctxs: seq<Option<nat>>, i: nat, c: Option<nat>, x: nat)
    requires i < |ctxs|
    ensures Pointing(ctxs[i := c], x) == Pointing(ctxs, x) - One(ctxs[i], x) + One(c, x)
    decreases |ctxs|
  {
    var n := |ctxs| - 1;
    if i == n {
      assert ctxs[i := c][..n] == ctxs[..n];
    } else {
      assert ctxs[i := c][..n] == ctxs[..n][i := c];
      PointingUpdate(ctxs[..n], i, c, x);
    }
  }

  // ---------------------------------------------------------------- steps

  /** cfq_put_queue */
  function Put(q: Queue): Queue { q.(ref := q.ref - 1, live := q.live && q.ref > 1) }

  /** One reference less. If the last one goes, so do all requests. */
  lemma PutRefs(q: Queue)
    requires q.live && q.ref > 0 && ProcessRefs(q) >= 1
    ensures ProcessRefs(Put(q)) == ProcessRefs(q) - 1 && (Put(q).live <==> q.ref > 1)
    ensures !Put(q).live ==> q.rd == 0 && q.wr == 0
  {
  }

  /** A reference that is to spare can be dropped; then there is one to spare where the queue leads. */
  lemma DropSpare(qs: seq<Queue>, ctxs: seq<Option<nat>>, x: nat, q: Queue)
    requires x < |qs| && Covered(qs, ctxs, Some(x)) && qs[x].next != Some(x)
    requires q.next == qs[x].next && ProcessRefs(q) == ProcessRefs(qs[x]) - 1
    ensures Covered(qs[x := q], ctxs, qs[x].next)
  {
    hide Into, Pointing, ProcessRefs;
    forall y | 0 <= y < |qs| ensures ProcessRefs(qs[x := q][y]) >= Pointing(ctxs, y) + Into(qs[x := q], y) + One(qs[x].next, y) {
      IntoUpdate(qs, x, q, y);
    }
  }

  /** A context that goes away leaves its reference to spare. */
  lemma ClearContext(qs: seq<Queue>, ctxs: seq<Option<nat>>, cic: nat)
    requires cic < |ctxs| && Covered(qs, ctxs, None)
    ensures Covered(qs, ctxs[cic := None], ctxs[cic])
  {
    hide Into, Pointing, ProcessRefs;
    forall y | 0 <= y < |qs| ensures ProcessRefs(qs[y]) >= Pointing(ctxs[cic := None], y) + Into(qs, y) + One(ctxs[cic], y) {
      PointingUpdate(ctxs, cic, None, y);
    }
  }

  /** A context may point where a reference is to spare. */
  lemma SetContext(qs: seq<Queue>, ctxs: seq<Option<nat>>, cic: nat, spare: Option<nat>)
    requires cic < |ctxs| && ctxs[cic] == None && Covered(qs, ctxs, spare)
    ensures Covered(qs, ctxs[cic := spare], None)
  {
    hide Into, Pointing, ProcessRefs;
    forall y | 0 <= y < |qs| ensures ProcessRefs(qs[y]) >= Pointing(ctxs[cic := spare], y) + Into(qs, y) + One(None, y) {
      PointingUpdate(ctxs, cic, spare, y);
    }
  }

  /** A spare reference need not be used. */
  lemma KeepSpare(qs: seq<Queue>, ctxs: seq<Option<nat>>, spare: Option<nat>)
    requires Covered(qs, ctxs, spare)
    ensures Covered(qs, ctxs, None)
  {
  }

  /** Whoever has a reference to spare is alive. */
  lemma SpareIsLive(qs: seq<Queue>, ctxs: seq<Option<nat>>, x: nat)
    requires Covered(qs, ctxs, Some(x)) && x < |qs| && NonNegative(qs)
    ensures qs[x].live && ProcessRefs(qs[x]) >= 1
  {
    IntoNonNegative(qs, x);
  }

  /** Where a queue with process references leads, there is a live queue with at least as many. */
  lemma NextIsLive(qs: seq<Queue>, ctxs: seq<Option<nat>>, x: nat)
    requires Covered(qs, ctxs, None) && Sound(qs) && x < |qs| && ProcessRefs(qs[x]) > 0
    requires qs[x].next.Some? && qs[x].next.value < |qs|
    ensures var n := qs[x].next.value; qs[n].live && ProcessRefs(qs[n]) >= ProcessRefs(qs[x])
  {
    IntoBounds(qs, x, qs[x].next.value);
  }

  /** cfq_setup_merge: a root is linked to another root, which takes over as many references. */
  lemma LinkCovered(qs: seq<Queue>, ctxs: seq<Option<nat>>, u: nat, v: nat)
    requires Covered(qs, ctxs, None) && Sound(qs) && u < |qs| && v < |qs| && u != v
    requires qs[u].next == None && qs[v].next == None && qs[v].live
    ensures var t := qs[u := qs[u].(next := Some(v))];
            Covered(t[v := t[v].(ref := t[v].ref + ProcessRefs(qs[u]))], ctxs, None)
  {
    var p := ProcessRefs(qs[u]);
    var t := qs[u := qs[u].(next := Some(v))];
    var w := t[v := t[v].(ref := t[v].ref + p)];
    hide Into, Pointing;
    forall y | 0 <= y < |qs| ensures ProcessRefs(w[y]) >= Pointing(ctxs, y) + Into(w, y) + One(None, y) {
      IntoUpdate(qs, u, t[u], y);
      IntoUpdate(t, v, w[v], y);
    }
  }

  lemma LinkRanked(qs: seq<Queue>, rank: seq<nat>, height: nat, u: nat, v: nat, r: int)
    requires Ranked(qs, rank, height) && u < |qs| && v < |qs| && u != v && qs[v].next == None
    ensures var t := qs[u := qs[u].(next := Some(v))]; Ranked(t[v := t[v].(ref := r)], rank[v := height], height + 1)
  {
  }

  /** A fresh queue in an unused slot. */
  lemma FreshCovered(qs: seq<Queue>, ctxs: seq<Option<nat>>, x: nat)
    requires Covered(qs, ctxs, None) && Sound(qs) && x < |qs| && !qs[x].live
    ensures Covered(qs[x := Queue(true, 1, 0, 0, None)], ctxs, Some(x))
    ensures Sound(qs[x := Queue(true, 1, 0, 0, None)])
  {
    var q := Queue(true, 1, 0, 0, None);
    hide Into, Pointing;
    forall y | 0 <= y < |qs| ensures ProcessRefs(qs[x := q][y]) >= Pointing(ctxs, y) + Into(qs[x := q], y) + One(Some(x), y) {
      IntoUpdate(qs, x, q, y);
    }
  }

  // ---------------------------------------------------------------- what the invariant is good for

  /** The queue reached by following the merge pointer `k` times. */
  function Follow(qs: seq<Queue>, x: nat, k: nat): Option<nat>
    decreases k
  {
    if k == 0 then Some(x)
    else if x < |qs| && qs[x].next.Some? then Follow(qs, qs[x].next.value, k - 1)
    else None
  }

  /** Following merge pointers never comes back. */
  lemma {:induction false} NeverCycles(qs: seq<Queue>, rank: seq<nat>, height: nat, x: nat, k: nat)
    requires Ranked(qs, rank, height) && x < |qs| && k > 0
    ensures Follow(qs, x, k).Some? ==> Follow(qs, x, k).value < |qs| && rank[Follow(qs, x, k).value] > rank[x]
    ensures Follow(qs, x, k) != Some(x)
    decreases k
  {
    if qs[x].next.Some? && k > 1 {
      NeverCycles(qs, rank, height, qs[x].next.value, k - 1);
    }
  }

  /** Everything reached from a queue with process references is alive, with at least as many. */
  lemma {:induction false} ReachedIsLive(qs: seq<Queue>, ctxs: seq<Option<nat>>, rank: seq<nat>, height: nat, x: nat, k: nat)
    requires Covered(qs, ctxs, None) && Sound(qs) && Ranked(qs, rank, height) && x < |qs| && ProcessRefs(qs[x]) > 0
    ensures Follow(qs, x, k).Some? ==>
            var y := Follow(qs, x, k).value; y < |qs| && qs[y].live && ProcessRefs(qs[y]) >= ProcessRefs(qs[x])
    decreases k
  {
    if k > 0 && qs[x].next.Some? {
      NextIsLive(qs, ctxs, x);
      ReachedIsLive(qs, ctxs, rank, height, qs[x].next.value, k - 1);
    }
  }

  /** So is everything reached from a context. */
  lemma ContextIsLive(qs: seq<Queue>, ctxs: seq<Option<nat>>, cic: nat)
    requires Covered(qs, ctxs, None) && Sound(qs) && cic < |ctxs| && ctxs[cic].Some? && ctxs[cic].value < |qs|
    ensures var x := ctxs[cic].value; qs[x].live && ProcessRefs(qs[x]) > 0
  {
    ClearContext(qs, ctxs, cic);
    SpareIsLive(qs, ctxs[cic := None], ctxs[cic].value);
  }

  // ---------------------------------------------------------------- the scheduler

  class CfqData {
    var qs: seq<Queue>
    /** The sync queue of each io context. */
    var ctxs: seq<Option<nat>>
    ghost var rank: seq<nat>
    ghost var height: nat

    ghost predicate Shape()
      reads this
    {
      Sound(qs) && Ranked(qs, rank, height) && InRange(ctxs, |qs|)
    }

    ghost predicate Valid()
      reads this
    {
      Shape() && Covered(qs, ctxs, None)
    }

    constructor (contexts: nat)
      ensures Valid() && qs == [] && |ctxs| == contexts
    {
      qs, ctxs, rank, height := [], seq(contexts, i => None), [], 0;
    }

    /**
     * cfq_setup_merge, called by cfq_select_queue for a queue that is not scheduled to merge yet: it is linked with
     * the end of the other's chain, in the direction of the one with more process references.
     */
    method SetupMerge(c: nat, other: nat)
      requires Valid() && c < |qs| && other < |qs| && c != other && qs[c].live && qs[other].live && qs[c].next == None
      modifies this`qs, this`rank, this`height
      ensures Valid()
      ensures if ProcessRefs(old(qs)[other]) == 0 || ProcessRefs(old(qs)[c]) == 0 || LeadsTo(old(qs), other, c)
              then qs == old(qs)
              else exists r: nat :: LeadsTo(old(qs), other, r) && r < |old(qs)| && old(qs)[r].next == None
                       && if ProcessRefs(old(qs)[r]) >= ProcessRefs(old(qs)[c])
                          then Linked(old(qs), qs, c, r) else Linked(old(qs), qs, r, c)
    {
      if ProcessRefs(qs[other]) == 0 {
        return;
      }
      var n: nat := other;
      ghost var k: nat := 0;
      while qs[n].next.Some?
        invariant n < |qs| && n != c && qs[n].live && ProcessRefs(qs[n]) > 0
        invariant Follow(qs, other, k) == Some(n) && forall j :: 0 <= j <= k ==> Follow(qs, other, j) != Some(c)
        modifies {}
        decreases height - rank[n]
      {
        NextIsLive(qs, ctxs, n);
        FollowSnoc(qs, other, k);
        var next := qs[n].next.value;
        if next == c {
          return;
        }
        n, k := next, k + 1;
      }
      NotPastEnd(qs, other, k, n, c);
      var refs, newRefs := ProcessRefs(qs[c]), ProcessRefs(qs[n]);
      if refs == 0 || newRefs == 0 {
        return;
      }
      if newRefs >= refs {
        Link(c, n, refs);
      } else {
        Link(n, c, newRefs);
      }
    }

    method Link(u: nat, v: nat, refs: int)
      requires Valid() && u < |qs| && v < |qs| && u != v && qs[u].next == None && qs[v].next == None
      requires qs[u].live && qs[v].live && refs == ProcessRefs(qs[u])
      modifies this`qs, this`rank, this`height
      ensures Valid() && Linked(old(qs), qs, u, v)
    {
      LinkCovered(qs, ctxs, u, v);
      LinkRanked(qs, rank, height, u, v, qs[v].ref + refs);
      qs := qs[u := qs[u].(next := Some(v))];
      qs := qs[v := qs[v].(ref := qs[v].ref + refs)];
      rank, height := rank[v := height], height + 1;
    }

    /** cfq_put_queue */
    method PutQueue(x: nat)
      requires x < |qs| && qs[x].live
      // BUG_ON(cfqq->ref <= 0)
      requires qs[x].ref > 0
      // BUG_ON(cfqq->allocated[READ] + cfqq->allocated[WRITE]) when the last reference goes
      requires qs[x].ref == 1 ==> qs[x].rd == 0 && qs[x].wr == 0
      modifies this`qs
      ensures qs == old(qs)[x := Put(old(qs)[x])]
    {
      qs := qs[x := qs[x].(ref := qs[x].ref - 1)];
      if qs[x].ref != 0 {
        return;
      }
      qs := qs[x := qs[x].(live := false)];
    }

    /** cfq_put_cooperator: drops the references that were taken for a process of `c` on the queues it leads to. */
    method PutCooperator(c: nat)
      requires Shape() && c < |qs| && qs[c].live && ProcessRefs(qs[c]) >= 1
      requires Covered(Minus(qs, c), ctxs, qs[c].next)
      modifies this`qs
      ensures Shape() && |qs| == |old(qs)|
      ensures Covered(Minus(qs, c), ctxs, None)
      ensures forall i :: 0 <= i < |qs| ==> qs[i] == if i != c && LeadsTo(old(qs), c, i) then Put(old(qs)[i]) else old(qs)[i]
    {
      hide Covered, Sound;
      var x := qs[c].next;
      ghost var k: nat := 0;
      while x.Some?
        invariant Shape() && |qs| == |old(qs)| && qs[c] == old(qs)[c]
        invariant x.Some? ==> x.value < |qs| && rank[x.value] > rank[c]
        invariant Covered(Minus(qs, c), ctxs, x)
        invariant x == Follow(old(qs), c, k + 1)
        invariant forall i :: 0 <= i < |qs| ==> qs[i] == if Within(old(qs), c, k, i) then Put(old(qs)[i]) else old(qs)[i]
        decreases if x.Some? then height - rank[x.value] else 0
      {
        NotYet(old(qs), rank, height, c, k, x.value);
        PutSpare(qs, ctxs, rank, height, c, x.value);
        FollowSnoc(old(qs), c, k + 1);
        var next := qs[x.value].next;
        PutQueue(x.value);
        x, k := next, k + 1;
      }
      ChainEnds(old(qs), rank, height, c, k);
    }

    /** A context lets go of its queue: the chain it leads to loses one reference each. */
    method Release(cic: nat)
      requires Valid() && cic < |ctxs| && ctxs[cic].Some?
      modifies this`qs, this`ctxs
      ensures Valid() && ctxs == old(ctxs)[cic := None] && |qs| == |old(qs)|
      ensures forall i :: 0 <= i < |qs| ==>
                qs[i] == if LeadsTo(old(qs), old(ctxs)[cic].value, i) then Put(old(qs)[i]) else old(qs)[i]
    {
      hide Covered, Sound, LeadsTo, Follow;
      var c := ctxs[cic].value;
      ContextIsLive(qs, ctxs, cic);
      ReleaseStarts(qs, ctxs, rank, height, cic);
      LeadsToSelf(qs, c);
      ctxs := ctxs[cic := None];
      PutCooperator(c);
      ReleaseEnds(qs, ctxs, rank, height, c);
      PutQueue(c);
    }

    /** cfq_exit_cfqq */
    method ExitContext(cic: nat)
      requires Valid() && cic < |ctxs|
      modifies this`qs, this`ctxs
      ensures Valid() && ctxs == old(ctxs)[cic := None] && |qs| == |old(qs)|
      ensures forall i :: 0 <= i < |qs| ==>
                qs[i] == if Leads(old(qs), old(ctxs)[cic], i) then Put(old(qs)[i]) else old(qs)[i]
    {
      if ctxs[cic].Some? {
        Release(cic);
      }
    }

    /** changed_cgroup drops the queue without following its chain. */
    method ChangedCgroup(cic: nat)
      requires Valid() && cic < |ctxs|
      modifies this`qs, this`ctxs
      ensures Valid() && ctxs == old(ctxs)[cic := None]
      ensures old(ctxs)[cic].None? ==> qs == old(qs)
      ensures old(ctxs)[cic].Some? ==>
                var c := old(ctxs)[cic].value; c < |old(qs)| && qs == old(qs)[c := Put(old(qs)[c])]
    {
      hide Covered, Sound;
      if ctxs[cic].Some? {
        var c := ctxs[cic].value;
        ContextIsLive(qs, ctxs, cic);
        ReleaseStarts(qs, ctxs, rank, height, cic);
        KeepSpare(Minus(qs, c), ctxs[cic := None], qs[c].next);
        ReleaseEnds(qs, ctxs[cic := None], rank, height, c);
        ctxs := ctxs[cic := None];
        PutQueue(c);
      }
    }

    /** cfq_merge_cfqqs: the context moves on to the queue that its queue merges into. */
    method MergeQueues(cic: nat)
      requires Valid() && cic < |ctxs| && ctxs[cic].Some? && qs[ctxs[cic].value].next.Some?
      modifies this`qs, this`ctxs
      ensures Valid() && var c := old(ctxs)[cic].value;
              && ctxs == old(ctxs)[cic := old(qs)[c].next] && qs == old(qs)[c := Put(old(qs)[c])]
              && old(qs)[c].next.value < |qs| && qs[old(qs)[c].next.value].live
    {
      hide Covered, Sound;
      var c := ctxs[cic].value;
      var n := qs[c].next.value;
      ContextIsLive(qs, ctxs, cic);
      ReleaseStarts(qs, ctxs, rank, height, cic);
      SetContext(Minus(qs, c), ctxs[cic := None], cic, Some(n));
      assert ctxs[cic := None][cic := Some(n)] == ctxs[cic := Some(n)];
      ReleaseEnds(qs, ctxs[cic := Some(n)], rank, height, c);
      ctxs := ctxs[cic := Some(n)];
      PutQueue(c);
      ContextIsLive(qs, ctxs, cic);
    }

    /** cfq_get_queue: a new queue in some unused slot. */
    method GetQueue(cic: nat, slot: nat)
      requires Valid() && cic < |ctxs| && ctxs[cic].None? && slot <= |qs| && (slot < |qs| ==> !qs[slot].live)
      modifies this
      ensures Valid() && ctxs == old(ctxs)[cic := Some(slot)] && slot < |qs|
      ensures |qs| == if slot == |old(qs)| then slot + 1 else |old(qs)|
      ensures forall i :: 0 <= i < |old(qs)| && i != slot ==> i < |qs| && qs[i] == old(qs)[i]
      ensures qs[slot] == Queue(true, 1, 0, 0, None)
    {
      hide Covered, Sound;
      if slot == |qs| {
        NewSlot(qs, ctxs);
        qs, rank, height := qs + [Queue(false, 0, 0, 0, None)], rank + [height], height + 1;
      }
      FreshCovered(qs, ctxs, slot);
      SetContext(qs[slot := Queue(true, 1, 0, 0, None)], ctxs, cic, Some(slot));
      qs := qs[slot := Queue(true, 1, 0, 0, None)];
      rank, height := rank[slot := height], height + 1;
      ctxs := ctxs[cic := Some(slot)];
    }

    /** split_cfqq: whether the context keeps the queue, which it does if no other process uses it. */
    method SplitQueue(cic: nat) returns (keep: bool)
      requires Valid() && cic < |ctxs| && ctxs[cic].Some?
      modifies this`qs, this`ctxs
      ensures Valid() && |qs| == |old(qs)| && keep == (ProcessRefs(old(qs)[old(ctxs)[cic].value]) == 1)
      ensures keep ==> qs == old(qs) && ctxs == old(ctxs)
      ensures !keep ==> ctxs == old(ctxs)[cic := None]
      ensures !keep ==> forall i :: 0 <= i < |qs| ==>
                qs[i] == if Leads(old(qs), old(ctxs)[cic], i) then Put(old(qs)[i]) else old(qs)[i]
    {
      if ProcessRefs(qs[ctxs[cic].value]) == 1 {
        return true;
      }
      Release(cic);
      return false;
    }

    /** A request is charged to a live queue: cfqq->allocated[rw]++, cfqq->ref++. */
    method Allocate(x: nat, write: bool)
      requires Valid() && x < |qs| && qs[x].live
      modifies this`qs
      ensures Valid() && qs == old(qs)[x := Charged(old(qs)[x], write)]
    {
      SameRefs(qs, ctxs, x, Charged(qs[x], write));
      hide Covered;
      qs := qs[x := Charged(qs[x], write)];
    }

    /** The part of cfq_set_request that finds the queue: split if asked for, get a new one, or merge if scheduled. */
    method PickQueue(cic: nat, breakApart: bool, slot: nat) returns (x: nat)
      requires Valid() && cic < |ctxs| && slot <= |qs| && (slot < |qs| ==> !qs[slot].live)
      modifies this
      ensures Valid() && x < |qs| && qs[x].live && ctxs == old(ctxs)[cic := Some(x)]
      ensures Kept(old(qs), old(ctxs)[cic], breakApart) ==>
                var c := old(ctxs)[cic].value;
                && x == (if old(qs)[c].next.Some? then old(qs)[c].next.value else c) && x < |old(qs)|
                && qs == if x == c then old(qs) else old(qs)[c := Put(old(qs)[c])]
      ensures !Kept(old(qs), old(ctxs)[cic], breakApart) ==>
                && x == slot && |qs| == (if slot == |old(qs)| then slot + 1 else |old(qs)|)
                && qs[slot] == Queue(true, 1, 0, 0, None)
                && forall i :: 0 <= i < |old(qs)| && i != slot ==>
                     qs[i] == if Leads(old(qs), old(ctxs)[cic], i) then Put(old(qs)[i]) else old(qs)[i]
    {
      hide Covered, Sound, LeadsTo;
      if ctxs[cic].Some? && breakApart {
        var keep := SplitQueue(cic);
      }
      if ctxs[cic].None? {
        GetQueue(cic, slot);
      } else if qs[ctxs[cic].value].next.Some? {
        MergeQueues(cic);
      }
      ContextIsLive(qs, ctxs, cic);
      x := ctxs[cic].value;
    }

    /** cfq_set_request for a sync request: it is charged to the queue the context then has. */
    method SetRequest(cic: nat, write: bool, breakApart: bool, slot: nat) returns (x: nat)
      requires Valid() && cic < |ctxs| && slot <= |qs| && (slot < |qs| ==> !qs[slot].live)
      modifies this
      ensures Valid() && x < |qs| && qs[x].live && ctxs == old(ctxs)[cic := Some(x)]
      ensures (if write then qs[x].wr else qs[x].rd) > 0
      ensures Kept(old(qs), old(ctxs)[cic], breakApart) ==>
                var c := old(ctxs)[cic].value;
                && x == (if old(qs)[c].next.Some? then old(qs)[c].next.value else c) && x < |old(qs)|
                && qs == if x == c then old(qs)[c := Charged(old(qs)[c], write)]
                         else old(qs)[c := Put(old(qs)[c])][x := Charged(old(qs)[x], write)]
      ensures !Kept(old(qs), old(ctxs)[cic], breakApart) ==>
                && x == slot && |qs| == (if slot == |old(qs)| then slot + 1 else |old(qs)|)
                && qs[slot] == Charged(Queue(true, 1, 0, 0, None), write)
                && forall i :: 0 <= i < |old(qs)| && i != slot ==>
                     qs[i] == if Leads(old(qs), old(ctxs)[cic], i) then Put(old(qs)[i]) else old(qs)[i]
    {
      hide Covered, Sound, LeadsTo, Put, Ranked, Kept;
      x := PickQueue(cic, breakApart, slot);
      Allocate(x, write);
    }

    /** cfq_put_request: a request that is allocated has kept its queue alive. */
    method PutRequest(x: nat, write: bool)
      // BUG_ON(!cfqq->allocated[rw])
      requires Valid() && x < |qs| && (if write then qs[x].wr else qs[x].rd) > 0
      modifies this`qs
      ensures old(qs)[x].live && Valid() && qs == old(qs)[x := Put(Discharged(old(qs)[x], write))]
    {
      var q := Discharged(qs[x], write);
      SameRefs(qs, ctxs, x, Put(q));
      hide Covered;
      assert qs[x := q][x := Put(q)] == qs[x := Put(q)];
      qs := qs[x := q];
      PutQueue(x);
    }
  }

  /** The chain that starts at the queue of a context. */
  ghost predicate Leads(qs: seq<Queue>, c: Option<nat>, i: nat) { c.Some? && LeadsTo(qs, c.value, i) }

  /** The context goes on with its queue: it has one, and that is not to be broken apart or has no other users. */
  ghost predicate Kept(qs: seq<Queue>, c: Option<nat>, breakApart: bool) {
    c.Some? && c.value < |qs| && (!breakApart || ProcessRefs(qs[c.value]) == 1)
  }

  function Charged(q: Queue, write: bool): Queue {
    if write then q.(ref := q.ref + 1, wr := q.wr + 1) else q.(ref := q.ref + 1, rd := q.rd + 1)
  }

  function Discharged(q: Queue, write: bool): Queue
    requires (if write then q.wr else q.rd) > 0
  {
    if write then q.(wr := q.wr - 1) else q.(rd := q.rd - 1)
  }

  lemma LeadsToSelf(qs: seq<Queue>, c: nat)
    ensures LeadsTo(qs, c, c)
  {
    assert Follow(qs, c, 0) == Some(c);
  }

  lemma ReleaseStarts(qs: seq<Queue>, ctxs: seq<Option<nat>>, rank: seq<nat>, height: nat, cic: nat)
    requires Covered(qs, ctxs, None) && Sound(qs) && Ranked(qs, rank, height) && cic < |ctxs| && ctxs[cic].Some?
    requires ctxs[cic].value < |qs| && qs[ctxs[cic].value].live
    ensures var c := ctxs[cic].value; Covered(Minus(qs, c), ctxs[cic := None], qs[c].next)
  {
    hide Covered, Sound;
    var c := ctxs[cic].value;
    ClearContext(qs, ctxs, cic);
    DropSpare(qs, ctxs[cic := None], c, qs[c].(ref := qs[c].ref - 1));
  }

  /** The reference that was given up is dropped. */
  lemma ReleaseEnds(qs: seq<Queue>, ctxs: seq<Option<nat>>, rank: seq<nat>, height: nat, c: nat)
    requires Sound(qs) && Ranked(qs, rank, height) && c < |qs| && qs[c].live && ProcessRefs(qs[c]) >= 1
    requires Covered(Minus(qs, c), ctxs, None)
    ensures qs[c].ref > 0 && (qs[c].ref == 1 ==> qs[c].rd == 0 && qs[c].wr == 0)
    ensures var t := qs[c := Put(qs[c])]; Sound(t) && Ranked(t, rank, height) && Covered(t, ctxs, None)
  {
    PutRefs(qs[c]);
    SameRefs(Minus(qs, c), ctxs, c, Put(qs[c]));
    assert Minus(qs, c)[c := Put(qs[c])] == qs[c := Put(qs[c])];
    hide Covered;
  }

  /** Only the process references and the merge pointer of a queue matter. */
  lemma SameRefs(qs: seq<Queue>, ctxs: seq<Option<nat>>, x: nat, q: Queue)
    requires x < |qs| && Covered(qs, ctxs, None) && q.next == qs[x].next && ProcessRefs(q) == ProcessRefs(qs[x])
    ensures Covered(qs[x := q], ctxs, None)
  {
    hide Into, Pointing, ProcessRefs;
    forall y | 0 <= y < |qs| ensures ProcessRefs(qs[x := q][y]) >= Pointing(ctxs, y) + Into(qs[x := q], y) + One(None, y) {
      IntoUpdate(qs, x, q, y);
    }
  }

  lemma {:induction false} OutOfRange(ctxs: seq<Option<nat>>, n: nat)
    requires InRange(ctxs, n)
    ensures Pointing(ctxs, n) == 0
    decreases |ctxs|
  {
    if ctxs != [] { OutOfRange(ctxs[..|ctxs| - 1], n); }
  }

  lemma {:induction false} NoneInto(qs: seq<Queue>, x: nat)
    requires forall i :: 0 <= i < |qs| ==> qs[i].next != Some(x)
    ensures Into(qs, x) == 0
    decreases |qs|
  {
    if qs != [] { NoneInto(qs[..|qs| - 1], x); }
  }

  lemma NewSlot(qs: seq<Queue>, ctxs: seq<Option<nat>>)
    requires Covered(qs, ctxs, None) && Sound(qs) && InRange(ctxs, |qs|)
    requires forall i :: 0 <= i < |qs| && qs[i].next.Some? ==> qs[i].next.value < |qs|
    ensures var t := qs + [Queue(false, 0, 0, 0, None)]; Covered(t, ctxs, None) && Sound(t)
  {
    var t := qs + [Queue(false, 0, 0, 0, None)];
    assert t[..|qs|] == qs;
    OutOfRange(ctxs, |qs|);
    NoneInto(qs, |qs|);
  }

  /** Reached from `c` in one to `k` steps. */
  ghost predicate Within(qs: seq<Queue>, c: nat, k: nat, i: nat) { exists j: nat :: 1 <= j <= k && Follow(qs, c, j) == Some(i) }

  /** The next queue of the chain is none of the earlier ones. */
  lemma NotYet(qs: seq<Queue>, rank: seq<nat>, height: nat, c: nat, k: nat, x: nat)
    requires Ranked(qs, rank, height) && c < |qs| && x < |qs| && Follow(qs, c, k + 1) == Some(x)
    ensures !Within(qs, c, k, x) && x != c
    ensures forall i :: 0 <= i < |qs| ==> (Within(qs, c, k + 1, i) <==> Within(qs, c, k, i) || i == x)
  {
    NeverCycles(qs, rank, height, c, k + 1);
    forall j: nat | 1 <= j <= k ensures Follow(qs, c, j) != Some(x) {
      if Follow(qs, c, j) == Some(x) {
        FollowCompose(qs, c, j, k + 1 - j);
        NeverCycles(qs, rank, height, x, k + 1 - j);
      }
    }
  }

  lemma {:induction false} FollowCompose(qs: seq<Queue>, x: nat, j: nat, m: nat)
    requires Follow(qs, x, j).Some?
    ensures Follow(qs, x, j + m) == Follow(qs, Follow(qs, x, j).value, m)
    decreases j
  {
    if j > 0 { FollowCompose(qs, qs[x].next.value, j - 1, m); }
  }

  lemma ChainEnds(qs: seq<Queue>, rank: seq<nat>, height: nat, c: nat, k: nat)
    requires Ranked(qs, rank, height) && c < |qs| && Follow(qs, c, k + 1) == None
    ensures forall i :: 0 <= i < |qs| ==> (Within(qs, c, k, i) <==> i != c && LeadsTo(qs, c, i))
  {
    forall i: nat | i < |qs| && i != c && LeadsTo(qs, c, i) ensures Within(qs, c, k, i) {
      var j: nat :| Follow(qs, c, j) == Some(i);
      if j > k { FollowStops(qs, c, k + 1, j); }
    }
    forall i: nat | i < |qs| && Within(qs, c, k, i) ensures i != c && LeadsTo(qs, c, i) {
      var j: nat :| 1 <= j <= k && Follow(qs, c, j) == Some(i);
      NeverCycles(qs, rank, height, c, j);
    }
  }

  /** The queue with one reference less, before it is known whether that was the last. */
  function Minus(qs: seq<Queue>, c: nat): seq<Queue>
    requires c < |qs|
  {
    qs[c := qs[c].(ref := qs[c].ref - 1)]
  }

  /** The next queue of the chain may be put. */
  lemma PutSpare(qs: seq<Queue>, ctxs: seq<Option<nat>>, rank: seq<nat>, height: nat, c: nat, x: nat)
    requires Sound(qs) && Ranked(qs, rank, height) && c < |qs| && x < |qs| && x != c
    requires qs[c].live && ProcessRefs(qs[c]) >= 1 && Covered(Minus(qs, c), ctxs, Some(x))
    ensures qs[x].live && qs[x].ref > 0 && (qs[x].ref == 1 ==> qs[x].rd == 0 && qs[x].wr == 0)
    ensures var t := qs[x := Put(qs[x])];
            Sound(t) && Ranked(t, rank, height) && Covered(Minus(t, c), ctxs, qs[x].next)
  {
    var m := Minus(qs, c);
    SpareIsLive(m, ctxs, x);
    PutRefs(qs[x]);
    DropSpare(m, ctxs, x, Put(qs[x]));
    assert Minus(qs[x := Put(qs[x])], c) == m[x := Put(m[x])];
  }

  /** The chain of merge pointers from `x` leads to `y`. */
  ghost predicate LeadsTo(qs: seq<Queue>, x: nat, y: nat) { exists k: nat :: Follow(qs, x, k) == Some(y) }

  lemma {:induction false} FollowSnoc(qs: seq<Queue>, x: nat, k: nat)
    requires Follow(qs, x, k).Some?
    ensures var y := Follow(qs, x, k).value;
            Follow(qs, x, k + 1) == if y < |qs| then qs[y].next else None
    decreases k
  {
    if k > 0 { FollowSnoc(qs, qs[x].next.value, k - 1); }
  }

  lemma {:induction false} FollowStops(qs: seq<Queue>, x: nat, k: nat, j: nat)
    requires k <= j && Follow(qs, x, k).None?
    ensures Follow(qs, x, j).None?
    decreases k
  {
    if k > 0 && x < |qs| && qs[x].next.Some? { FollowStops(qs, qs[x].next.value, k - 1, j - 1); }
  }

  lemma NotPastEnd(qs: seq<Queue>, x: nat, k: nat, n: nat, c: nat)
    requires Follow(qs, x, k) == Some(n) && n < |qs| && qs[n].next == None
    requires forall j :: 0 <= j <= k ==> Follow(qs, x, j) != Some(c)
    ensures !LeadsTo(qs, x, c)
  {
    FollowSnoc(qs, x, k);
    forall j: nat ensures Follow(qs, x, j) != Some(c) {
      if j > k { FollowStops(qs, x, k + 1, j); }
    }
  }

  /** What cfq_setup_merge does if it does anything. */
  ghost predicate Linked(a: seq<Queue>, b: seq<Queue>, u: nat, v: nat) {
    && u < |a| && v < |a| && u != v && a[u].live && a[v].live
    && var t := a[u := a[u].(next := Some(v))];
    b == t[v := t[v].(ref := t[v].ref + ProcessRefs(a[u]))]
  }
}
