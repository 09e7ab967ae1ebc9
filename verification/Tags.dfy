/**
 * The tag allocator of omap/block/blk-tag.c for a request queue with its own tag map.
 */
module Tags {
  import opened Common
  import opened Lists

  type Rq = nat

  const ENOMEM := 12
  const EBUSY := 16

  // ---------------------------------------------------------------- what the map means

  /** A bit is set exactly if the entry holds a request, and a request holds exactly the tag it is entered under. */
  ghost predicate Agree(bits: seq<bool>, index: seq<Option<Rq>>, tagOf: map<Rq, nat>) {
    && |bits| == |index|
    && (forall t :: 0 <= t < |bits| ==> (bits[t] <==> index[t].Some?))
    && (forall t :: 0 <= t < |index| && index[t].Some? ==> index[t].value in tagOf && tagOf[index[t].value] == t)
    && (forall r :: r in tagOf ==> tagOf[r] < |index| && index[tagOf[r]] == Some(r))
  }

  /** And the busy list holds exactly the tagged requests, each once. */
  ghost predicate Good(bits: seq<bool>, index: seq<Option<Rq>>, tagOf: map<Rq, nat>, busy: seq<Rq>) {
    Agree(bits, index, tagOf) && NoDup(busy) && forall r :: r in busy <==> r in tagOf
  }

  /** No two requests hold the same tag. */
  lemma TagsUnique(bits: seq<bool>, index: seq<Option<Rq>>, tagOf: map<Rq, nat>, r: Rq, s: Rq)
    requires Agree(bits, index, tagOf) && r in tagOf && s in tagOf && tagOf[r] == tagOf[s]
    ensures r == s
  {
    assert index[tagOf[r]] == Some(r);
  }

  lemma AgreeStart(bits: seq<bool>, index: seq<Option<Rq>>, tagOf: map<Rq, nat>, r: Rq, t: nat)
    requires Agree(bits, index, tagOf) && t < |bits| && !bits[t] && r !in tagOf
    ensures Agree(bits[t := true], index[t := Some(r)], tagOf[r := t])
  {
  }

  lemma AgreeEnd(bits: seq<bool>, index: seq<Option<Rq>>, tagOf: map<Rq, nat>, r: Rq)
    requires Agree(bits, index, tagOf) && r in tagOf
    ensures var t := tagOf[r];
            t < |bits| && bits[t] && index[t] == Some(r) && Agree(bits[t := false], index[t := None], tagOf - {r})
  {
    var t := tagOf[r];
    assert index[t] == Some(r);
    forall s | s in tagOf - {r} ensures tagOf[s] < |index| && index[t := None][tagOf[s]] == Some(s) {
      assert index[tagOf[s]] == Some(s);
    }
  }

  lemma GoodStart(bits: seq<bool>, index: seq<Option<Rq>>, tagOf: map<Rq, nat>, busy: seq<Rq>, r: Rq, t: nat)
    requires Good(bits, index, tagOf, busy) && t < |bits| && !bits[t] && r !in tagOf
    ensures t < |index| && Good(bits[t := true], index[t := Some(r)], tagOf[r := t], [r] + busy)
  {
    AgreeStart(bits, index, tagOf, r, t);
    NoDupAppend(busy, r);
    hide NoDup;
  }

  lemma GoodEnd(bits: seq<bool>, index: seq<Option<Rq>>, tagOf: map<Rq, nat>, busy: seq<Rq>, r: Rq)
    requires Good(bits, index, tagOf, busy) && r in tagOf
    ensures var t := tagOf[r];
            t < |bits| && t < |index| && Good(bits[t := false], index[t := None], tagOf - {r}, Without(busy, r))
  {
    AgreeEnd(bits, index, tagOf, r);
    hide Agree, NoDup, Without;
  }

  function Reversed(l: seq<Rq>): (r: seq<Rq>)
    ensures |r| == |l|
  {
    if l == [] then [] else Reversed(l[1..]) + [l[0]]
  }

  ghost predicate FreeBelow(bits: seq<bool>, limit: nat) { exists t :: 0 <= t < limit && t < |bits| && !bits[t] }

  ghost predicate FirstFree(bits: seq<bool>, t: nat) { t < |bits| && !bits[t] && forall u :: 0 <= u < t ==> bits[u] }

  /** The depth init_tag_map settles on. */
  function Clamped(depth: nat, nrRequests: nat): nat { if depth > nrRequests * 2 then nrRequests * 2 else depth }

  /** The guard of blk_queue_end_tag: otherwise the request keeps its tag. */
  predicate CanEnd(t: nat, realDepth: nat) { t < realDepth }

  /** The smallest nr_requests that a write to the attribute of the queue leaves, and the one a queue starts with. */
  const BLKDEV_MIN_RQ := 4
  const BLKDEV_MAX_RQ := 128

  /** queue_requests_store */
  function StoredRequests(nr: nat): nat { if nr < BLKDEV_MIN_RQ then BLKDEV_MIN_RQ else nr }

  // ---------------------------------------------------------------- the copy into a new map

  const BITS_PER_LONG := 32

  /** The words a bit map of a depth takes. */
  function Words(depth: nat): nat { (depth + BITS_PER_LONG - 1) / BITS_PER_LONG }

  /** The first `n` entries, filled up with zeros. */
  function Fitted<T>(s: seq<T>, n: nat, zero: T): (r: seq<T>)
    ensures |r| == n && forall t :: 0 <= t < n ==> r[t] == if t < |s| then s[t] else zero
  {
    if n <= |s| then s[..n] else s + seq(n - |s|, _ => zero)
  }

  /** What a copy into a new map leaves there, and whether it went on past the end of the new arrays. */
  datatype Copy = Copy(bits: seq<bool>, index: seq<Option<Rq>>, overrun: bool)

  /** The two copies of blk_queue_resize_tags, of all entries and of all words of the old map. */
  function Copied(bits: seq<bool>, index: seq<Option<Rq>>, n: nat): Copy {
    Copy(Fitted(bits, n, false), Fitted(index, n, None), |index| > n || Words(|bits|) > Words(n))
  }

  /** The new map agrees with the requests exactly if every tag in use fits in it. */
  lemma CopyAgrees(bits: seq<bool>, index: seq<Option<Rq>>, tagOf: map<Rq, nat>, n: nat)
    requires Agree(bits, index, tagOf)
    ensures var c := Copied(bits, index, n);
            Agree(c.bits, c.index, tagOf) <==> forall r :: r in tagOf ==> CanEnd(tagOf[r], n)
  {
    var c := Copied(bits, index, n);
    if forall r :: r in tagOf ==> CanEnd(tagOf[r], n) {
      forall r | r in tagOf ensures tagOf[r] < n && c.index[tagOf[r]] == Some(r) {
        assert CanEnd(tagOf[r], n) && index[tagOf[r]] == Some(r);
      }
    }
  }

  /**
   * A growth: the copy stays within the new map exactly if the clamp allows the old depth, and then all requests
   * can still be ended; at a lower clamp they can exactly if no tag in use reaches it.
   */
  lemma GrowthIsSafe(bits: seq<bool>, index: seq<Option<Rq>>, tagOf: map<Rq, nat>, depth: nat, nrRequests: nat)
    requires Agree(bits, index, tagOf) && depth > |bits|
    ensures var c := Copied(bits, index, Clamped(depth, nrRequests));
            && (!c.overrun <==> |bits| <= nrRequests * 2)
            && (!c.overrun ==> Agree(c.bits, c.index, tagOf))
            && (Agree(c.bits, c.index, tagOf) <==> forall r :: r in tagOf ==> CanEnd(tagOf[r], nrRequests * 2))
  {
    var n := Clamped(depth, nrRequests);
    CopyAgrees(bits, index, tagOf, n);
    if |bits| <= n { assert Words(|bits|) <= Words(n); }
    forall r | r in tagOf ensures CanEnd(tagOf[r], n) <==> CanEnd(tagOf[r], nrRequests * 2) {
      assert index[tagOf[r]] == Some(r);
    }
  }

  lemma TagsFit(bits: seq<bool>, index: seq<Option<Rq>>, tagOf: map<Rq, nat>, busy: seq<Rq>)
    requires Good(bits, index, tagOf, busy)
    ensures |bits| == |index| && forall r :: r in tagOf ==> r in busy && CanEnd(tagOf[r], |bits|)
  {
    hide NoDup;
    forall r | r in tagOf ensures r in busy && CanEnd(tagOf[r], |bits|) {
      assert index[tagOf[r]] == Some(r);
    }
  }

  lemma GoodGrowth(bits: seq<bool>, index: seq<Option<Rq>>, tagOf: map<Rq, nat>, busy: seq<Rq>, depth: nat, nrRequests: nat)
    requires Good(bits, index, tagOf, busy) && depth > |bits|
    ensures var n := Clamped(depth, nrRequests);
            var c := Copied(bits, index, n);
            && (c.overrun <==> nrRequests * 2 < |bits|)
            && (!c.overrun ==> Good(c.bits, c.index, tagOf, busy))
            && (Good(c.bits, c.index, tagOf, busy) <==> forall r :: r in tagOf ==> CanEnd(tagOf[r], n))
  {
    GrowthIsSafe(bits, index, tagOf, depth, nrRequests);
    CopyAgrees(bits, index, tagOf, Clamped(depth, nrRequests));
    hide Agree, NoDup, Copied;
  }

  /** The map of a depth in which one request holds one tag. */
  ghost predicate OneTag(bits: seq<bool>, index: seq<Option<Rq>>, tagOf: map<Rq, nat>, depth: nat, t: nat) {
    Agree(bits, index, tagOf) && |bits| == depth && tagOf == map[0 := t]
  }

  lemma OneTagExists(depth: nat, t: nat) returns (bits: seq<bool>, index: seq<Option<Rq>>, tagOf: map<Rq, nat>)
    requires t < depth
    ensures OneTag(bits, index, tagOf, depth, t)
  {
    bits, index, tagOf := seq(depth, i => i == t), seq(depth, i => if i == t then Some(0) else None), map[0 := t];
  }

  /** Every map of a depth is copied whole into one of depth `n`. */
  ghost predicate AllCopied(realDepth: nat, n: nat) {
    forall bits, index, tagOf :: Agree(bits, index, tagOf) && |bits| == realDepth ==>
      var c := Copied(bits, index, n);
      !c.overrun && Agree(c.bits, c.index, tagOf)
  }

  /** Whatever tags of a map of that depth are in use, they can be given back to one of depth `n`. */
  ghost predicate AllEnd(realDepth: nat, n: nat) {
    forall bits, index, tagOf, r :: Agree(bits, index, tagOf) && |bits| == realDepth && r in tagOf ==> CanEnd(tagOf[r], n)
  }

  /** Over all maps of a depth: a growth leaves every request with its tag if and only if the clamp allows the depth. */
  lemma GrowthIsSafeForAll(realDepth: nat, depth: nat, nrRequests: nat)
    requires depth > realDepth
    ensures AllCopied(realDepth, Clamped(depth, nrRequests)) <==> realDepth <= nrRequests * 2
    ensures AllEnd(realDepth, Clamped(depth, nrRequests)) <==> realDepth <= nrRequests * 2
  {
    var n := Clamped(depth, nrRequests);
    if realDepth <= nrRequests * 2 {
      forall bits: seq<bool>, index: seq<Option<Rq>>, tagOf: map<Rq, nat> | Agree(bits, index, tagOf) && |bits| == realDepth
        ensures !Copied(bits, index, n).overrun && Agree(Copied(bits, index, n).bits, Copied(bits, index, n).index, tagOf)
      {
        GrowthIsSafe(bits, index, tagOf, depth, nrRequests);
      }
      assert AllCopied(realDepth, n);
    } else {
      var bits, index, tagOf := OneTagExists(realDepth, nrRequests * 2);
      GrowthIsSafe(bits, index, tagOf, depth, nrRequests);
      assert 0 in tagOf && !CanEnd(tagOf[0], n);
    }
  }

  lemma {:induction false} ReversedSnoc(l: seq<Rq>, r: Rq)
    ensures Reversed(l + [r]) == [r] + Reversed(l)
  {
    if l != [] {
      assert (l + [r])[1..] == l[1..] + [r];
      ReversedSnoc(l[1..], r);
    }
  }

  lemma ReversedNone()
    ensures Reversed([]) == []
  {
  }

  lemma NothingTagged(bits: seq<bool>, index: seq<Option<Rq>>, tagOf: map<Rq, nat>)
    requires Agree(bits, index, tagOf) && forall r :: r !in tagOf
    ensures tagOf == map[] && forall t :: 0 <= t < |bits| ==> !bits[t] && index[t] == None
  {
  }

  lemma FirstOut(l: seq<Rq>)
    requires NoDup(l) && l != []
    ensures Without(l, l[0]) == l[1..]
  {
    assert l[0] !in l[1..];
  }

  class TagQueue {
    var maxDepth: nat
    var bits: array<bool>
    var index: array<Option<Rq>>
    /** rq->tag of the tagged requests. */
    var tag: map<Rq, nat>
    /** tag_busy_list, the most recently started request first. */
    var busy: seq<Rq>
    /** The requests at the front of the queue. */
    var queueHead: seq<Rq>
    /** The tagged requests that are not sync. */
    ghost var async: set<Rq>

    ghost predicate Valid()
      reads this, bits, index
    {
      bits.Length == index.Length && maxDepth <= bits.Length && Good(bits[..], index[..], tag, busy)
    }

    /** The top two tags are held by sync requests only. */
    ghost predicate Reserved()
      reads this
    {
      forall r :: r in async && r in tag ==> tag[r] + 2 < maxDepth
    }

    /** init_tag_map for a new queue. */
    constructor (depth: nat, nrRequests: nat)
      ensures Valid() && maxDepth == bits.Length == Clamped(depth, nrRequests) && tag == map[] && busy == []
      ensures fresh(bits) && fresh(index) && Reserved() && forall t :: 0 <= t < bits.Length ==> !bits[t] && index[t] == None
    {
      var n := Clamped(depth, nrRequests);
      maxDepth := n;
      bits, index := new bool[n](_ => false), new Option<Rq>[n](_ => None);
      tag, busy, queueHead, async := map[], [], [], {};
    }

    /** find_first_zero_bit */
    method FindFirstZero(limit: nat) returns (t: nat)
      requires limit <= bits.Length
      ensures t <= limit && (t < limit <==> FreeBelow(bits[..], limit)) && (t < limit ==> FirstFree(bits[..], t))
    {
      t := 0;
      while t < limit && bits[t]
        invariant t <= limit && forall u :: 0 <= u < t ==> bits[u]
      {
        t := t + 1;
      }
    }

    /** blk_queue_start_tag; `inFlight` is the number of async requests in flight. */
    method StartTag(r: Rq, sync: bool, inFlight: nat) returns (ret: int)
      requires Valid() && r !in tag
      modifies this`tag, this`busy, this`async, bits, index
      ensures Valid()
      ensures ret == 0 || ret == 1
      // a sync request, or any at a depth of one, gets a tag if any is free
      ensures sync || maxDepth <= 1 ==> (ret == 0 <==> FreeBelow(old(bits[..]), maxDepth))
      // an async one leaves two tags alone, or all but one, and waits while as many async requests are in flight
      ensures !sync && maxDepth >= 3 ==>
                (ret == 0 <==> inFlight <= maxDepth - 2 && FreeBelow(old(bits[..]), maxDepth - 2))
      ensures !sync && maxDepth == 2 ==> (ret == 0 <==> inFlight <= 1 && FreeBelow(old(bits[..]), 1))
      ensures ret != 0 ==> bits[..] == old(bits[..]) && index[..] == old(index[..]) && tag == old(tag) && busy == old(busy)
      ensures ret == 0 ==>
                && r in tag && tag == old(tag)[r := tag[r]] && busy == [r] + old(busy)
                && tag[r] < maxDepth && FirstFree(old(bits[..]), tag[r])
                && bits[..] == old(bits[..])[tag[r] := true] && index[..] == old(index[..])[tag[r] := Some(r)]
      ensures old(Reserved()) && maxDepth >= 3 ==> Reserved()
    {
      hide Good, FreeBelow;
      var room := maxDepth;
      if !sync && room > 1 {
        room := room - 2;
        if room == 0 {
          room := 1;
        }
        if inFlight > room {
          return 1;
        }
      }
      var t := FindFirstZero(room);
      if t >= room {
        return 1;
      }
      GoodStart(bits[..], index[..], tag, busy, r, t);
      bits[t] := true;
      tag := tag[r := t];
      index[t] := Some(r);
      busy := [r] + busy;
      async := if sync then async - {r} else async + {r};
      assert bits[..] == old(bits[..])[t := true] && index[..] == old(index[..])[t := Some(r)];
      return 0;
    }

    /** blk_queue_end_tag: a tag outside the map is not given back. */
    method EndTag(r: Rq)
      requires bits.Length == index.Length && r in tag
      modifies this`tag, this`busy, bits, index
      ensures !CanEnd(old(tag)[r], bits.Length) ==>
                tag == old(tag) && busy == old(busy) && bits[..] == old(bits[..]) && index[..] == old(index[..])
      ensures CanEnd(old(tag)[r], bits.Length) ==>
                && tag == old(tag) - {r} && busy == Without(old(busy), r)
                && bits[..] == old(bits[..])[old(tag)[r] := false] && index[..] == old(index[..])[old(tag)[r] := None]
      ensures old(Valid()) ==> Valid() && CanEnd(old(tag)[r], bits.Length)
      ensures old(Reserved()) ==> Reserved()
    {
      hide Good, Without;
      if Valid() { GoodEnd(bits[..], index[..], tag, busy, r); }
      var t := tag[r];
      if t >= bits.Length {
        return;
      }
      busy := Without(busy, r);
      tag := tag - {r};
      index[t] := None;
      bits[t] := false;
      assert bits[..] == old(bits[..])[t := false] && index[..] == old(index[..])[t := None];
    }

    /** blk_queue_resize_tags; `overrun` says that the copy went on past the end of the new map. */
    method Resize(depth: nat, nrRequests: nat, shared: bool, noMemory: bool) returns (ret: int, overrun: bool)
      requires Valid()
      modifies this`maxDepth, this`bits, this`index
      ensures tag == old(tag) && busy == old(busy) && bits.Length == index.Length
      ensures ret == if depth <= old(bits.Length) then 0 else if shared then -EBUSY else if noMemory then -ENOMEM else 0
      ensures ret == 0 ==> maxDepth == if depth <= old(bits.Length) then depth else Clamped(depth, nrRequests)
      ensures ret != 0 || depth <= old(bits.Length) ==> bits == old(bits) && index == old(index) && !overrun
      ensures ret != 0 ==> maxDepth == old(maxDepth)
      ensures ret == 0 && depth > old(bits.Length) ==>
                && fresh(bits) && fresh(index)
                && Copy(bits[..], index[..], overrun) == Copied(old(bits[..]), old(index[..]), Clamped(depth, nrRequests))
                && (overrun <==> nrRequests * 2 < old(bits.Length))
      ensures !overrun ==> Valid() && bits.Length >= old(bits.Length)
      ensures Valid() <==> forall r :: r in tag ==> CanEnd(tag[r], bits.Length)
    {
      hide Good, Fitted;
      TagsFit(bits[..], index[..], tag, busy);
      if depth <= bits.Length {
        maxDepth := depth;
        return 0, false;
      }
      if shared {
        return -EBUSY, false;
      }
      if noMemory {
        return -ENOMEM, false;
      }
      var n := Clamped(depth, nrRequests);
      GoodGrowth(bits[..], index[..], tag, busy, depth, nrRequests);
      var newBits, newIndex := new bool[n](_ => false), new Option<Rq>[n](_ => None);
      forall t | 0 <= t < n && t < bits.Length {
        newBits[t] := bits[t];
      }
      forall t | 0 <= t < n && t < index.Length {
        newIndex[t] := index[t];
      }
      assert newBits[..] == Fitted(bits[..], n, false) && newIndex[..] == Fitted(index[..], n, None);
      overrun := index.Length > n || Words(bits.Length) > Words(n);
      maxDepth, bits, index := n, newBits, newIndex;
      ret := 0;
    }

    /** blk_queue_invalidate_tags: the busy requests go back to the front of the queue, the oldest first. */
    method InvalidateTags()
      requires Valid()
      modifies this`tag, this`busy, this`queueHead, bits, index
      ensures Valid() && busy == [] && tag == map[] && queueHead == Reversed(old(busy)) + old(queueHead)
      ensures forall t :: 0 <= t < bits.Length ==> !bits[t] && index[t] == None
    {
      hide Agree, NoDup, Reversed, Without;
      ghost var gone: seq<Rq> := [];
      ReversedNone();
      while busy != []
        invariant Valid() && old(busy) == gone + busy && queueHead == Reversed(gone) + old(queueHead)
        decreases |busy|
      {
        var r := busy[0];
        FirstOut(busy);
        ReversedSnoc(gone, r);
        EndTag(r);
        queueHead := [r] + queueHead;
        gone := gone + [r];
      }
      assert gone == old(busy);
      NothingTagged(bits[..], index[..], tag);
    }
  }

  /**
   * A queue as it starts gets the largest map it can have, nine requests are started, the queue size is set to the
   * smallest value and the driver asks for one more tag: the copy overruns the new map of eight tags, and the ninth
   * request can not be ended any more.
   */
  method ClampLosesTag() returns (q: TagQueue, overrun: bool)
    ensures fresh(q) && overrun && q.bits.Length == 8
    ensures 8 in q.tag && q.tag[8] == 8 && 8 in q.busy && !CanEnd(q.tag[8], q.bits.Length)
  {
    hide Good, Without;
    q := new TagQueue(256, BLKDEV_MAX_RQ);
    for r := 0 to 9
      invariant q.Valid() && fresh(q) && fresh(q.bits) && fresh(q.index) && q.maxDepth == q.bits.Length == 256
      invariant forall t: nat :: (t in q.tag <==> t < r) && (t in q.tag ==> q.tag[t] == t)
      invariant forall t :: 0 <= t < 256 ==> (q.bits[t] <==> t < r)
    {
      assert !q.bits[..][r];
      var ret := q.StartTag(r, true, 0);
    }
    TagsFit(q.bits[..], q.index[..], q.tag, q.busy);
    assert 8 in q.tag;
    var ret;
    ret, overrun := q.Resize(257, StoredRequests(0), false, false);
    q.EndTag(8);
  }
}
