/**
 * The merge hash of omap/block/elevator.c: sorted requests are filed under the sector behind their end, so that a
 * request which new data could be appended to is found without a scan.
 */
module MergeHash {
  import opened Common
  import opened Lists

  type Rq = nat

  datatype Extent = Extent(pos: int, sectors: nat)

  /** rq_hash_key */
  function Key(e: Extent): int { e.pos + e.sectors }

  /** The lookup by linear scan over what is queued: a mergeable sorted request that ends at `offset`. */
  ghost predicate EndsAt(sorted: set<Rq>, mergeable: set<Rq>, at: map<Rq, Extent>, offset: int, r: Rq) {
    r in sorted && r in mergeable && r in at && Key(at[r]) == offset
  }

  // ---------------------------------------------------------------- the invariant

  ghost predicate BucketOk(bucket: seq<Rq>, b: nat, h: int -> nat, sorted: set<Rq>, at: map<Rq, Extent>) {
    NoDup(bucket) && forall r :: r in bucket ==> r in sorted && r in at && h(Key(at[r])) == b
  }

  /** Every hashed request is in the bucket of its end, and every mergeable sorted request is hashed. */
  ghost predicate HashOk(buckets: seq<seq<Rq>>, h: int -> nat, sorted: set<Rq>, mergeable: set<Rq>, at: map<Rq, Extent>) {
    && (forall x :: h(x) < |buckets|)
    && (forall r :: r in sorted ==> r in at)
    && (forall b :: 0 <= b < |buckets| ==> BucketOk(buckets[b], b, h, sorted, at))
    && (forall r :: r in sorted && r in mergeable ==> r in buckets[h(Key(at[r]))])
  }

  /** elv_rqhash_del: the request is taken out of every bucket, that is out of the one it is in. */
  function Deleted(buckets: seq<seq<Rq>>, r: Rq): (t: seq<seq<Rq>>)
    ensures |t| == |buckets| && forall b :: 0 <= b < |buckets| ==> t[b] == Without(buckets[b], r)
  {
    if buckets == [] then [] else Deleted(buckets[..|buckets| - 1], r) + [Without(buckets[|buckets| - 1], r)]
  }

  /** Without one request, which may then be changed at will. */
  lemma DeletedOk(buckets: seq<seq<Rq>>, h: int -> nat, sorted: set<Rq>, mergeable: set<Rq>, at: map<Rq, Extent>, r: Rq, e: Extent)
    requires HashOk(buckets, h, sorted, mergeable, at)
    ensures HashOk(Deleted(buckets, r), h, sorted - {r}, mergeable, at[r := e])
  {
    hide Without, Deleted, NoDup;
    var t := Deleted(buckets, r);
    forall b | 0 <= b < |t| ensures BucketOk(t[b], b, h, sorted - {r}, at[r := e]) {
      assert BucketOk(buckets[b], b, h, sorted, at);
    }
  }

  /** hlist_add_head into the bucket of the request's end. */
  lemma AddedOk(buckets: seq<seq<Rq>>, h: int -> nat, sorted: set<Rq>, mergeable: set<Rq>, at: map<Rq, Extent>, r: Rq)
    requires HashOk(buckets, h, sorted, mergeable, at) && r !in sorted && r in at
    ensures var b := h(Key(at[r]));
            b < |buckets| && HashOk(buckets[b := [r] + buckets[b]], h, sorted + {r}, mergeable, at)
  {
    var b := h(Key(at[r]));
    assert BucketOk(buckets[b], b, h, sorted, at);
    NoDupAppend(buckets[b], r);
    hide NoDup;
    var t := buckets[b := [r] + buckets[b]];
    forall c | 0 <= c < |t| ensures BucketOk(t[c], c, h, sorted + {r}, at) {
      assert BucketOk(buckets[c], c, h, sorted, at);
    }
  }

  class Elevator {
    const h: int -> nat
    var buckets: seq<seq<Rq>>
    var at: map<Rq, Extent>
    /** REQ_SORTED and not yet dispatched; as many as nr_sorted says. */
    var sorted: set<Rq>
    /** rq_mergeable; a request may lose this at any time, but never gets it back. */
    var mergeable: set<Rq>
    /** The one-hit cache, which never holds a request that is gone. */
    var lastMerge: Option<Rq>

    ghost predicate Valid()
      reads this
    {
      HashOk(buckets, h, sorted, mergeable, at) && (lastMerge.Some? ==> lastMerge.value in sorted)
    }

    constructor (h: int -> nat, entries: nat)
      requires forall x :: h(x) < entries
      ensures Valid() && sorted == {} && lastMerge == None
    {
      this.h, buckets, at, sorted, mergeable, lastMerge := h, seq(entries, _ => []), map[], {}, {}, None;
    }

    /** elv_rqhash_find: exactly what a scan of all queued requests would find. */
    method Find(offset: int) returns (r: Option<Rq>)
      requires Valid()
      modifies this`buckets
      ensures Valid()
      ensures r.Some? ==> EndsAt(sorted, mergeable, at, offset, r.value)
      ensures r.None? ==> forall x :: !EndsAt(sorted, mergeable, at, offset, x)
    {
      var b := h(offset);
      assert BucketOk(buckets[b], b, h, sorted, at);
      var todo := buckets[b];
      while todo != []
        invariant Valid()
        invariant forall x :: x in todo ==> x in sorted && x in at
        invariant forall x :: EndsAt(sorted, mergeable, at, offset, x) ==> x in todo
        decreases |todo|
      {
        var rq := todo[0];
        assert todo == [rq] + todo[1..];
        todo := todo[1..];
        if rq !in mergeable {
          UnhashOk(buckets, h, sorted, mergeable, at, b, rq);
          buckets := buckets[b := Without(buckets[b], rq)];
        } else if Key(at[rq]) == offset {
          return Some(rq);
        }
      }
      return None;
    }

    /** The sorted insertion of __elv_add_request. */
    method Insert(r: Rq, e: Extent, canMerge: bool)
      requires Valid() && r !in sorted
      modifies this
      ensures Valid() && sorted == old(sorted) + {r} && at == old(at)[r := e]
      ensures mergeable == if canMerge then old(mergeable) + {r} else old(mergeable) - {r}
      ensures lastMerge == if canMerge && old(lastMerge).None? then Some(r) else old(lastMerge)
    {
      hide Without, NoDup;
      NotHashed(buckets, h, sorted, mergeable, at, r, e, canMerge);
      at := at[r := e];
      mergeable := if canMerge then mergeable + {r} else mergeable - {r};
      if canMerge {
        AddedOk(buckets, h, sorted, mergeable, at, r);
        buckets := buckets[h(Key(e)) := [r] + buckets[h(Key(e))]];
        if lastMerge.None? {
          lastMerge := Some(r);
        }
      }
      sorted := sorted + {r};
    }

    /** elv_rqhash_reposition after the end of a request has moved to that of `e`. */
    method Reposition(r: Rq, e: Extent)
      requires Valid() && r in sorted
      modifies this`buckets, this`at
      ensures Valid() && at == old(at)[r := e]
    {
      hide HashOk;
      DeletedOk(buckets, h, sorted, mergeable, at, r, e);
      at := at[r := e];
      buckets := Deleted(buckets, r);
      AddedOk(buckets, h, sorted - {r}, mergeable, at, r);
      assert sorted - {r} + {r} == sorted;
      buckets := buckets[h(Key(e)) := [r] + buckets[h(Key(e))]];
    }

    /** bio_attempt_back_merge and elv_merged_request: `n` sectors are appended. */
    method BackMerge(r: Rq, n: nat)
      requires Valid() && r in sorted && r in at
      modifies this`buckets, this`at, this`lastMerge
      ensures Valid() && at == old(at)[r := Extent(old(at)[r].pos, old(at)[r].sectors + n)] && lastMerge == Some(r)
    {
      hide HashOk;
      Reposition(r, Extent(at[r].pos, at[r].sectors + n));
      lastMerge := Some(r);
    }

    /** bio_attempt_front_merge and elv_merged_request: the end stays where it is, and so does the request. */
    method FrontMerge(r: Rq, n: nat)
      requires Valid() && r in sorted && r in at
      modifies this`at, this`lastMerge
      ensures Valid() && at == old(at)[r := Extent(old(at)[r].pos - n, old(at)[r].sectors + n)] && lastMerge == Some(r)
    {
      hide HashOk;
      FrontOk(buckets, h, sorted, mergeable, at, r, Extent(at[r].pos - n, at[r].sectors + n));
      at := at[r := Extent(at[r].pos - n, at[r].sectors + n)];
      lastMerge := Some(r);
    }

    /** elv_rqhash_del and the count of sorted requests. */
    method Unsort(r: Rq)
      requires HashOk(buckets, h, sorted, mergeable, at) && r in sorted && r in at
      modifies this`buckets, this`sorted
      ensures HashOk(buckets, h, sorted, mergeable, at) && sorted == old(sorted) - {r}
    {
      hide HashOk;
      DeletedOk(buckets, h, sorted, mergeable, at, r, at[r]);
      assert at[r := at[r]] == at;
      buckets := Deleted(buckets, r);
      sorted := sorted - {r};
    }

    /** elv_merge_requests: `r` swallows `next`, which may be sorted or not and starts where `r` ends. */
    method MergeRequests(r: Rq, next: Rq, e: Extent)
      requires Valid() && r in sorted && r in at && r != next && e.pos == Key(at[r])
      requires next in sorted ==> next in at && at[next] == e
      modifies this`buckets, this`at, this`sorted, this`lastMerge
      ensures Valid() && sorted == old(sorted) - {next} && lastMerge == Some(r)
      ensures at == old(at)[r := Extent(old(at)[r].pos, old(at)[r].sectors + e.sectors)]
      ensures Key(at[r]) == Key(e)
    {
      hide HashOk;
      Reposition(r, Extent(at[r].pos, at[r].sectors + e.sectors));
      if next in sorted {
        Unsort(next);
      }
      lastMerge := Some(r);
    }

    /** blk_attempt_req_merge of a request that is not sorted; `fits` are the requests it can be joined to. */
    method AttemptMerge(r: Rq, next: Rq, e: Extent, fits: set<Rq>) returns (merged: bool)
      requires Valid() && r in sorted && r in at && next !in sorted
      modifies this`buckets, this`at, this`sorted, this`lastMerge
      ensures Valid() && sorted == old(sorted)
      ensures merged <==> r in fits && EndsAt(old(sorted), mergeable, old(at), e.pos, r)
      ensures merged ==>
                at == old(at)[r := Extent(old(at)[r].pos, old(at)[r].sectors + e.sectors)] && lastMerge == Some(r)
      ensures !merged ==> at == old(at) && lastMerge == old(lastMerge)
    {
      hide HashOk;
      merged := r in mergeable && Key(at[r]) == e.pos && r in fits;
      if merged {
        MergeRequests(r, next, e);
      }
    }

    /**
     * elv_attempt_insert_merge of a request with extent `e` that is about to be queued. With merging on, it is queued
     * by itself only if what ends at its start can not be joined.
     */
    method InsertMerge(r: Rq, e: Extent, fits: set<Rq>, noMerges: bool, noXMerges: bool) returns (into: Option<Rq>)
      requires Valid() && r !in sorted
      modifies this`buckets, this`at, this`sorted, this`lastMerge
      ensures Valid() && sorted == old(sorted)
      ensures into.Some? ==>
                && into.value in fits && EndsAt(old(sorted), mergeable, old(at), e.pos, into.value) && lastMerge == into
                && at == old(at)[into.value := Extent(old(at)[into.value].pos, old(at)[into.value].sectors + e.sectors)]
      ensures into.None? ==> at == old(at) && lastMerge == old(lastMerge)
      ensures into.None? && !noMerges && !noXMerges && (forall x :: EndsAt(sorted, mergeable, at, e.pos, x) ==> x in fits) ==>
                forall x :: !EndsAt(sorted, mergeable, at, e.pos, x)
    {
      if noMerges {
        return None;
      }
      if lastMerge.Some? {
        var last := lastMerge.value;
        var merged := AttemptMerge(last, r, e, fits);
        if merged {
          return Some(last);
        }
      }
      if noXMerges {
        return None;
      }
      into := Find(e.pos);
      if into.Some? {
        var merged := AttemptMerge(into.value, r, e, fits);
        if !merged {
          return None;
        }
      }
    }

    /** What elv_dispatch_add_tail does to the hash and the cache. */
    method Dispatch(r: Rq)
      requires Valid() && r in sorted && r in at
      modifies this`buckets, this`sorted, this`lastMerge
      ensures Valid() && sorted == old(sorted) - {r} && lastMerge == if old(lastMerge) == Some(r) then None else old(lastMerge)
    {
      hide HashOk;
      if lastMerge == Some(r) {
        lastMerge := None;
      }
      Unsort(r);
    }

    /** A request is marked as not mergeable; it stays in its bucket until a lookup meets it. */
    method SetNoMerge(r: Rq)
      requires Valid()
      modifies this`mergeable
      ensures Valid() && mergeable == old(mergeable) - {r}
    {
      mergeable := mergeable - {r};
    }
  }

  lemma UnhashOk(buckets: seq<seq<Rq>>, h: int -> nat, sorted: set<Rq>, mergeable: set<Rq>, at: map<Rq, Extent>, b: nat, r: Rq)
    requires HashOk(buckets, h, sorted, mergeable, at) && b < |buckets| && r !in mergeable
    ensures HashOk(buckets[b := Without(buckets[b], r)], h, sorted, mergeable, at)
  {
    hide Without, NoDup;
    var t := buckets[b := Without(buckets[b], r)];
    forall c | 0 <= c < |t| ensures BucketOk(t[c], c, h, sorted, at) {
      assert BucketOk(buckets[c], c, h, sorted, at);
    }
  }

  /** A request that is not sorted is in no bucket, so nobody minds what it looks like. */
  lemma NotHashed(buckets: seq<seq<Rq>>, h: int -> nat, sorted: set<Rq>, mergeable: set<Rq>, at: map<Rq, Extent>, r: Rq, e: Extent, canMerge: bool)
    requires HashOk(buckets, h, sorted, mergeable, at) && r !in sorted
    ensures HashOk(buckets, h, sorted, if canMerge then mergeable + {r} else mergeable - {r}, at[r := e])
    ensures HashOk(buckets, h, sorted + {r}, mergeable - {r}, at[r := e])
  {
    hide NoDup;
    forall b | 0 <= b < |buckets| ensures BucketOk(buckets[b], b, h, sorted, at[r := e]) && BucketOk(buckets[b], b, h, sorted + {r}, at[r := e]) {
      assert BucketOk(buckets[b], b, h, sorted, at);
    }
  }

  lemma FrontOk(buckets: seq<seq<Rq>>, h: int -> nat, sorted: set<Rq>, mergeable: set<Rq>, at: map<Rq, Extent>, r: Rq, e: Extent)
    requires HashOk(buckets, h, sorted, mergeable, at) && r in sorted && r in at && Key(e) == Key(at[r])
    ensures HashOk(buckets, h, sorted, mergeable, at[r := e])
  {
    hide NoDup;
    forall b | 0 <= b < |buckets| ensures BucketOk(buckets[b], b, h, sorted, at[r := e]) {
      assert BucketOk(buckets[b], b, h, sorted, at);
    }
  }
}
