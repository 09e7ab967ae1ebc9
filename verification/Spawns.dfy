/**
 * Removal of an algorithm and of everything built on it, from omap/crypto/algapi.c.
 *
 * An algorithm keeps the list of the spawns that use it; every spawn belongs to an instance, which is an algorithm
 * with users of its own. crypto_remove_spawns walks this graph depth first, with no other storage than three lists
 * between which the spawns are moved.
 */
module Spawns {
  import opened Common
  import opened Lists

  type Alg = nat
  type Spawn = nat
  type Users = map<Alg, seq<Spawn>>
  type Insts = map<Spawn, Alg>

  /** Every spawn is on at most one list, once, and its instance is known. */
  ghost predicate Graph(u: Users, inst: Insts) {
    && (forall a :: a in u ==> NoDup(u[a]))
    && (forall a, s :: a in u && s in u[a] ==> s in inst && inst[s] in u)
    && (forall a, b, s :: a in u && b in u && s in u[a] && s in u[b] ==> a == b)
  }

  /** Each spawn uses the instance of the one before, the first one uses `a`. */
  ghost predicate Chain(u: Users, inst: Insts, a: Alg, p: seq<Spawn>) {
    && p != [] && (forall i :: 0 <= i < |p| ==> p[i] in inst)
    && a in u && p[0] in u[a]
    && (forall i :: 0 <= i < |p| - 1 ==> inst[p[i]] in u && p[i + 1] in u[inst[p[i]]])
  }

  /** The instance `x` uses `a`, directly or through others. */
  ghost predicate Depends(u: Users, inst: Insts, x: Alg, a: Alg) {
    exists p :: Chain(u, inst, a, p) && inst[p[|p| - 1]] == x
  }

  ghost predicate Affected(u: Users, inst: Insts, a: Alg, x: Alg) { x == a || Depends(u, inst, x, a) }

  ghost predicate Acyclic(u: Users, inst: Insts) { forall a :: !Depends(u, inst, a, a) }

  lemma DependsStep(u: Users, inst: Insts, a: Alg, x: Alg, s: Spawn)
    requires a in u && Affected(u, inst, a, x) && x in u && s in u[x] && s in inst
    ensures Depends(u, inst, inst[s], a)
  {
    if x == a {
      assert Chain(u, inst, a, [s]);
      assert [s][|[s]| - 1] == s;
    } else {
      var p :| Chain(u, inst, a, p) && inst[p[|p| - 1]] == x;
      var q := p + [s];
      assert Chain(u, inst, a, q);
      assert q[|q| - 1] == s;
    }
  }

  // ---------------------------------------------------------------- the walk

  /** The spawn is one of those to be visited. */
  ghost predicate Reached(u: Users, inst: Insts, alg: Alg, s: Spawn) {
    s in inst && exists a :: a in u && s in u[a] && Affected(u, inst, alg, a)
  }

  /** The lists in the middle of the walk; `u` is what is left of the users `u0`. */
  datatype Walk = Walk(u: Users, top: seq<Spawn>, stack: seq<Spawn>, done: seq<Spawn>)

  ghost predicate Moved(w: Walk, s: Spawn) { s in w.top || s in w.stack || s in w.done }

  /** No spawn is in two places. */
  ghost predicate Separate(w: Walk) {
    && NoDup(w.top) && NoDup(w.stack) && NoDup(w.done)
    && (forall s :: s in w.top ==> s !in w.stack && s !in w.done)
    && (forall s :: s in w.stack ==> s !in w.done)
    && (forall a :: a in w.u ==> NoDup(w.u[a]))
    && (forall a, s :: a in w.u && s in w.u[a] ==> !Moved(w, s))
  }

  ghost predicate Partial(u0: Users, inst: Insts, alg: Alg, w: Walk) {
    && w.u.Keys == u0.Keys && alg in u0
    && (forall a, s :: a in u0 && s in w.u[a] ==> s in u0[a])
    && (forall a, s :: a in u0 && s in u0[a] ==> s in w.u[a] || Moved(w, s))
    && (forall s :: Moved(w, s) ==> Reached(u0, inst, alg, s))
    && (forall a :: a in u0 && !Affected(u0, inst, alg, a) ==> w.u[a] == u0[a])
  }

  /** The users of the removed algorithm and of every instance that has been left are gone. */
  ghost predicate Exhausted(inst: Insts, alg: Alg, w: Walk) {
    && alg in w.u && w.u[alg] == []
    && (forall s :: s in w.done ==> s in inst && inst[s] in w.u && w.u[inst[s]] == [])
  }

  ghost predicate Walking(u0: Users, inst: Insts, alg: Alg, w: Walk) {
    Graph(u0, inst) && Separate(w) && Partial(u0, inst, alg, w) && Exhausted(inst, alg, w)
  }

  lemma ReachedDepends(u: Users, inst: Insts, alg: Alg, s: Spawn)
    requires Graph(u, inst) && alg in u && Reached(u, inst, alg, s)
    ensures Depends(u, inst, inst[s], alg) && inst[s] in u
  {
    var a :| a in u && s in u[a] && Affected(u, inst, alg, a);
    DependsStep(u, inst, alg, a, s);
  }

  /** At the start the users of the algorithm are moved to `top`. */
  lemma Starts(u0: Users, inst: Insts, alg: Alg, top: seq<Spawn>)
    requires Graph(u0, inst) && alg in u0 && NoDup(top) && (forall s :: s in top <==> s in u0[alg])
    ensures Walking(u0, inst, alg, Walk(u0[alg := []], top, [], []))
  {
    var w := Walk(u0[alg := []], top, [], []);
    hide Depends, NoDup;
    NoDupEmpty<Spawn>();
    forall s | Moved(w, s) ensures Reached(u0, inst, alg, s) {
      assert alg in u0 && s in u0[alg] && Affected(u0, inst, alg, alg);
    }
  }

  /** The list of spawns the inner loop looks at: that of the instance last pushed, or `top`. */
  function Current(inst: Insts, w: Walk): seq<Spawn>
    requires w.stack != [] ==> w.stack[0] in inst && inst[w.stack[0]] in w.u
  {
    if w.stack == [] then w.top else w.u[inst[w.stack[0]]]
  }

  /** list_move of the first spawn of the current list to the stack. */
  function Push(inst: Insts, w: Walk): Walk
    requires w.stack != [] ==> w.stack[0] in inst && inst[w.stack[0]] in w.u
    requires Current(inst, w) != []
  {
    if w.stack == [] then w.(top := w.top[1..], stack := [w.top[0]])
    else
      var a := inst[w.stack[0]];
      w.(u := w.u[a := w.u[a][1..]], stack := [w.u[a][0]] + w.stack)
  }

  /** list_move of the first spawn of the stack to the secondary spawns. */
  function Pop(w: Walk): Walk
    requires w.stack != []
  {
    w.(stack := w.stack[1..], done := [w.stack[0]] + w.done)
  }

  lemma StackKnown(u0: Users, inst: Insts, alg: Alg, w: Walk)
    requires Walking(u0, inst, alg, w) && w.stack != []
    ensures var s := w.stack[0]; s in inst && inst[s] in w.u && Depends(u0, inst, inst[s], alg)
  {
    assert Moved(w, w.stack[0]);
    ReachedDepends(u0, inst, alg, w.stack[0]);
  }

  lemma NoDupTail(l: seq<Spawn>)
    requires NoDup(l) && l != []
    ensures NoDup(l[1..]) && l[0] !in l[1..] && forall s :: s in l <==> s == l[0] || s in l[1..]
  {
    assert l == [l[0]] + l[1..];
  }

  lemma PushTopSeparate(w: Walk)
    requires Separate(w) && w.stack == [] && w.top != []
    ensures Separate(w.(top := w.top[1..], stack := [w.top[0]]))
    ensures forall s :: Moved(w.(top := w.top[1..], stack := [w.top[0]]), s) <==> Moved(w, s)
  {
    NoDupTail(w.top);
    var t := w.(top := w.top[1..], stack := [w.top[0]]);
    forall s ensures Moved(t, s) <==> Moved(w, s) {
      assert s in w.top <==> s == w.top[0] || s in w.top[1..];
    }
  }

  lemma PushTop(u0: Users, inst: Insts, alg: Alg, w: Walk)
    requires Walking(u0, inst, alg, w) && w.stack == [] && w.top != []
    ensures Walking(u0, inst, alg, Push(inst, w))
  {
    PushTopSeparate(w);
    hide Separate, Moved, Graph, Reached, Affected;
  }

  lemma PushUserSeparate(w: Walk, a: Alg)
    requires Separate(w) && a in w.u && w.u[a] != []
    requires forall b :: b in w.u && b != a ==> w.u[a][0] !in w.u[b]
    ensures var t := w.(u := w.u[a := w.u[a][1..]], stack := [w.u[a][0]] + w.stack);
            Separate(t) && forall s :: Moved(t, s) <==> Moved(w, s) || s == w.u[a][0]
  {
    NoDupTail(w.u[a]);
    assert !Moved(w, w.u[a][0]);
    NoDupAppend(w.stack, w.u[a][0]);
    var t := w.(u := w.u[a := w.u[a][1..]], stack := [w.u[a][0]] + w.stack);
    hide NoDup;
    forall s ensures Moved(t, s) <==> Moved(w, s) || s == w.u[a][0] {
      assert s in t.stack <==> s == w.u[a][0] || s in w.stack;
    }
    forall b, s | b in t.u && s in t.u[b] ensures !Moved(t, s) {
      assert s in w.u[b] && !Moved(w, s);
    }
  }

  lemma PushUserPartial(u0: Users, inst: Insts, alg: Alg, w: Walk, a: Alg, t: Walk)
    requires Partial(u0, inst, alg, w) && a in u0 && Affected(u0, inst, alg, a) && w.u[a] != [] && NoDup(w.u[a])
    requires t.u == w.u[a := w.u[a][1..]] && Reached(u0, inst, alg, w.u[a][0])
    requires forall s :: Moved(t, s) <==> Moved(w, s) || s == w.u[a][0]
    ensures Partial(u0, inst, alg, t)
  {
    NoDupTail(w.u[a]);
    hide NoDup, Affected, Reached, Moved;
  }

  /** The next spawn of an instance on the stack is one to be visited, and no one else's. */
  lemma NextUser(u0: Users, inst: Insts, alg: Alg, w: Walk, a: Alg)
    requires Walking(u0, inst, alg, w) && a in w.u && Depends(u0, inst, a, alg) && w.u[a] != []
    ensures a in u0 && Affected(u0, inst, alg, a) && Reached(u0, inst, alg, w.u[a][0]) && NoDup(w.u[a])
    ensures forall b :: b in w.u && b != a ==> w.u[a][0] !in w.u[b]
  {
    hide Depends, NoDup, Moved;
    var s := w.u[a][0];
    assert a in u0 && s in u0[a];
    forall b | b in w.u && b != a ensures s !in w.u[b] {
      assert b in u0 && s !in u0[b];
    }
  }

  lemma PushUser(u0: Users, inst: Insts, alg: Alg, w: Walk)
    requires Walking(u0, inst, alg, w) && w.stack != []
    requires w.stack[0] in inst && inst[w.stack[0]] in w.u && w.u[inst[w.stack[0]]] != []
    ensures Walking(u0, inst, alg, Push(inst, w))
  {
    hide Separate, Partial, Graph, Reached, Affected, Moved, NoDup, Depends;
    var a := inst[w.stack[0]];
    StackKnown(u0, inst, alg, w);
    NextUser(u0, inst, alg, w, a);
    PushUserSeparate(w, a);
    PushUserPartial(u0, inst, alg, w, a, Push(inst, w));
  }

  lemma PushKeeps(u0: Users, inst: Insts, alg: Alg, w: Walk)
    requires Walking(u0, inst, alg, w) && (w.stack != [] ==> w.stack[0] in inst && inst[w.stack[0]] in w.u)
    requires Current(inst, w) != []
    ensures Walking(u0, inst, alg, Push(inst, w))
  {
    hide Walking;
    if w.stack == [] {
      PushTop(u0, inst, alg, w);
    } else {
      PushUser(u0, inst, alg, w);
    }
  }

  lemma PopSeparate(w: Walk)
    requires Separate(w) && w.stack != []
    ensures Separate(Pop(w)) && forall s :: Moved(Pop(w), s) <==> Moved(w, s)
  {
    NoDupTail(w.stack);
    NoDupAppend(w.done, w.stack[0]);
    hide NoDup;
    forall s ensures Moved(Pop(w), s) <==> Moved(w, s) {
      assert s in w.stack <==> s == w.stack[0] || s in w.stack[1..];
    }
  }

  lemma PopKeeps(u0: Users, inst: Insts, alg: Alg, w: Walk)
    requires Walking(u0, inst, alg, w) && w.stack != []
    requires w.stack[0] in inst && inst[w.stack[0]] in w.u && w.u[inst[w.stack[0]]] == []
    ensures Walking(u0, inst, alg, Pop(w))
  {
    PopSeparate(w);
    hide Separate, Moved, Graph, Reached, Affected;
  }

  // ---------------------------------------------------------------- what the walk has found

  /** When nothing is waiting, a spawn of an exhausted instance has been visited. */
  lemma VisitedAll(u0: Users, inst: Insts, alg: Alg, w: Walk, a: Alg, s: Spawn)
    requires Partial(u0, inst, alg, w) && w.top == [] && w.stack == []
    requires a in u0 && s in u0[a] && w.u[a] == []
    ensures s in w.done
  {
    assert s in w.u[a] || Moved(w, s);
  }

  lemma {:induction false} ChainDone(u0: Users, inst: Insts, alg: Alg, w: Walk, p: seq<Spawn>, k: nat)
    requires Walking(u0, inst, alg, w) && w.top == [] && w.stack == []
    requires Chain(u0, inst, alg, p) && k < |p|
    ensures p[k] in w.done
    decreases k
  {
    hide Separate, Partial, Graph;
    if k == 0 {
      VisitedAll(u0, inst, alg, w, alg, p[0]);
    } else {
      ChainDone(u0, inst, alg, w, p, k - 1);
      assert p[k - 1 + 1] in u0[inst[p[k - 1]]];
      VisitedAll(u0, inst, alg, w, inst[p[k - 1]], p[k]);
    }
  }

  /** The instances of the spawns. */
  ghost predicate Owner(inst: Insts, spawns: seq<Spawn>, x: Alg) { exists s :: s in spawns && s in inst && inst[s] == x }

  /** The walk has visited the instances that depend on the algorithm, no others, and has taken all their users. */
  lemma Found(u0: Users, inst: Insts, alg: Alg, w: Walk)
    requires Walking(u0, inst, alg, w) && w.top == [] && w.stack == []
    ensures forall x :: Owner(inst, w.done, x) <==> Depends(u0, inst, x, alg)
    ensures w.u.Keys == u0.Keys
    ensures forall a :: a in u0 ==> w.u[a] == if Affected(u0, inst, alg, a) then [] else u0[a]
  {
    forall x | Owner(inst, w.done, x) ensures Depends(u0, inst, x, alg) {
      var s :| s in w.done && s in inst && inst[s] == x;
      assert Moved(w, s);
      ReachedDepends(u0, inst, alg, s);
    }
    forall x | Depends(u0, inst, x, alg) ensures Owner(inst, w.done, x) && (x in u0 ==> w.u[x] == []) {
      var p :| Chain(u0, inst, alg, p) && inst[p[|p| - 1]] == x;
      ChainDone(u0, inst, alg, w, p, |p| - 1);
    }
  }

  lemma {:induction false} NoDupBound(l: seq<Spawn>, all: set<Spawn>)
    requires NoDup(l) && forall s :: s in l ==> s in all
    ensures |l| <= |all|
    decreases |l|
  {
    if l != [] {
      NoDupTail(l);
      NoDupBound(l[1..], all - {l[0]});
    }
  }

  lemma NoDupConcat(a: seq<Spawn>, b: seq<Spawn>)
    requires NoDup(a) && NoDup(b) && forall s :: s in a ==> s !in b
    ensures NoDup(a + b)
  {
    var l := a + b;
    forall i, j | 0 <= i < j < |l| ensures l[i] != l[j] {
      if i < |a| <= j { assert l[i] in a && l[j] in b; }
    }
  }

  /** The stack and the finished spawns can only grow so far. */
  lemma WalkBound(u0: Users, inst: Insts, alg: Alg, w: Walk)
    requires Walking(u0, inst, alg, w)
    ensures |w.stack| + |w.done| <= |inst|
  {
    var l := w.stack + w.done;
    NoDupConcat(w.stack, w.done);
    forall s | s in l ensures s in inst.Keys { assert Moved(w, s); }
    NoDupBound(l, inst.Keys);
    assert |inst.Keys| == |inst|;
  }

  /** spawn->alg has been cleared for the spawns on the stack and the finished ones. */
  ghost predicate Cleared(algOf0: map<Spawn, Option<Alg>>, algOf: map<Spawn, Option<Alg>>, w: Walk) {
    && algOf.Keys == algOf0.Keys
    && forall s :: s in algOf0 ==> algOf[s] == if s in w.stack || s in w.done then None else algOf0[s]
  }

  lemma ClearedPush(algOf0: map<Spawn, Option<Alg>>, algOf: map<Spawn, Option<Alg>>, w: Walk, t: Walk, s: Spawn)
    requires Cleared(algOf0, algOf, w) && s in algOf0 && t.done == w.done && t.stack == [s] + w.stack
    ensures Cleared(algOf0, algOf[s := None], t)
  {
  }

  /** The inner loop of crypto_remove_spawns: down to an instance without users. */
  method Descend(u0: Users, inst: Insts, alg: Alg, ghost algOf0: map<Spawn, Option<Alg>>, w0: Walk, algOf1: map<Spawn, Option<Alg>>)
    returns (w: Walk, algOf: map<Spawn, Option<Alg>>)
    requires Walking(u0, inst, alg, w0) && !Depends(u0, inst, alg, alg) && Cleared(algOf0, algOf1, w0)
    requires algOf0.Keys == inst.Keys
    ensures Walking(u0, inst, alg, w) && Cleared(algOf0, algOf, w)
    ensures w.done == w0.done
    ensures w.stack == [] ==> w.top == []
    ensures w.stack != [] ==> w.stack[0] in inst && inst[w.stack[0]] in w.u && w.u[inst[w.stack[0]]] == []
  {
    hide Walking, Depends, Cleared;
    w, algOf := w0, algOf1;
    var spawns := w.top;
    if w.stack != [] {
      StackKnown(u0, inst, alg, w);
      spawns := w.u[inst[w.stack[0]]];
    }
    while spawns != []
      invariant Walking(u0, inst, alg, w) && Cleared(algOf0, algOf, w)
      invariant w.stack != [] ==> w.stack[0] in inst && inst[w.stack[0]] in w.u
      invariant spawns == Current(inst, w)
      invariant w.done == w0.done
      decreases |inst| - |w.stack| - |w.done|
    {
      var spawn := spawns[0];
      ghost var before := w;
      PushKeeps(u0, inst, alg, w);
      w := Push(inst, w);
      StackKnown(u0, inst, alg, w);
      WalkBound(u0, inst, alg, w);
      // BUG_ON(&inst->alg == alg)
      assert inst[spawn] != alg;
      ClearedPush(algOf0, algOf, before, w, spawn);
      algOf := algOf[spawn := None];
      spawns := w.u[inst[spawn]];
    }
  }

  /**
   * The two nested loops of crypto_remove_spawns, with crypto_more_spawns, from the users of the algorithm on `top`:
   * all users of the algorithm and of what depends on it are taken, and nothing else is touched.
   */
  method Traverse(u0: Users, inst: Insts, alg: Alg, top: seq<Spawn>, algOf0: map<Spawn, Option<Alg>>)
    returns (u: Users, done: seq<Spawn>, algOf: map<Spawn, Option<Alg>>)
    requires Walking(u0, inst, alg, Walk(u0[alg := []], top, [], [])) && !Depends(u0, inst, alg, alg)
    requires algOf0.Keys == inst.Keys
    ensures u.Keys == u0.Keys && forall a :: a in u0 ==> u[a] == if Affected(u0, inst, alg, a) then [] else u0[a]
    ensures forall x :: Owner(inst, done, x) <==> Depends(u0, inst, x, alg)
    ensures forall s :: s in done ==> s in inst && inst[s] in u && u[inst[s]] == []
    ensures forall a, s :: a in u && s in u[a] ==> s !in done
    ensures algOf.Keys == inst.Keys && forall s :: s in inst ==> algOf[s] == if s in done then None else algOf0[s]
  {
    var w := Walk(u0[alg := []], top, [], []);
    assert Cleared(algOf0, algOf0, w);
    hide Walking, Depends, Cleared;
    w, algOf := Descend(u0, inst, alg, algOf0, w, algOf0);
    while w.stack != []
      invariant Walking(u0, inst, alg, w) && Cleared(algOf0, algOf, w)
      invariant w.stack == [] ==> w.top == []
      invariant w.stack != [] ==> w.stack[0] in inst && inst[w.stack[0]] in w.u && w.u[inst[w.stack[0]]] == []
      decreases |inst| - |w.done|
    {
      PopKeeps(u0, inst, alg, w);
      ClearedPop(algOf0, algOf, w);
      w := Pop(w);
      WalkBound(u0, inst, alg, w);
      w, algOf := Descend(u0, inst, alg, algOf0, w, algOf);
    }
    Found(u0, inst, alg, w);
    Ended(u0, inst, alg, algOf0, algOf, w);
    u, done := w.u, w.done;
  }

  lemma ClearedPop(algOf0: map<Spawn, Option<Alg>>, algOf: map<Spawn, Option<Alg>>, w: Walk)
    requires Cleared(algOf0, algOf, w) && w.stack != []
    ensures Cleared(algOf0, algOf, Pop(w))
  {
    assert w.stack == [w.stack[0]] + w.stack[1..];
  }

  lemma Ended(u0: Users, inst: Insts, alg: Alg, algOf0: map<Spawn, Option<Alg>>, algOf: map<Spawn, Option<Alg>>, w: Walk)
    requires Walking(u0, inst, alg, w) && Cleared(algOf0, algOf, w) && w.stack == [] && algOf0.Keys == inst.Keys
    ensures forall s :: s in w.done ==> s in inst && inst[s] in w.u && w.u[inst[s]] == []
    ensures forall a, s :: a in w.u && s in w.u[a] ==> s !in w.done
    ensures algOf.Keys == inst.Keys && forall s :: s in inst ==> algOf[s] == if s in w.done then None else algOf0[s]
  {
    forall a, s | a in w.u && s in w.u[a] ensures s !in w.done { assert !Moved(w, s); }
  }

  /**
   * The first loop: list_move of the users to the head of `top`, one after the other. Without a replacement the type
   * test compares the algorithm with itself, so no user is skipped.
   */
  method TakeUsers(spawns: seq<Spawn>) returns (top: seq<Spawn>)
    requires NoDup(spawns)
    ensures NoDup(top) && |top| == |spawns| && forall s :: s in top <==> s in spawns
  {
    top := [];
    for i := 0 to |spawns|
      invariant |top| == i && NoDup(top)
      invariant forall s :: s in top <==> s in spawns[..i]
    {
      assert spawns[..i + 1] == spawns[..i] + [spawns[i]];
      NoDupAppend(top, spawns[i]);
      top := [spawns[i]] + top;
    }
    assert spawns[..|spawns|] == spawns;
  }
}
