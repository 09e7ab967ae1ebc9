/**
 * The registry operations of omap/crypto/algapi.c that change the users lists, and what all of them keep.
 */
module SpawnRegistry {
  import opened Common
  import opened Lists
  import opened Spawns

  const EAGAIN := 11
  const ENOENT := 2
  const ENOMEM := 12
  const EEXIST := 17

  lemma DependsSub(u: Users, v: Users, inst: Insts, x: Alg, a: Alg)
    requires (forall a :: a in v ==> a in u && forall s :: s in v[a] ==> s in u[a]) && Depends(v, inst, x, a)
    ensures Depends(u, inst, x, a)
  {
    var p :| Chain(v, inst, a, p) && inst[p[|p| - 1]] == x;
    assert Chain(u, inst, a, p);
  }

  /** Removing users cannot close a cycle. */
  lemma AcyclicSub(u: Users, v: Users, inst: Insts)
    requires Acyclic(u, inst) && (forall a :: a in v ==> a in u && forall s :: s in v[a] ==> s in u[a])
    ensures Acyclic(v, inst)
  {
    hide Depends;
    forall a ensures !Depends(v, inst, a, a) {
      if Depends(v, inst, a, a) { DependsSub(u, v, inst, a, a); }
    }
  }

  /** `v` is `u` with one more user of `alg`. */
  ghost predicate Added(u: Users, v: Users, inst: Insts, inst': Insts, alg: Alg, s: Spawn) {
    && Graph(u, inst) && alg in u && s !in inst && inst'.Keys == inst.Keys + {s}
    && (forall t :: t in inst ==> inst'[t] == inst[t])
    && inst'[s] in u && v == u[alg := [s] + u[alg]]
  }

  lemma AddedUser(u: Users, v: Users, inst: Insts, inst': Insts, alg: Alg, s: Spawn, a: Alg, t: Spawn)
    requires Added(u, v, inst, inst', alg, s) && a in v && t in v[a]
    ensures a in u && if t == s then a == alg else t in u[a] && t in inst && inst'[t] == inst[t] && inst[t] in u
  {
  }

  lemma DependsDirectly(u: Users, inst: Insts, a: Alg, t: Spawn)
    requires a in u && t in u[a] && t in inst
    ensures Depends(u, inst, inst[t], a)
  {
    assert Affected(u, inst, a, a);
    DependsStep(u, inst, a, a, t);
  }

  /** A chain after the addition: without the new spawn it was there before, with it, it falls into two parts that were. */
  lemma {:induction false} ChainParts(u: Users, v: Users, inst: Insts, inst': Insts, alg: Alg, s: Spawn, a: Alg, p: seq<Spawn>)
    requires Added(u, v, inst, inst', alg, s) && Chain(v, inst', a, p)
    ensures inst'[p[|p| - 1]] in u
    ensures s !in p ==> Depends(u, inst, inst'[p[|p| - 1]], a)
    ensures s in p ==> Affected(u, inst, inst'[s], inst'[p[|p| - 1]]) && Affected(u, inst, a, alg)
    decreases |p|
  {
    hide Depends, Added;
    AddedOwner(u, v, inst, inst', alg, s);
    var n := |p| - 1;
    var t := p[n];
    assert p == p[..n] + [t];
    if n == 0 {
      AddedUser(u, v, inst, inst', alg, s, a, t);
      if t != s { DependsDirectly(u, inst, a, t); }
    } else {
      var q := p[..n];
      assert Chain(v, inst', a, q);
      assert p[n - 1 + 1] in v[inst'[p[n - 1]]] && q[|q| - 1] == p[n - 1];
      ChainParts(u, v, inst, inst', alg, s, a, q);
      LastStep(u, v, inst, inst', alg, s, a, q, t);
    }
  }

  lemma AddedOwner(u: Users, v: Users, inst: Insts, inst': Insts, alg: Alg, s: Spawn)
    requires Added(u, v, inst, inst', alg, s)
    ensures s in inst' && inst'[s] in u && v.Keys == u.Keys
  {
  }

  lemma LastStep(u: Users, v: Users, inst: Insts, inst': Insts, alg: Alg, s: Spawn, a: Alg, q: seq<Spawn>, t: Spawn)
    requires Added(u, v, inst, inst', alg, s) && a in u && q != [] && (forall r :: r in q ==> r in inst') && s in inst' && t in inst'
    requires var y := inst'[q[|q| - 1]];
             && y in v && t in v[y] && y in u
             && (s !in q ==> Depends(u, inst, y, a))
             && (s in q ==> Affected(u, inst, inst'[s], y) && Affected(u, inst, a, alg))
    ensures inst'[t] in u
    ensures s !in q && t != s ==> Depends(u, inst, inst'[t], a)
    ensures s in q || t == s ==> Affected(u, inst, inst'[s], inst'[t]) && Affected(u, inst, a, alg)
  {
    AddedOwner(u, v, inst, inst', alg, s);
    var y := inst'[q[|q| - 1]];
    AddedUser(u, v, inst, inst', alg, s, y, t);
    hide Depends, Added;
    if t != s {
      if s !in q { DependsStep(u, inst, a, y, t); } else { DependsStep(u, inst, inst'[s], y, t); }
    }
  }

  lemma AffectedTrans(u: Users, inst: Insts, a: Alg, b: Alg, c: Alg)
    requires Graph(u, inst) && Affected(u, inst, a, b) && Affected(u, inst, b, c)
    ensures Affected(u, inst, a, c)
  {
    if a != b && b != c {
      var p :| Chain(u, inst, a, p) && inst[p[|p| - 1]] == b;
      var q :| Chain(u, inst, b, q) && inst[q[|q| - 1]] == c;
      var r := p + q;
      forall i | 0 <= i < |r| - 1 ensures inst[r[i]] in u && r[i + 1] in u[inst[r[i]]] {
        if i < |p| - 1 {
          assert r[i] == p[i] && r[i + 1] == p[i + 1];
        } else if i >= |p| {
          var k := i - |p|;
          assert r[i] == q[k] && r[i + 1] == q[k + 1];
        } else {
          assert r[i] == p[|p| - 1] && r[i + 1] == q[0];
        }
      }
      assert Chain(u, inst, a, r) && r[|r| - 1] == q[|q| - 1];
    }
  }

  /** A user closes no cycle exactly if the algorithm is neither the instance itself nor built on it. */
  lemma AcyclicIff(u: Users, v: Users, inst: Insts, inst': Insts, alg: Alg, s: Spawn)
    requires Added(u, v, inst, inst', alg, s) && Acyclic(u, inst) && s in inst'
    ensures Acyclic(v, inst') <==> !Affected(u, inst, inst'[s], alg)
  {
    hide Depends, Added;
    if Affected(u, inst, inst'[s], alg) {
      ClosesCycle(u, v, inst, inst', alg, s);
    } else {
      forall a ensures !Depends(v, inst', a, a) {
        if Depends(v, inst', a, a) { CycleWasThere(u, v, inst, inst', alg, s, a); }
      }
    }
  }

  lemma ClosesCycle(u: Users, v: Users, inst: Insts, inst': Insts, alg: Alg, s: Spawn)
    requires Added(u, v, inst, inst', alg, s) && Affected(u, inst, inst'[s], alg)
    ensures Depends(v, inst', inst'[s], inst'[s])
  {
    var i := inst'[s];
    if i != alg {
      var p :| Chain(u, inst, i, p) && inst[p[|p| - 1]] == alg;
      assert Chain(v, inst', i, p) && inst'[p[|p| - 1]] == alg;
      assert Depends(v, inst', alg, i);
    }
    DependsStep(v, inst', i, alg, s);
  }

  lemma CycleWasThere(u: Users, v: Users, inst: Insts, inst': Insts, alg: Alg, s: Spawn, a: Alg)
    requires Added(u, v, inst, inst', alg, s) && Depends(v, inst', a, a)
    ensures Depends(u, inst, a, a) || Affected(u, inst, inst'[s], alg)
  {
    var p :| Chain(v, inst', a, p) && inst'[p[|p| - 1]] == a;
    ChainParts(u, v, inst, inst', alg, s, a, p);
    if s in p { AffectedTrans(u, inst, inst'[s], a, alg); }
  }

  /** An instance that nobody uses may use any other algorithm. */
  lemma NewInstanceIsSafe(u: Users, inst: Insts, i: Alg, alg: Alg)
    requires i in u && u[i] == [] && i != alg
    ensures !Affected(u, inst, i, alg)
  {
  }

  lemma GraphAdd(u: Users, v: Users, inst: Insts, inst': Insts, alg: Alg, s: Spawn)
    requires Added(u, v, inst, inst', alg, s)
    ensures Graph(v, inst')
  {
    assert s !in u[alg];
    NoDupAppend(u[alg], s);
    hide NoDup;
    forall a, t | a in v && t in v[a] ensures t in inst' && inst'[t] in v && (t == s ==> a == alg) && (t != s ==> t in u[a]) {
      if t != s { assert t in u[a]; }
    }
  }

  /** The instance is taken off the lists and handed to the caller. */
  ghost predicate Gone(inst: Insts, done: seq<Spawn>, dead: set<Alg>, hashed: set<Alg>, canGet: Alg -> bool, x: Alg) {
    Owner(inst, done, x) && x !in dead && x in hashed && canGet(x)
  }

  lemma OwnerNone(inst: Insts)
    ensures forall x :: !Owner(inst, [], x)
  {
  }

  lemma OwnerStep(inst: Insts, done: seq<Spawn>, i: nat)
    requires i < |done| && done[i] in inst
    ensures forall x :: Owner(inst, done[..i + 1], x) <==> Owner(inst, done[..i], x) || x == inst[done[i]]
  {
    var a, b := done[..i], done[..i + 1];
    assert b == a + [done[i]];
    forall x ensures Owner(inst, b, x) <==> Owner(inst, a, x) || x == inst[done[i]] {
      if Owner(inst, b, x) {
        var s :| s in b && s in inst && inst[s] == x;
        assert s in a || s == done[i];
      }
      if Owner(inst, a, x) {
        var s :| s in a && s in inst && inst[s] == x;
        assert s in b;
      }
      if x == inst[done[i]] { assert done[i] in b; }
    }
  }

  /**
   * A driver name is neither the generic name of another algorithm nor the other way round, unless one is on its way
   * out, and no two tests of one driver are under way: crypto_alg_tested finds the place holder by that name.
   */
  ghost predicate Apart(listed: set<Alg>, moribund: set<Alg>, larvals: set<Alg>, name: map<Alg, string>, driver: map<Alg, string>) {
    && Known(listed, name, driver)
    && (forall q, r :: q in listed - larvals - moribund && r in listed - larvals - moribund && q != r ==> driver[q] != name[r])
    && (forall q, r :: q in listed * larvals - moribund && r in listed * larvals - moribund && q != r ==> driver[q] != driver[r])
  }

  /** What __crypto_register_alg takes for the same algorithm: `q` is on the list when `a` is registered. */
  predicate Clashes(a: Alg, q: Alg, moribund: set<Alg>, larvals: set<Alg>, name: map<Alg, string>, driver: map<Alg, string>)
    requires a in name && a in driver && q in name && q in driver
  {
    q == a || (q !in moribund && if q in larvals then driver[a] == driver[q] else driver[q] == name[a] || name[q] == driver[a])
  }

  ghost predicate Known(listed: set<Alg>, name: map<Alg, string>, driver: map<Alg, string>) {
    forall q :: q in listed ==> q in name && q in driver
  }

  ghost predicate Taken(a: Alg, listed: set<Alg>, moribund: set<Alg>, larvals: set<Alg>, name: map<Alg, string>, driver: map<Alg, string>)
    requires a in name && a in driver && Known(listed, name, driver)
  {
    exists q :: q in listed && Clashes(a, q, moribund, larvals, name, driver)
  }

  /** Nobody on the list has a name of `a`, but for the generic one. */
  ghost predicate Unused(a: Alg, listed: set<Alg>, name: map<Alg, string>, driver: map<Alg, string>)
    requires a in name && a in driver && Known(listed, name, driver)
  {
    forall q :: q in listed ==> driver[q] != name[a] && driver[q] != driver[a] && name[q] != driver[a]
  }

  /** Every spawn on a users list points back to the algorithm. */
  ghost predicate PointBack(u: Users, inst: Insts, algOf: map<Spawn, Option<Alg>>) {
    algOf.Keys == inst.Keys && forall a, s :: a in u && s in u[a] ==> s in algOf && algOf[s] == Some(a)
  }

  class Registry {
    var users: Users
    var inst: Insts
    var algOf: map<Spawn, Option<Alg>>
    var dead: set<Alg>
    var dying: set<Alg>
    /** The place holders of algorithms that are being tested. */
    var larvals: set<Alg>
    /** Instances that are on the list of their template. */
    var hashed: set<Alg>
    /** Algorithms that are on crypto_alg_list. */
    var listed: set<Alg>
    var name: map<Alg, string>
    var driver: map<Alg, string>

    ghost predicate Linked()
      reads this
    {
      Graph(users, inst) && PointBack(users, inst, algOf)
    }

    ghost predicate Consistent()
      reads this
    {
      && Linked() && Acyclic(users, inst) && Apart(listed, dead + dying, larvals, name, driver)
      && larvals <= listed && larvals !! users.Keys
    }

    /** A dead algorithm has no users. */
    ghost predicate Valid()
      reads this
    {
      Consistent() && forall a :: a in users && a in dead ==> users[a] == []
    }

    constructor ()
      ensures Valid() && users == map[] && dead == {} && listed == {}
    {
      users, inst, algOf, dead, hashed, listed := map[], map[], map[], {}, {}, {};
      dying, larvals, name, driver := {}, {}, map[], map[];
      new;
      forall a ensures !Depends(users, inst, a, a) { }
    }

    /** An algorithm or instance that exists but is not registered yet. */
    method NewAlg(a: Alg, name': string, driver': string)
      requires Valid() && a !in users && a !in listed
      modifies this`users, this`name, this`driver
      ensures Valid() && users == old(users)[a := []] && name == old(name)[a := name'] && driver == old(driver)[a := driver']
    {
      hide Graph, Acyclic, Apart, PointBack;
      NewIsolated(users, inst, a);
      NewPointBack(users, inst, algOf, a);
      RenamedApart(listed, dead + dying, larvals, name, driver, a, name', driver');
      users, name, driver := users[a := []], name[a := name'], driver[a := driver'];
    }

    /** The comparison loop of __crypto_register_alg. */
    method IsTaken(a: Alg) returns (taken: bool)
      requires a in name && a in driver && Known(listed, name, driver)
      ensures taken <==> Taken(a, listed, dead + dying, larvals, name, driver)
    {
      var rest := listed;
      while rest != {}
        invariant rest <= listed
        invariant forall q :: q in listed && q !in rest ==> !Clashes(a, q, dead + dying, larvals, name, driver)
        decreases rest
      {
        var q :| q in rest;
        if q == a {
          return true;
        }
        rest := rest - {q};
        if q in dead || q in dying {
          continue;
        }
        if q in larvals {
          if driver[a] == driver[q] {
            return true;
          }
          continue;
        }
        if driver[q] == name[a] || name[q] == driver[a] {
          return true;
        }
      }
      return false;
    }

    /** The algorithm and its place holder, which has the same names, go on the list. */
    method Enlist(a: Alg, larval: Alg)
      requires Valid() && a in name && a in driver && larval !in listed && larval !in name && larval !in driver
      requires a in users && larval !in users
      requires Known(listed, name, driver) && !Taken(a, listed, dead + dying, larvals, name, driver)
      modifies this`listed, this`larvals, this`name, this`driver
      ensures Valid() && listed == old(listed) + {a, larval} && larvals == old(larvals) + {larval}
      ensures name == old(name)[larval := old(name)[a]] && driver == old(driver)[larval := old(driver)[a]]
    {
      hide Graph, Acyclic, Taken, Apart, Known, PointBack;
      StaysApart(listed, dead + dying, larvals, name, driver, a, larval);
      name, driver, larvals := name[larval := name[a]], driver[larval := driver[a]], larvals + {larval};
      listed := listed + {a, larval};
    }

    /**
     * __crypto_register_alg with the place holder `larval`; `instance` says that a template made the algorithm. The
     * users list is made empty before the name is looked at, so even a refused registration loses the users.
     */
    method RegisterAlg(a: Alg, larval: Alg, instance: bool, noMemory: bool, noModule: bool) returns (ret: int)
      requires Valid() && a in users && a in name && a in driver
      requires larval !in users && larval !in listed && larval !in name && larval !in driver
      modifies this`users, this`listed, this`hashed, this`larvals, this`name, this`driver
      ensures Valid() && users == if a in dead then old(users) else old(users)[a := []]
      ensures users == old(users) <==> a in dead || old(users)[a] == []
      ensures Known(old(listed), old(name), old(driver))
      ensures ret == if a in dead then -EAGAIN
                     else if Taken(a, old(listed), dead + dying, old(larvals), old(name), old(driver)) then -EEXIST
                     else if noMemory then -ENOMEM else if noModule then -ENOENT else 0
      ensures a !in old(listed) && Unused(a, old(listed), old(name), old(driver)) ==> ret != -EEXIST
      ensures listed == old(listed) + if ret == 0 then {a, larval} else {}
      ensures hashed == old(hashed) + if ret == 0 && instance then {a} else {}
      ensures ret == 0 ==>
                && larvals == old(larvals) + {larval}
                && name == old(name)[larval := old(name)[a]] && driver == old(driver)[larval := old(driver)[a]]
      ensures ret != 0 ==> larvals == old(larvals) && name == old(name) && driver == old(driver)
    {
      hide Graph, Acyclic, Taken, Apart, Known, PointBack, Unused;
      IsKnown(listed, dead + dying, larvals, name, driver);
      if a in dead {
        return -EAGAIN;
      }
      EmptiedOk(users, inst, algOf, a);
      users := users[a := []];
      UnusedIsFree(a, listed, dead + dying, larvals, name, driver);
      var taken := IsTaken(a);
      if taken {
        return -EEXIST;
      }
      if noMemory {
        return -ENOMEM;
      }
      if noModule {
        return -ENOENT;
      }
      Enlist(a, larval);
      if instance {
        hashed := hashed + {a};
      }
      return 0;
    }

    /** crypto_shoot_alg */
    method ShootAlg(a: Alg)
      requires Valid()
      modifies this`dying
      ensures Valid() && dying == old(dying) + {a}
    {
      hide Graph, Acyclic;
      FewerApart(listed, listed, dead + dying, dead + (dying + {a}), larvals, name, driver);
      dying := dying + {a};
    }

    /**
     * crypto_init_spawn: an instance asks for an algorithm. The registry stays in order exactly if the spawn is refused
     * or the algorithm is neither the instance itself nor built on it.
     */
    method InitSpawn(s: Spawn, alg: Alg, i: Alg) returns (err: int)
      requires Valid() && s !in inst && alg in users && i in users
      modifies this`users, this`inst, this`algOf
      ensures Linked() && inst == old(inst)[s := i]
      ensures Valid() <==> err != 0 || !Affected(old(users), old(inst), i, alg)
      ensures err == (if alg in dead || alg in dying then -EAGAIN else 0)
      ensures err != 0 ==> users == old(users) && algOf == old(algOf)[s := None]
      ensures err == 0 ==> users == old(users)[alg := [s] + old(users)[alg]] && algOf == old(algOf)[s := Some(alg)]
    {
      hide Graph, Apart, Affected, Acyclic, PointBack;
      ghost var inst0, algOf0 := inst, algOf;
      err := -EAGAIN;
      inst := inst[s := i];
      if !(alg in dead || alg in dying) {
        ghost var u := users;
        users := users[alg := [s] + users[alg]];
        algOf := algOf[s := Some(alg)];
        assert Added(u, users, inst0, inst, alg, s);
        hide Added;
        GraphAdd(u, users, inst0, inst, alg, s);
        AddPointBack(u, inst0, algOf0, alg, s, i);
        AcyclicIff(u, users, inst0, inst, alg, s);
        err := 0;
      } else {
        algOf := algOf[s := None];
        UnusedSpawn(users, inst0, s, i);
        UnusedPointBack(users, inst0, algOf0, s, i);
      }
    }

    /** crypto_drop_spawn: a spawn whose algorithm is gone is not on any list any more. */
    method DropSpawn(s: Spawn)
      requires Valid() && s in inst && (algOf[s].Some? ==> algOf[s].value in users && s in users[algOf[s].value])
      modifies this`users
      ensures Valid()
      ensures users == if algOf[s].None? then old(users)
                       else var a := algOf[s].value; old(users)[a := Without(old(users)[a], s)]
    {
      hide Depends, NoDup;
      if algOf[s].None? {
        return;
      }
      var a := algOf[s].value;
      ghost var u := users;
      users := users[a := Without(users[a], s)];
      AcyclicSub(u, users, inst);
    }

    /** crypto_remove_spawn on the instance `x`; `canGet` is the answer of crypto_tmpl_get. */
    method RemoveSpawn(x: Alg, canGet: bool, list: seq<Alg>) returns (list': seq<Alg>)
      requires x in users && users[x] == []
      modifies this`dead, this`hashed, this`listed
      ensures dead == old(dead) + {x}
      ensures var gone := x !in old(dead) && x in old(hashed) && canGet;
              && list' == (if gone then [x] + list else list)
              && hashed == old(hashed) - (if gone then {x} else {})
              && listed == old(listed) - (if gone then {x} else {})
    {
      list' := list;
      if x in dead {
        return;
      }
      dead := dead + {x};
      if x !in hashed {
        return;
      }
      if !canGet {
        return;
      }
      list' := [x] + list;
      listed := listed - {x};
      hashed := hashed - {x};
      // BUG_ON(!list_empty(&inst->alg.cra_users))
      assert users[x] == [];
    }

    /** The last loop of crypto_remove_spawns. */
    method KillOwners(done: seq<Spawn>, canGet: Alg -> bool, list0: seq<Alg>) returns (list: seq<Alg>, ghost fresh': seq<Alg>)
      requires forall s :: s in done ==> s in inst && inst[s] in users && users[inst[s]] == []
      modifies this`dead, this`hashed, this`listed
      ensures forall x :: x in dead <==> x in old(dead) || Owner(inst, done, x)
      ensures list == fresh' + list0 && NoDup(fresh')
      ensures forall x :: x in fresh' <==> Gone(inst, done, old(dead), old(hashed), canGet, x)
      ensures hashed == old(hashed) - Elems(fresh') && listed == old(listed) - Elems(fresh')
    {
      hide NoDup, Owner;
      OwnerNone(inst);
      list, fresh' := list0, [];
      NoDupEmpty<Spawn>();
      for i := 0 to |done|
        invariant forall x :: x in dead <==> x in old(dead) || Owner(inst, done[..i], x)
        invariant list == fresh' + list0 && NoDup(fresh')
        invariant forall x :: x in fresh' <==> Gone(inst, done[..i], old(dead), old(hashed), canGet, x)
        invariant hashed == old(hashed) - Elems(fresh') && listed == old(listed) - Elems(fresh')
      {
        var x := inst[done[i]];
        ghost var dead0, hashed0 := dead, hashed;
        OwnerStep(inst, done, i);
        list := RemoveSpawn(x, canGet(x), list);
        if x !in dead0 && x in hashed0 && canGet(x) {
          NoDupAppend(fresh', x);
          fresh' := [x] + fresh';
        }
      }
      assert done[..|done|] == done;
    }

    /** crypto_remove_spawns without a replacement: everything built on the algorithm dies, and nothing else. */
    method RemoveSpawns(alg: Alg, canGet: Alg -> bool, list0: seq<Alg>) returns (list: seq<Alg>, ghost fresh': seq<Alg>)
      requires Consistent() && alg in users && (forall a :: a in users && a in dead && a != alg ==> users[a] == [])
      modifies this`users, this`algOf, this`dead, this`hashed, this`listed
      ensures Valid() && inst == old(inst) && users.Keys == old(users).Keys
      ensures forall a :: a in users ==> users[a] == if Affected(old(users), inst, alg, a) then [] else old(users)[a]
      ensures forall x :: x in dead <==> x in old(dead) || Depends(old(users), inst, x, alg)
      ensures list == fresh' + list0 && NoDup(fresh')
      ensures forall x :: x in fresh' <==> Depends(old(users), inst, x, alg) && x !in old(dead) && x in old(hashed) && canGet(x)
      ensures hashed == old(hashed) - Elems(fresh') && listed == old(listed) - Elems(fresh')
    {
      hide Depends, NoDup, Walking, Apart, Graph, Acyclic, PointBack, Owner, Gone;
      OnceEach(users, inst, algOf, alg);
      var top := TakeUsers(users[alg]);
      Starts(users, inst, alg, top);
      var done;
      ghost var u0, dead0, algOf0 := users, dead, algOf;
      users, done, algOf := Traverse(users, inst, alg, top, algOf);
      WalkedOk(u0, users, inst, alg, done, algOf0, algOf);
      GoneAre(u0, inst, alg, done, dead, hashed, canGet);
      list, fresh' := KillOwners(done, canGet, list0);
      FewerApart(old(listed), listed, dead0 + dying, dead + dying, larvals, name, driver);
      LarvalsStay(u0, inst, alg, larvals, fresh');
    }

    /** crypto_remove_alg */
    method RemoveAlg(alg: Alg, canGet: Alg -> bool, list0: seq<Alg>) returns (ret: int, list: seq<Alg>, ghost taken: seq<Alg>)
      requires Valid() && alg in users
      modifies this`users, this`algOf, this`dead, this`hashed, this`listed
      ensures Valid() && inst == old(inst) && users.Keys == old(users).Keys
      ensures ret == if alg in old(listed) then 0 else -ENOENT
      ensures ret != 0 ==> users == old(users) && dead == old(dead) && list == list0 && hashed == old(hashed) && listed == old(listed)
      ensures ret == 0 ==> forall x :: x in dead <==> x in old(dead) || Affected(old(users), inst, alg, x)
      ensures ret == 0 ==> forall a :: a in users ==> users[a] == if a in dead then [] else old(users)[a]
      ensures ret == 0 ==> list == taken + list0 && NoDup(taken)
      ensures ret == 0 ==>
                forall x :: x in taken <==> Depends(old(users), inst, x, alg) && x !in old(dead) && x in old(hashed) && canGet(x)
      ensures ret == 0 ==> hashed == old(hashed) - Elems(taken) && listed == old(listed) - {alg} - Elems(taken)
    {
      hide Depends, Graph, NoDup, Apart;
      if alg !in listed {
        return -ENOENT, list0, [];
      }
      FewerApart(listed, listed - {alg}, dead + dying, dead + {alg} + dying, larvals, name, driver);
      assert !Depends(users, inst, alg, alg);
      dead := dead + {alg};
      listed := listed - {alg};
      list, taken := RemoveSpawns(alg, canGet, list0);
      ret := 0;
    }
  }

  /** Whoever leaves the list or is on the way out bothers nobody. */
  lemma FewerApart(listed: set<Alg>, listed': set<Alg>, moribund: set<Alg>, moribund': set<Alg>, larvals: set<Alg>, name: map<Alg, string>, driver: map<Alg, string>)
    requires Apart(listed, moribund, larvals, name, driver) && listed' <= listed && moribund <= moribund'
    ensures Apart(listed', moribund', larvals, name, driver)
  {
  }

  lemma OnceEach(u: Users, inst: Insts, algOf: map<Spawn, Option<Alg>>, a: Alg)
    requires Graph(u, inst) && Acyclic(u, inst) && PointBack(u, inst, algOf) && a in u
    ensures NoDup(u[a]) && !Depends(u, inst, a, a) && algOf.Keys == inst.Keys
  {
  }

  /** The registry after the walk. */
  lemma WalkedOk(u0: Users, u: Users, inst: Insts, alg: Alg, done: seq<Spawn>, algOf0: map<Spawn, Option<Alg>>, algOf: map<Spawn, Option<Alg>>)
    requires Graph(u0, inst) && Acyclic(u0, inst) && PointBack(u0, inst, algOf0)
    requires u.Keys == u0.Keys && forall a :: a in u0 ==> u[a] == if Affected(u0, inst, alg, a) then [] else u0[a]
    requires forall a, s :: a in u && s in u[a] ==> s !in done
    requires algOf.Keys == inst.Keys && forall s :: s in inst ==> algOf[s] == if s in done then None else algOf0[s]
    ensures Graph(u, inst) && Acyclic(u, inst) && PointBack(u, inst, algOf)
  {
    AcyclicSub(u0, u, inst);
    GraphRest(u0, u, inst);
    hide Graph, Acyclic, Affected;
  }

  lemma GoneAre(u: Users, inst: Insts, alg: Alg, done: seq<Spawn>, dead: set<Alg>, hashed: set<Alg>, canGet: Alg -> bool)
    requires forall x :: Owner(inst, done, x) <==> Depends(u, inst, x, alg)
    ensures forall x :: Gone(inst, done, dead, hashed, canGet, x) <==> Depends(u, inst, x, alg) && x !in dead && x in hashed && canGet(x)
  {
    hide Owner, Depends;
  }

  /** What dies is built on something, which a place holder is not. */
  lemma LarvalsStay(u: Users, inst: Insts, alg: Alg, larvals: set<Alg>, taken: seq<Alg>)
    requires Graph(u, inst) && larvals !! u.Keys && forall x :: x in taken ==> Depends(u, inst, x, alg)
    ensures larvals !! Elems(taken)
  {
    forall x | x in taken ensures x !in larvals {
      var p :| Chain(u, inst, alg, p) && inst[p[|p| - 1]] == x;
      var k := |p| - 1;
      assert k > 0 ==> p[k - 1 + 1] in u[inst[p[k - 1]]];
    }
  }

  lemma UnusedIsFree(a: Alg, listed: set<Alg>, moribund: set<Alg>, larvals: set<Alg>, name: map<Alg, string>, driver: map<Alg, string>)
    requires a in name && a in driver && Known(listed, name, driver)
    ensures a !in listed && Unused(a, listed, name, driver) ==> !Taken(a, listed, moribund, larvals, name, driver)
  {
  }

  lemma IsKnown(listed: set<Alg>, moribund: set<Alg>, larvals: set<Alg>, name: map<Alg, string>, driver: map<Alg, string>)
    requires Apart(listed, moribund, larvals, name, driver)
    ensures Known(listed, name, driver)
  {
  }

  lemma NewPointBack(u: Users, inst: Insts, algOf: map<Spawn, Option<Alg>>, a: Alg)
    requires PointBack(u, inst, algOf)
    ensures PointBack(u[a := []], inst, algOf)
  {
  }

  lemma AddPointBack(u: Users, inst: Insts, algOf: map<Spawn, Option<Alg>>, alg: Alg, s: Spawn, i: Alg)
    requires PointBack(u, inst, algOf) && alg in u && s !in inst
    ensures PointBack(u[alg := [s] + u[alg]], inst[s := i], algOf[s := Some(alg)])
  {
  }

  lemma UnusedPointBack(u: Users, inst: Insts, algOf: map<Spawn, Option<Alg>>, s: Spawn, i: Alg)
    requires PointBack(u, inst, algOf) && s !in inst
    ensures PointBack(u, inst[s := i], algOf[s := None])
  {
  }

  lemma RenamedApart(listed: set<Alg>, moribund: set<Alg>, larvals: set<Alg>, name: map<Alg, string>, driver: map<Alg, string>, a: Alg, n: string, d: string)
    requires Apart(listed, moribund, larvals, name, driver) && a !in listed
    ensures Apart(listed, moribund, larvals, name[a := n], driver[a := d])
  {
  }

  lemma StaysApart(listed: set<Alg>, moribund: set<Alg>, larvals: set<Alg>, name: map<Alg, string>, driver: map<Alg, string>, a: Alg, l: Alg)
    requires Apart(listed, moribund, larvals, name, driver) && a in name && a in driver && l !in listed && l !in name && l !in driver
    requires !Taken(a, listed, moribund, larvals, name, driver) && a !in larvals
    ensures Apart(listed + {a, l}, moribund, larvals + {l}, name[l := name[a]], driver[l := driver[a]])
  {
    var all, tested := listed + {a, l}, larvals + {l};
    var n, d := name[l := name[a]], driver[l := driver[a]];
    forall q, r | q in all * tested - moribund && r in all * tested - moribund && q != r ensures d[q] != d[r] {
      if q == l {
        assert !Clashes(a, r, moribund, larvals, name, driver);
      } else if r == l {
        assert !Clashes(a, q, moribund, larvals, name, driver);
      }
    }
    forall q, r | q in all - tested - moribund && r in all - tested - moribund && q != r ensures d[q] != n[r] {
      if q == a {
        assert !Clashes(a, r, moribund, larvals, name, driver);
      } else if r == a {
        assert !Clashes(a, q, moribund, larvals, name, driver);
      }
    }
  }

  /** Emptying lists keeps the graph in order. */
  lemma GraphRest(u: Users, v: Users, inst: Insts)
    requires Graph(u, inst) && v.Keys == u.Keys && forall a :: a in u ==> v[a] == [] || v[a] == u[a]
    ensures Graph(v, inst)
  {
    NoDupEmpty<Spawn>();
    hide NoDup;
  }

  lemma EmptiedOk(u: Users, inst: Insts, algOf: map<Spawn, Option<Alg>>, a: Alg)
    requires Graph(u, inst) && Acyclic(u, inst) && PointBack(u, inst, algOf) && a in u
    ensures Graph(u[a := []], inst) && Acyclic(u[a := []], inst) && PointBack(u[a := []], inst, algOf)
    ensures u[a := []] == u <==> u[a] == []
  {
    hide Acyclic, Graph;
    GraphRest(u, u[a := []], inst);
    AcyclicSub(u, u[a := []], inst);
    NewPointBack(u, inst, algOf, a);
  }

  lemma NewIsolated(u: Users, inst: Insts, a: Alg)
    requires Graph(u, inst) && Acyclic(u, inst) && a !in u
    ensures Graph(u[a := []], inst) && Acyclic(u[a := []], inst)
  {
    var v := u[a := []];
    forall b ensures !Depends(v, inst, b, b) {
      if Depends(v, inst, b, b) { NewNotOnCycle(u, inst, a, b); }
    }
  }

  lemma NewNotOnCycle(u: Users, inst: Insts, a: Alg, b: Alg)
    requires Graph(u, inst) && a !in u && Depends(u[a := []], inst, b, b)
    ensures Depends(u, inst, b, b)
  {
    var v := u[a := []];
    var p :| Chain(v, inst, b, p) && inst[p[|p| - 1]] == b;
    assert v[a] == [];
    forall i | 0 <= i < |p| - 1 ensures inst[p[i]] in u && p[i + 1] in u[inst[p[i]]] {
      assert p[i + 1] in v[inst[p[i]]];
    }
    assert Chain(u, inst, b, p);
  }

  /** A spawn that is on no list changes nothing. */
  lemma UnusedSpawn(u: Users, inst: Insts, s: Spawn, i: Alg)
    requires Graph(u, inst) && Acyclic(u, inst) && s !in inst
    ensures Graph(u, inst[s := i]) && Acyclic(u, inst[s := i])
  {
    var inst' := inst[s := i];
    forall a ensures !Depends(u, inst', a, a) {
      if Depends(u, inst', a, a) { UnusedNotOnCycle(u, inst, s, i, a); }
    }
  }

  lemma UnusedNotOnCycle(u: Users, inst: Insts, s: Spawn, i: Alg, a: Alg)
    requires Graph(u, inst) && s !in inst && Depends(u, inst[s := i], a, a)
    ensures Depends(u, inst, a, a)
  {
    var inst' := inst[s := i];
    var p :| Chain(u, inst', a, p) && inst'[p[|p| - 1]] == a;
    forall k | 0 <= k < |p| ensures p[k] != s && p[k] in inst {
      if k == 0 { assert p[0] in u[a]; } else { assert p[k - 1 + 1] in u[inst'[p[k - 1]]]; }
    }
    forall k | 0 <= k < |p| - 1 ensures inst[p[k]] in u && p[k + 1] in u[inst[p[k]]] {
      assert inst'[p[k]] == inst[p[k]];
    }
    assert Chain(u, inst, a, p);
  }
}
