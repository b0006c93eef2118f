/** The alias operations as the programs they are, proved to do to the world what
    `AliasCatalog` says. */
module AliasProgram {
  import opened Store
  import opened AliasCatalog

  class AliasStore {
    const single: bool
    var collections: set<string>
    var physical: set<string>
    var entries: map<string, nat>
    var durable: Aliases
    var cache: Option<Aliases>
    var loaded: bool

    ghost function State(): (w: World)
      reads this
    {
      World(single, collections, physical, entries, durable, cache)
    }

    ghost predicate Valid()
      reads this
    {
      (loaded <==> cache.Some?) && Rep(State())
    }

    /** A store just opened over what is stored. */
    constructor (w: World)
      requires WellNamed(w.durable)
      ensures Valid() && State() == w.(cache := None)
    {
      single, collections, physical, entries := w.single, w.collections, w.physical, w.entries;
      durable, cache, loaded := w.durable, None, false;
    }

    /** `ensureAliasesLoaded`: runs once; a failed read leaves an empty cache. */
    method EnsureLoaded(readOk: bool)
      requires loaded <==> cache.Some?
      modifies this`cache, this`loaded
      ensures loaded && cache.Some?
      ensures old(loaded) ==> cache == old(cache)
      ensures !old(loaded) ==> cache == Some(if readOk then durable else map[])
      ensures !old(loaded) ==> (Synced(State()) <==> readOk || durable == map[])
    {
      if loaded { return; }
      var m: Aliases := map[];
      if readOk { m := durable; }
      if cache.None? { cache := Some(m); }
      loaded := true;
    }

    /** `SetAliases`: the whole batch, then one durable put; a failed put rolls the
        cache back. */
    method SetAliases(actions: seq<Action>, readOk: bool, putOk: bool) returns (ok: bool)
      requires loaded <==> cache.Some?
      modifies this`durable, this`cache, this`loaded
      ensures ok == putOk && loaded && cache.Some?
      ensures var start := if old(loaded) then old(cache).value else if readOk then old(durable) else map[];
        && (ok ==> cache.value == durable == Apply(start, actions))
        && (!ok ==> cache.value == start && durable == old(durable))
    {
      EnsureLoaded(readOk);
      var prev := cache.value;
      var m := prev;
      for i := 0 to |actions|
        invariant m == Apply(prev, actions[..i])
        invariant unchanged(`durable)
        invariant cache == Some(prev) && loaded
      {
        assert actions[..i + 1][..i] == actions[..i];
        var alias := Canonical(actions[i].alias);
        if actions[i].remove {
          m := m - {alias};
        } else {
          m := m[alias := Canonical(actions[i].target)];
        }
      }
      assert actions[..|actions|] == actions;
      cache := Some(m);
      if !putOk {
        cache := Some(prev);
        return false;
      }
      durable := m;
      ok := true;
    }

    /** `resolveAlias`: a physical name is its own; otherwise one lookup. */
    method ResolveAlias(name: string, readOk: bool) returns (r: string)
      requires Valid()
      modifies this`cache, this`loaded
      ensures Valid() && State() == After(old(State()), Lookup(name, readOk))
      ensures r == Resolve(Known(old(State()), readOk), name)
      ensures Reserved(name) ==> r == name
      ensures old(Safe(State())) && (old(cache).Some? || readOk) ==>
        if Canonical(name) in durable then r in collections && r == durable[Canonical(name)] else r == name
    {
      AfterRep(State(), Lookup(name, readOk));
      CanonicalReserved(name);
      if Reserved(name) { return name; }
      EnsureLoaded(readOk);
      r := if Canonical(name) in cache.value then cache.value[Canonical(name)] else name;
    }

    predicate CollectionExists(name: string)
      reads this
      ensures CollectionExists(name) <==> Exists(State(), name)
    {
      || (Canonical(name) in entries && (single || entries[Canonical(name)] > 1))
      || Canonical(name) in collections || Canonical(name) in physical
    }

    /** The checks of `AliasBatch`, up to the first objection.  The aliases are loaded when
        the first check needs them. */
    method CheckBatch(actions: seq<Action>, readOk: bool) returns (p: Option<Problem>)
      requires loaded <==> cache.Some?
      modifies this`cache, this`loaded
      ensures loaded <==> cache.Some?
      ensures var w, m := old(State()), Known(old(State()), readOk);
        && State() == (if Consults(w, m, actions) then w.(cache := Some(m)) else w)
        && (p == None <==> Accepted(w, m, actions))
        && (p.Some? ==> exists i :: 0 <= i < |actions| && Objection(w, m, actions[i]) == p && Accepted(w, m, actions[..i]))
    {
      ghost var w, m := State(), Known(State(), readOk);
      hide Accepted, Consults, Canonical, Reserved;
      NothingChecked(w, m, actions);
      for i := 0 to |actions|
        invariant loaded <==> cache.Some?
        invariant State() == if Consults(w, m, actions[..i]) then w.(cache := Some(m)) else w
        invariant Accepted(w, m, actions[..i])
      {
        var a := actions[i];
        CheckedNext(w, m, actions, i);
        p := None;
        if !a.remove {
          if Reserved(a.alias) {
            p := Some(ReservedChar);
          } else if CollectionExists(a.alias) {
            p := Some(ShadowsCollection);
          } else {
            EnsureLoaded(readOk);
            if Canonical(a.target) in cache.value {
              p := Some(TargetIsAlias);
            } else if !CollectionExists(a.target) {
              p := Some(TargetMissing);
            }
          }
        }
        assert p == Objection(w, m, a);
        if p.Some? {
          Rejected(w, m, actions, i);
          return;
        }
      }
      assert actions[..|actions|] == actions;
      p := None;
    }

    /** `AliasBatch`: all or nothing. */
    method AliasBatch(actions: seq<Action>, readOk: bool, putOk: bool) returns (r: Outcome)
      requires Valid()
      modifies this`durable, this`cache, this`loaded
      ensures Valid()
      ensures State() == After(old(State()), Batch(actions, readOk, putOk))
      ensures var w, m := old(State()), Known(old(State()), readOk);
        && (r == Done <==> putOk && Accepted(w, m, actions))
        && (r.Failed? && r.problem != NotDurable ==>
              exists i :: 0 <= i < |actions| && Objection(w, m, actions[i]) == Some(r.problem) && Accepted(w, m, actions[..i]))
    {
      ghost var w, m := State(), Known(State(), readOk);
      AfterRep(w, Batch(actions, readOk, putOk));
      hide Accepted, Consults, Canonical, Reserved, Apply, Objection, Rep;
      var p := CheckBatch(actions, readOk);
      if p.Some? { return Failed(p.value); }
      var ok := SetAliases(actions, readOk, putOk);
      r := if ok then Done else Failed(NotDurable);
    }

    /** `CreateCollection`'s name checks and the create itself. */
    method CreateCollection(name: string, parts: nat, made: set<string>, readOk: bool, callOk: bool, rolledBack: bool)
      returns (r: Outcome)
      requires Valid()
      modifies this`collections, this`physical, this`entries, this`cache, this`loaded
      ensures Valid()
      ensures State() == After(old(State()), Create(name, parts, made, readOk, callOk, rolledBack))
      ensures r == Done <==> MayCreate(old(State()), Known(old(State()), readOk), name) && callOk
      ensures r == Done ==> Canonical(name) in collections
      ensures r == Done ==> entries == if parts > 1 then old(entries)[Canonical(name) := parts] else old(entries)
      ensures old(Good(State())) && r == Done ==>
        (Canonical(name) in durable <==> Canonical(name) in old(durable) && old(cache).None? && !readOk)
    {
      AfterRep(State(), Create(name, parts, made, readOk, callOk, rolledBack));
      hide Canonical, Reserved, PartitionNames, Canonicalized, Proper;
      if Reserved(name) { return Failed(ReservedChar); }
      EnsureLoaded(readOk);
      var c := Canonical(name);
      if c in cache.value { return Failed(ShadowsCollection); }
      if c in entries && (single || entries[c] > 1) { return Failed(AlreadyExists); }
      if c in collections { return Failed(AlreadyExists); }
      if !callOk && rolledBack { return Failed(CallFailed); }
      collections, physical := collections + {c}, physical + PartitionNames(made);
      if !callOk { return Failed(CallFailed); }
      if parts > 1 { entries := entries[c := parts]; }
      r := Done;
    }

    /** `cleanupAliasesFor`: every alias of a dropped collection, in one batch.
        A failed put leaves them all. */
    method CleanupAliasesFor(name: string, readOk: bool, putOk: bool)
      requires Valid()
      modifies this`durable, this`cache, this`loaded
      ensures Valid()
      ensures State() == Cascaded(old(State()), Canonical(name), readOk, putOk)
      ensures old(Synced(State())) && (old(cache).Some? || readOk) ==>
        durable == if putOk then old(durable) - Targeting(old(durable), Canonical(name)) else old(durable)
    {
      EnsureLoaded(readOk);
      var m := cache.value;
      var deletes := DeletesFor(m, Canonical(name));
      ApplyRemovals(m, deletes);
      if deletes != [] {
        NamesNonEmpty(deletes);
        var _ := SetAliases(deletes, readOk, putOk);
      } else {
        assert Targeting(m, Canonical(name)) == {};
        assert m - Targeting(m, Canonical(name)) == m;
      }
    }

    /** A drop, of the collection and its partitions, and its cascade.  After a drop
        that got all the way every alias still leads somewhere exactly when the cascade
        was durable or there was nothing to cascade, and no alias led to one of the
        partitions. */
    method DropCollection(name: string, gone: set<string>, calls: DropCalls, readOk: bool, putOk: bool) returns (r: Outcome)
      requires Valid()
      modifies this
      ensures Valid()
      ensures State() == After(old(State()), Drop(name, gone, calls, readOk, putOk))
      ensures r == Done <==> calls == Completed
      ensures old(Good(State())) && r == Done && (old(cache).Some? || readOk) ==>
        (Sound(State()) <==>
           && (putOk || Targeting(old(durable), Canonical(name)) == {})
           && (forall a :: a in old(durable) ==> old(durable)[a] !in Removed(old(State()), Canonical(name), gone)))
    {
      ghost var w := State();
      if Good(w) && (cache.Some? || readOk) { DropSoundIff(w, name, gone, readOk, putOk); }
      hide Canonical, Reserved, Targeting, Good, Sound, Dropped, Rep;
      DropPartitions(Canonical(name), gone, calls);
      if calls != Completed { return Failed(CallFailed); }
      CleanupAliasesFor(name, readOk, putOk);
      r := Done;
    }

    /** `fanoutDrop`, or the one call that drops an unpartitioned collection. */
    method DropPartitions(c: string, gone: set<string>, calls: DropCalls)
      modifies this`collections, this`physical, this`entries
      ensures State() == Dropped(old(State()), c, gone, calls)
    {
      hide Reserved, PartitionNames;
      var partitioned := c in entries && entries[c] > 1;
      assert physical - {} == physical;
      if partitioned { physical := physical - (PartitionNames(gone) - {c}); }
      if calls == InPartitions || (calls == EntryStays && !partitioned) { return; }
      collections := collections - {c};
      if calls == EntryStays { return; }
      physical := physical - {c};
      if partitioned { entries := entries[c := 1]; }
    }
  }

  lemma NamesNonEmpty(actions: seq<Action>)
    requires actions != []
    ensures Names(actions) != {}
  {
    assert Canonical(actions[|actions| - 1].alias) in Names(actions);
  }

  lemma DropSoundIff(w: World, name: string, gone: set<string>, readOk: bool, putOk: bool)
    requires Good(w) && (w.cache.Some? || readOk)
    ensures Sound(AfterDrop(w, name, gone, Completed, readOk, putOk)) <==>
      && (putOk || Targeting(w.durable, Canonical(name)) == {})
      && (forall a :: a in w.durable ==> w.durable[a] !in Removed(w, Canonical(name), gone))
  {
    var c := Canonical(name);
    var w', t, g := AfterDrop(w, name, gone, Completed, readOk, putOk), Targeting(w.durable, c), Removed(w, c, gone);
    TargetingIs(w.durable, c);
    RemovedPhysical(w, c, gone);
    hide Canonical, Reserved, Targeting, Removed, Rep;
    if a :| a in w.durable && w.durable[a] in g {
      assert a in w'.durable && w'.durable[a] == w.durable[a];
    }
    if !putOk {
      if a :| a in t { assert a in w'.durable && w'.durable[a] == c; }
    }
  }

  lemma NothingChecked(w: World, m: Aliases, actions: seq<Action>)
    ensures Accepted(w, m, actions[..0]) && !Consults(w, m, actions[..0])
  {}

  lemma {:induction false} CheckedNext(w: World, m: Aliases, actions: seq<Action>, i: nat)
    requires i < |actions| && Accepted(w, m, actions[..i])
    ensures Accepted(w, m, actions[..i + 1]) <==> Objection(w, m, actions[i]) == None
    ensures Consults(w, m, actions[..i + 1]) <==> Consults(w, m, actions[..i]) || Asks(w, actions[i])
  {
    hide Objection, Asks;
    var next, front := actions[..i + 1], actions[..i];
    assert next == front + [actions[i]];
    assert next[..i] == front;
    if Accepted(w, m, next) { assert next[i] == actions[i]; }
    if j :| 0 <= j < i && Accepted(w, m, front[..j]) && Asks(w, front[j]) {
      assert next[..j] == front[..j];
    }
    if Asks(w, actions[i]) { assert Asks(w, next[i]); }
    if j :| 0 <= j < |next| && Accepted(w, m, next[..j]) && Asks(w, next[j]) {
      if j < i { assert front[..j] == next[..j]; }
    }
  }

  /** The first objection ends the batch. */
  lemma {:induction false} Rejected(w: World, m: Aliases, actions: seq<Action>, i: nat)
    requires i < |actions| && Accepted(w, m, actions[..i]) && Objection(w, m, actions[i]).Some?
    ensures !Accepted(w, m, actions) && (Consults(w, m, actions) <==> Consults(w, m, actions[..i + 1]))
  {
    hide Objection, Asks;
    var next := actions[..i + 1];
    if k :| 0 <= k < |actions| && Accepted(w, m, actions[..k]) && Asks(w, actions[k]) {
      assert k <= i;
      assert next[..k] == actions[..k];
    }
    if k :| 0 <= k < |next| && Accepted(w, m, next[..k]) && Asks(w, next[k]) {
      assert next[..k] == actions[..k];
    }
  }

  /** A first read that fails leaves an empty cache, which the next write stores over
      the durable map: whatever was stored is lost, and only that write is left. */
  method LostByFailedLoad(w: World, actions: seq<Action>) returns (s: AliasStore)
    requires WellNamed(w.durable)
    ensures fresh(s) && s.durable == Apply(map[], actions)
  {
    s := new AliasStore(w);
    var _ := s.SetAliases(actions, false, true);
  }
}
