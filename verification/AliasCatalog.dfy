/** Collection aliases: a write-through cache over one durable map, the validations
    around it, and the cascade when a collection is dropped, as what each operation does
    to the world; and exactly when aliases stay sound. */
module AliasCatalog {
  import opened Store

  type Aliases = map<string, string>

  datatype Action = Action(alias: string, target: string, remove: bool)

  datatype Problem = ReservedChar | ShadowsCollection | TargetIsAlias | TargetMissing | AlreadyExists | CallFailed | NotDurable
  datatype Outcome = Done | Failed(problem: Problem)

  // ---------- names ----------

  /** `CanonicalName`: a bare name belongs to the default namespace. */
  function Canonical(name: string): (r: string)
  {
    if name == "" || '/' in name then name else "default/" + name
  }

  lemma CanonicalTwice(name: string)
    ensures Canonical(Canonical(name)) == Canonical(name)
  {
    assert "default/"[7] == '/';
    assert '/' in "default/" + name;
  }

  /** Physical partition and generation names. */
  predicate Reserved(name: string)
  {
    '#' in name || '@' in name
  }

  // ---------- batches ----------

  function ApplyOne(m: Aliases, a: Action): (m': Aliases)
  {
    if a.remove then m - {Canonical(a.alias)} else m[Canonical(a.alias) := Canonical(a.target)]
  }

  function Apply(m: Aliases, actions: seq<Action>): (m': Aliases)
  {
    if actions == [] then m else ApplyOne(Apply(m, actions[..|actions| - 1]), actions[|actions| - 1])
  }

  /** The last word of a batch on an alias, if it is not a removal. */
  predicate Effective(actions: seq<Action>, i: nat)
    requires i < |actions|
  {
    && !actions[i].remove
    && forall j :: i < j < |actions| ==> Canonical(actions[j].alias) != Canonical(actions[i].alias)
  }

  /** What a batch leaves under an alias is its last word on it, or what was there. */
  lemma {:induction false} ApplyFrom(m: Aliases, actions: seq<Action>, a: string)
    requires a in Apply(m, actions)
    ensures || (exists i :: 0 <= i < |actions| && Effective(actions, i) && Canonical(actions[i].alias) == a &&
                            Apply(m, actions)[a] == Canonical(actions[i].target))
            || (a in m && Apply(m, actions)[a] == m[a])
  {
    hide Canonical;
    if actions != [] {
      var n := |actions| - 1;
      var front := actions[..n];
      if Canonical(actions[n].alias) == a {
        assert Effective(actions, n);
      } else {
        ApplyFrom(m, front, a);
        if !(a in m && Apply(m, front)[a] == m[a]) {
          var i :| 0 <= i < n && Effective(front, i) && Canonical(front[i].alias) == a &&
                   Apply(m, front)[a] == Canonical(front[i].target);
          EffectiveFront(actions, i);
        }
      }
    }
  }

  lemma EffectiveFront(actions: seq<Action>, i: nat)
    requires i < |actions| - 1 && Effective(actions[..|actions| - 1], i)
    requires Canonical(actions[|actions| - 1].alias) != Canonical(actions[i].alias)
    ensures Effective(actions, i)
  {
    var front := actions[..|actions| - 1];
    forall j | i < j < |actions| ensures Canonical(actions[j].alias) != Canonical(actions[i].alias) {
      if j < |front| { assert front[j] == actions[j]; }
    }
  }

  lemma {:induction false} ApplyHas(m: Aliases, actions: seq<Action>, i: nat)
    requires i < |actions| && Effective(actions, i)
    ensures var a := Canonical(actions[i].alias); a in Apply(m, actions) && Apply(m, actions)[a] == Canonical(actions[i].target)
  {
    if i < |actions| - 1 { ApplyHas(m, actions[..|actions| - 1], i); }
  }

  // ---------- what exists ----------

  /** `collections` and `physical` are the collections and partitions the engine holds,
      `entries` the partition counts in the catalog, `durable` the stored aliases and
      `cache` the ones in memory, once they have been loaded.  `single` tells a
      single-node catalog from a clustered one. */
  datatype World = World(single: bool, collections: set<string>, physical: set<string>, entries: map<string, nat>,
                         durable: Aliases, cache: Option<Aliases>)

  const EMPTY: map<string, nat> := map[]

  function Start(single: bool): (w: World) { World(single, {}, {}, EMPTY, map[], None) }

  predicate IsPartitioned(w: World, c: string) { c in w.entries && w.entries[c] > 1 }

  /** `PartitionsGen`: a clustered catalog reads a count of one as no entry, a
      single-node one does not. */
  predicate HasEntry(w: World, c: string) { c in w.entries && (w.single || w.entries[c] > 1) }

  /** `collectionExists`: a catalog entry, or a configuration probe that succeeds.  The
      probe succeeds on a physical partition too. */
  predicate Exists(w: World, name: string)
  {
    HasEntry(w, Canonical(name)) || Canonical(name) in w.collections || Canonical(name) in w.physical
  }

  /** A catalog entry that has outlived its collection. */
  predicate Stale(w: World, c: string) { HasEntry(w, c) && c !in w.collections }

  /** The aliases an operation works with: loaded once, and none if the read fails. */
  function Known(w: World, readOk: bool): (m: Aliases)
  {
    if w.cache.Some? then w.cache.value else if readOk then w.durable else map[]
  }

  /** Partitions have reserved names; collections and catalog entries do not. */
  ghost predicate Proper(w: World)
  {
    && (forall c :: c in w.collections || c in w.entries ==> !Reserved(c))
    && (forall ph :: ph in w.physical ==> Reserved(ph))
  }

  /** The first objection to an action, in the order the checks are made.  Only the
      alias is checked for reserved characters, not the target. */
  function Objection(w: World, m: Aliases, a: Action): (p: Option<Problem>)
  {
    if a.remove then None
    else if Reserved(a.alias) then Some(ReservedChar)
    else if Exists(w, a.alias) then Some(ShadowsCollection)
    else if Canonical(a.target) in m then Some(TargetIsAlias)
    else if !Exists(w, a.target) then Some(TargetMissing)
    else None
  }

  predicate Accepted(w: World, m: Aliases, actions: seq<Action>)
  {
    forall i :: 0 <= i < |actions| ==> Objection(w, m, actions[i]) == None
  }

  ghost predicate Canonicalized(m: Aliases)
  {
    forall a :: a in m ==> Canonical(a) == a && Canonical(m[a]) == m[a]
  }

  /** No alias has the name of a collection, and every alias leads to something. */
  ghost predicate Sound(w: World)
  {
    forall a :: a in w.durable ==> a !in w.collections && (w.durable[a] in w.collections || w.durable[a] in w.physical)
  }

  /** No alias leads to a physical partition. */
  ghost predicate Plain(m: Aliases) { forall a :: a in m ==> !Reserved(m[a]) }

  /** The cache, once there is one, is the durable map. */
  predicate Synced(w: World) { w.cache.Some? ==> w.cache.value == w.durable }

  /** An alias map as batches leave it: canonical names, and no alias that looks like a
      partition. */
  ghost predicate WellNamed(m: Aliases)
  {
    Canonicalized(m) && forall a :: a in m ==> !Reserved(a)
  }

  ghost predicate Rep(w: World) { WellNamed(w.durable) && (w.cache.Some? ==> WellNamed(w.cache.value)) }

  ghost predicate Good(w: World) { Proper(w) && Rep(w) && Synced(w) && Sound(w) }

  /** Good, and bound to stay so. */
  ghost predicate Safe(w: World) { Good(w) && Plain(w.durable) }

  /** `resolveAlias`. */
  function Resolve(m: Aliases, name: string): (r: string)
  {
    if Reserved(name) then name
    else if Canonical(name) in m then m[Canonical(name)]
    else name
  }

  /** One lookup is enough: resolving again changes nothing. */
  lemma ResolveTwice(w: World, name: string)
    requires Good(w)
    ensures Resolve(w.durable, Resolve(w.durable, name)) == Resolve(w.durable, name)
    ensures Resolve(w.durable, name) == name || Exists(w, Resolve(w.durable, name))
  {}

  lemma CanonicalReserved(name: string)
    ensures Reserved(Canonical(name)) <==> Reserved(name)
  {
    if Canonical(name) != name {
      assert forall c :: c in "default/" + name <==> c in "default/" || c in name;
      assert '#' !in "default/" && '@' !in "default/";
    }
  }

  lemma {:induction false} ApplyCanonical(m: Aliases, actions: seq<Action>)
    requires Canonicalized(m)
    ensures Canonicalized(Apply(m, actions))
  {
    if actions != [] {
      ApplyCanonical(m, actions[..|actions| - 1]);
      CanonicalTwice(actions[|actions| - 1].alias);
      CanonicalTwice(actions[|actions| - 1].target);
    }
  }

  function Names(actions: seq<Action>): (r: set<string>)
  {
    if actions == [] then {} else Names(actions[..|actions| - 1]) + {Canonical(actions[|actions| - 1].alias)}
  }

  lemma {:induction false} ApplyRemovals(m: Aliases, actions: seq<Action>)
    requires forall i :: 0 <= i < |actions| ==> actions[i].remove
    ensures Apply(m, actions) == m - Names(actions)
  {
    if actions != [] { ApplyRemovals(m, actions[..|actions| - 1]); }
  }

  function Targeting(m: Aliases, target: string): (r: set<string>)
  {
    set a | a in m && m[a] == target
  }

  /** One removal for each alias of `target`, in whatever order the map is walked. */
  method DeletesFor(m: Aliases, target: string) returns (deletes: seq<Action>)
    requires Canonicalized(m)
    ensures forall i :: 0 <= i < |deletes| ==> deletes[i].remove
    ensures Names(deletes) == Targeting(m, target)
  {
    deletes := [];
    NoNames();
    var left := m.Keys;
    ghost var wanted := Targeting(m, target);
    TargetingIs(m, target);
    hide Names, Canonical, Targeting;
    while left != {}
      invariant left <= m.Keys
      invariant forall i :: 0 <= i < |deletes| ==> deletes[i].remove
      invariant Names(deletes) == wanted - left
      decreases |left|
    {
      var a :| a in left;
      Widen(wanted, left, a);
      if m[a] == target {
        NamesSnoc(deletes, Action(a, "", true));
        deletes := deletes + [Action(a, "", true)];
      }
      left := left - {a};
    }
  }

  lemma Widen(wanted: set<string>, left: set<string>, a: string)
    requires a in left
    ensures wanted - (left - {a}) == (wanted - left) + if a in wanted then {a} else {}
  {}

  lemma NoNames()
    ensures Names([]) == {}
  {}

  lemma NamesSnoc(actions: seq<Action>, a: Action)
    ensures Names(actions + [a]) == Names(actions) + {Canonical(a.alias)}
  {
    assert (actions + [a])[..|actions|] == actions;
  }

  // ---------- every sequence of operations ----------

  /** How far the calls of a drop get: not past the partitions, past the collection but
      not the catalog entry, or all the way. */
  datatype DropCalls = InPartitions | EntryStays | Completed

  /** The flags say whether the reads, puts and calls an operation makes succeed; `made`
      and `gone` are the physical partitions it creates and removes.  A reshard is a
      `Repartition`, whose partition counts stay above one. */
  datatype Event =
    | Reopen
    | Lookup(name: string, readOk: bool)
    | Batch(actions: seq<Action>, readOk: bool, putOk: bool)
    | Create(name: string, parts: nat, made: set<string>, readOk: bool, callOk: bool, rolledBack: bool)
    | Drop(name: string, gone: set<string>, calls: DropCalls, readOk: bool, putOk: bool)
    | Repartition(made: set<string>, gone: set<string>)

  function PartitionNames(names: set<string>): (r: set<string>) { set n | n in names && Reserved(n) }

  /** The checks of this action get as far as the aliases. */
  predicate Asks(w: World, a: Action) { !a.remove && !Reserved(a.alias) && !Exists(w, a.alias) }

  /** Some check of the batch looks at the aliases. */
  predicate Consults(w: World, m: Aliases, actions: seq<Action>)
  {
    exists i :: 0 <= i < |actions| && Accepted(w, m, actions[..i]) && Asks(w, actions[i])
  }

  function AfterBatch(w: World, actions: seq<Action>, readOk: bool, putOk: bool): (w': World)
  {
    var m := Known(w, readOk);
    if !Accepted(w, m, actions) then (if Consults(w, m, actions) then w.(cache := Some(m)) else w)
    else if !putOk then w.(cache := Some(m))
    else w.(durable := Apply(m, actions), cache := Some(Apply(m, actions)))
  }

  predicate MayCreate(w: World, m: Aliases, name: string)
  {
    var c := Canonical(name);
    !Reserved(name) && c !in m && !HasEntry(w, c) && c !in w.collections
  }

  /** A create that fails half-way is rolled back, or leaves what it made. */
  function AfterCreate(w: World, name: string, parts: nat, made: set<string>, readOk: bool, callOk: bool, rolledBack: bool): (w': World)
  {
    if Reserved(name) then w else
    var c, w1 := Canonical(name), w.(cache := Some(Known(w, readOk)));
    if !MayCreate(w, Known(w, readOk), name) || (!callOk && rolledBack) then w1
    else w1.(collections := w.collections + {c}, physical := w.physical + PartitionNames(made),
             entries := if callOk && parts > 1 then w.entries[c := parts] else w.entries)
  }

  /** `cleanupAliasesFor`. */
  function Cascaded(w: World, c: string, readOk: bool, putOk: bool): (w': World)
  {
    var m := Known(w, readOk);
    if !putOk || Targeting(m, c) == {} then w.(cache := Some(m))
    else w.(durable := m - Targeting(m, c), cache := Some(m - Targeting(m, c)))
  }

  /** The partitions a drop removes. */
  function Removed(w: World, c: string, gone: set<string>): (r: set<string>)
  {
    if IsPartitioned(w, c) then PartitionNames(gone) - {c} else {}
  }

  /** What the calls of a drop do.  The entry of a dropped partitioned collection is set
      to one partition. */
  function Dropped(w: World, c: string, gone: set<string>, calls: DropCalls): (w': World)
  {
    var w1 := w.(physical := w.physical - Removed(w, c, gone));
    if calls == InPartitions || (calls == EntryStays && !IsPartitioned(w, c)) then w1
    else if calls == EntryStays then w1.(collections := w.collections - {c})
    else w1.(collections := w.collections - {c}, physical := w1.physical - {c},
             entries := if IsPartitioned(w, c) then w.entries[c := 1] else w.entries)
  }

  function AfterDrop(w: World, name: string, gone: set<string>, calls: DropCalls, readOk: bool, putOk: bool): (w': World)
  {
    var w1 := Dropped(w, Canonical(name), gone, calls);
    if calls == Completed then Cascaded(w1, Canonical(name), readOk, putOk) else w1
  }

  function After(w: World, ev: Event): (w': World)
  {
    match ev
    case Reopen => w.(cache := None)
    case Lookup(name, readOk) => if Reserved(name) then w else w.(cache := Some(Known(w, readOk)))
    case Batch(actions, readOk, putOk) => AfterBatch(w, actions, readOk, putOk)
    case Create(name, parts, made, readOk, callOk, rolledBack) => AfterCreate(w, name, parts, made, readOk, callOk, rolledBack)
    case Drop(name, gone, calls, readOk, putOk) => AfterDrop(w, name, gone, calls, readOk, putOk)
    case Repartition(made, gone) => w.(physical := w.physical + PartitionNames(made) - gone)
  }

  function AfterAll(w: World, events: seq<Event>): (w': World)
  {
    if events == [] then w else After(AfterAll(w, events[..|events| - 1]), events[|events| - 1])
  }

  // ---------- when aliases stay sound ----------

  /** The event loads the aliases, if it does, as they are stored. */
  predicate Reads(w: World, ev: Event)
  {
    w.cache.Some? || w.durable == map[] ||
    match ev
    case Lookup(_, readOk) => readOk
    case Batch(_, readOk, _) => readOk
    case Create(_, _, _, readOk, _, _) => readOk
    case Drop(_, _, _, readOk, _) => readOk
    case _ => true
  }

  /** The last word of the batch on every alias leads to a collection: not to a physical
      partition, and not to a name whose entry has outlived its collection. */
  predicate GoodTargets(w: World, actions: seq<Action>)
  {
    forall i :: 0 <= i < |actions| && Effective(actions, i) ==>
      !Reserved(actions[i].target) && !Stale(w, Canonical(actions[i].target))
  }

  /** An accepted batch has good targets; a drop gets past its cascade, or has nothing
      to cascade. */
  predicate Clean(w: World, ev: Event)
  {
    match ev
    case Batch(actions, _, putOk) => putOk && Accepted(w, w.durable, actions) ==> GoodTargets(w, actions)
    case Drop(name, _, calls, _, putOk) =>
      var c := Canonical(name);
      && (calls == Completed ==> putOk || Targeting(w.durable, c) == {})
      && (calls == EntryStays && IsPartitioned(w, c) ==> Targeting(w.durable, c) == {})
    case _ => true
  }

  lemma AfterProper(w: World, ev: Event)
    requires Proper(w)
    ensures Proper(After(w, ev))
  {
    hide Canonical, Reserved, Apply, Targeting, Consults, Accepted;
    if ev.Create? { CanonicalReserved(ev.name); }
  }

  /** The calls of a drop do not touch the aliases. */
  lemma DroppedAliases(w: World, c: string, gone: set<string>, calls: DropCalls)
    ensures Dropped(w, c, gone, calls).durable == w.durable && Dropped(w, c, gone, calls).cache == w.cache
  {}

  /** A create at most loads them. */
  lemma CreatedAliases(w: World, name: string, parts: nat, made: set<string>, readOk: bool, callOk: bool, rolledBack: bool)
    ensures var w' := AfterCreate(w, name, parts, made, readOk, callOk, rolledBack);
      w'.durable == w.durable && (w'.cache == w.cache || w'.cache == Some(Known(w, readOk)))
  {}

  /** An accepted batch leaves a well-named map. */
  lemma ApplyNamed(w: World, m: Aliases, actions: seq<Action>)
    requires WellNamed(m) && Accepted(w, m, actions)
    ensures WellNamed(Apply(m, actions))
  {
    ApplyCanonical(m, actions);
    forall a | a in Apply(m, actions) ensures !Reserved(a) {
      ApplyFrom(m, actions, a);
      if a !in m {
        var i :| 0 <= i < |actions| && Effective(actions, i) && Canonical(actions[i].alias) == a;
        assert Objection(w, m, actions[i]) == None;
        CanonicalReserved(actions[i].alias);
      }
    }
  }

  lemma AfterRep(w: World, ev: Event)
    requires Rep(w)
    ensures Rep(After(w, ev))
  {
    hide Canonical, Reserved, Targeting, Consults, Accepted, Apply, Dropped, AfterCreate;
    match ev
    case Batch(actions, readOk, _) =>
      if Accepted(w, Known(w, readOk), actions) { ApplyNamed(w, Known(w, readOk), actions); }
    case Create(name, parts, made, readOk, callOk, rolledBack) => CreatedAliases(w, name, parts, made, readOk, callOk, rolledBack);
    case Drop(name, gone, calls, _, _) => DroppedAliases(w, Canonical(name), gone, calls);
    case _ =>
  }

  lemma AfterSynced(w: World, ev: Event)
    requires Synced(w) && Reads(w, ev)
    ensures Synced(After(w, ev))
  {
    hide Apply, Canonical, Reserved, Targeting;
  }

  /** A batch on a safe world leaves it safe exactly if its last words are good. */
  lemma BatchSoundIff(w: World, actions: seq<Action>)
    requires Safe(w) && Accepted(w, w.durable, actions)
    ensures var w' := w.(durable := Apply(w.durable, actions));
            Sound(w') && Plain(w'.durable) <==> GoodTargets(w, actions)
  {
    var m := Apply(w.durable, actions);
    var w' := w.(durable := m);
    if GoodTargets(w, actions) {
      forall a | a in m ensures a !in w.collections && m[a] in w.collections && !Reserved(m[a]) {
        ApplyFrom(w.durable, actions, a);
        if !(a in w.durable && m[a] == w.durable[a]) {
          var i :| 0 <= i < |actions| && Effective(actions, i) && Canonical(actions[i].alias) == a && m[a] == Canonical(actions[i].target);
          AcceptedTarget(w, actions, i);
        }
      }
    } else {
      var i :| 0 <= i < |actions| && Effective(actions, i) && (Reserved(actions[i].target) || Stale(w, Canonical(actions[i].target)));
      ApplyHas(w.durable, actions, i);
      AcceptedTarget(w, actions, i);
      var a := Canonical(actions[i].alias);
      assert a in m && (Reserved(m[a]) || (m[a] !in w.collections && m[a] !in w.physical));
    }
  }

  lemma AcceptedTarget(w: World, actions: seq<Action>, i: nat)
    requires Proper(w) && Accepted(w, w.durable, actions) && i < |actions| && !actions[i].remove
    ensures var a, t := Canonical(actions[i].alias), Canonical(actions[i].target);
      && a !in w.collections
      && (Reserved(t) <==> Reserved(actions[i].target))
      && (!Reserved(t) ==> t !in w.physical && (t in w.collections <==> !Stale(w, t)))
  {
    assert Objection(w, w.durable, actions[i]) == None;
    CanonicalTwice(actions[i].target);
    CanonicalReserved(actions[i].target);
  }

  lemma DropKeepsSound(w: World, name: string, gone: set<string>, calls: DropCalls, readOk: bool, putOk: bool)
    requires Safe(w) && Known(w, readOk) == w.durable
    ensures var w' := AfterDrop(w, name, gone, calls, readOk, putOk);
      Sound(w') && Plain(w'.durable) <==> Clean(w, Drop(name, gone, calls, readOk, putOk))
  {
    var c := Canonical(name);
    var w', t := AfterDrop(w, name, gone, calls, readOk, putOk), Targeting(w.durable, c);
    TargetingIs(w.durable, c);
    RemovedPhysical(w, c, gone);
    hide Canonical, Reserved, Targeting, Removed, Exists, Rep;
    match calls
    case InPartitions =>
    case EntryStays =>
      if IsPartitioned(w, c) {
        if a :| a in t { assert a in w'.durable && w'.durable[a] == c; }
      }
    case Completed =>
      if !putOk {
        if a :| a in t { assert a in w'.durable && w'.durable[a] == c; }
      }
  }

  lemma TargetingIs(m: Aliases, c: string)
    ensures forall a :: a in Targeting(m, c) <==> a in m && m[a] == c
  {}

  lemma RemovedPhysical(w: World, c: string, gone: set<string>)
    ensures c !in Removed(w, c, gone)
    ensures forall ph :: ph in Removed(w, c, gone) ==> Reserved(ph)
  {}

  /** A safe world stays safe through an event whose load succeeds exactly if the event
      is clean. */
  lemma StepSafeIff(w: World, ev: Event)
    requires Safe(w) && Reads(w, ev)
    ensures Safe(After(w, ev)) <==> Clean(w, ev)
  {
    AfterProper(w, ev);
    AfterRep(w, ev);
    AfterSynced(w, ev);
    hide Canonical, Reserved, Apply, Targeting, Proper, Rep;
    match ev
    case Batch(actions, readOk, putOk) =>
      if putOk && Accepted(w, w.durable, actions) { BatchSoundIff(w, actions); }
    case Drop(name, gone, calls, readOk, putOk) => DropKeepsSound(w, name, gone, calls, readOk, putOk);
    case _ =>
  }

  /** Aliases keep leading somewhere through whatever clean event comes next exactly if
      none leads to a physical partition: a reshard may retire the partition, and no
      cascade looks for it. */
  lemma StaysSoundIff(w: World)
    requires Good(w)
    ensures Plain(w.durable) <==> forall ev :: Reads(w, ev) && Clean(w, ev) ==> Sound(After(w, ev))
  {
    if Plain(w.durable) {
      forall ev | Reads(w, ev) && Clean(w, ev) ensures Sound(After(w, ev)) { StepSafeIff(w, ev); }
    } else {
      var a :| a in w.durable && Reserved(w.durable[a]);
      var ev := Repartition({}, {w.durable[a]});
      assert a in After(w, ev).durable && w.durable[a] !in After(w, ev).physical;
      assert Reads(w, ev) && Clean(w, ev) && !Sound(After(w, ev));
    }
  }

  /** The world before the `i`-th event. */
  function At(single: bool, events: seq<Event>, i: nat): (w: World)
    requires i <= |events|
  {
    AfterAll(Start(single), events[..i])
  }

  lemma AtNext(single: bool, events: seq<Event>, i: nat)
    requires i < |events|
    ensures At(single, events, i + 1) == After(At(single, events, i), events[i])
  {
    assert events[..i + 1][..i] == events[..i];
  }

  /** Whatever is looked up, created, resharded, dropped, aliased and reopened, with
      whichever failures except those of loads: the world is safe all along exactly if
      every event was clean when it came. */
  lemma {:induction false} AlwaysSafeIff(single: bool, events: seq<Event>)
    requires forall i :: 0 <= i < |events| ==> Reads(At(single, events, i), events[i])
    ensures (forall i :: 0 <= i <= |events| ==> Safe(At(single, events, i))) <==>
            (forall i :: 0 <= i < |events| ==> Clean(At(single, events, i), events[i]))
  {
    hide After, Safe, Clean, Reads;
    if forall i :: 0 <= i < |events| ==> Clean(At(single, events, i), events[i]) {
      SafeUpTo(single, events, |events|);
    }
    if forall i :: 0 <= i <= |events| ==> Safe(At(single, events, i)) {
      forall i | 0 <= i < |events| ensures Clean(At(single, events, i), events[i]) {
        AtNext(single, events, i);
        assert Safe(At(single, events, i + 1));
        StepSafeIff(At(single, events, i), events[i]);
      }
    }
  }

  lemma {:induction false} SafeUpTo(single: bool, events: seq<Event>, n: nat)
    requires n <= |events|
    requires forall i :: 0 <= i < n ==> Reads(At(single, events, i), events[i]) && Clean(At(single, events, i), events[i])
    ensures forall i :: 0 <= i <= n ==> Safe(At(single, events, i))
  {
    if n == 0 {
      assert events[..0] == [];
    } else {
      SafeUpTo(single, events, n - 1);
      AtNext(single, events, n - 1);
      StepSafeIff(At(single, events, n - 1), events[n - 1]);
    }
  }

  /** Then no alias has a collection's name, every alias leads to a collection, and
      resolving a name twice is resolving it once. */
  lemma AlwaysSound(single: bool, events: seq<Event>, name: string)
    requires forall i :: 0 <= i < |events| ==> Reads(At(single, events, i), events[i]) && Clean(At(single, events, i), events[i])
    ensures var w := At(single, events, |events|);
      && (forall a :: a in w.durable ==> a !in w.collections && w.durable[a] in w.collections)
      && Synced(w) && Resolve(w.durable, Resolve(w.durable, name)) == Resolve(w.durable, name)
  {
    SafeUpTo(single, events, |events|);
    var w := At(single, events, |events|);
    assert Safe(w);
    hide At;
    ResolveTwice(w, name);
  }

  // ---------- what a name resolves to ----------

  /** The last word of a batch on a name is its removal. */
  predicate Withdrawn(actions: seq<Action>, i: nat)
    requires i < |actions|
  {
    actions[i].remove && forall j :: i < j < |actions| ==> Canonical(actions[j].alias) != Canonical(actions[i].alias)
  }

  lemma {:induction false} ApplyLacks(m: Aliases, actions: seq<Action>, i: nat)
    requires i < |actions| && Withdrawn(actions, i)
    ensures Canonical(actions[i].alias) !in Apply(m, actions)
  {
    if i < |actions| - 1 { ApplyLacks(m, actions[..|actions| - 1], i); }
  }

  lemma {:induction false} ApplyLeaves(m: Aliases, actions: seq<Action>, a: string)
    requires forall i :: 0 <= i < |actions| ==> Canonical(actions[i].alias) != a
    ensures a in Apply(m, actions) <==> a in m
    ensures a in m ==> Apply(m, actions)[a] == m[a]
  {
    if actions != [] { ApplyLeaves(m, actions[..|actions| - 1], a); }
  }

  /** After an accepted and durable batch a name resolves to the target of the batch's last
      word on it, to itself if that was a removal, and as before if there was none. */
  lemma BatchResolves(w: World, actions: seq<Action>, readOk: bool, i: nat)
    requires Accepted(w, Known(w, readOk), actions) && i < |actions|
    ensures var w', name := After(w, Batch(actions, readOk, true)), actions[i].alias;
      && w'.cache == Some(w'.durable)
      && (Effective(actions, i) ==> Resolve(w'.durable, name) == Canonical(actions[i].target))
      && (Withdrawn(actions, i) ==> Resolve(w'.durable, name) == name)
  {
    var m := Known(w, readOk);
    assert Objection(w, m, actions[i]) == None;
    if Effective(actions, i) { ApplyHas(m, actions, i); }
    if Withdrawn(actions, i) { ApplyLacks(m, actions, i); }
  }

  lemma BatchLeaves(w: World, actions: seq<Action>, readOk: bool, name: string)
    requires forall i :: 0 <= i < |actions| ==> Canonical(actions[i].alias) != Canonical(name)
    requires Accepted(w, Known(w, readOk), actions)
    ensures Resolve(After(w, Batch(actions, readOk, true)).durable, name) == Resolve(Known(w, readOk), name)
  {
    ApplyLeaves(Known(w, readOk), actions, Canonical(name));
  }

  /** A physical name is never rerouted. */
  lemma ReservedStays(m: Aliases, name: string)
    requires Reserved(name)
    ensures Resolve(m, name) == name
  {}

  /** Over any sequence of clean events, whatever form of its name is used, every stored
      alias resolves to an existing collection, and every other name to itself. */
  lemma ResolvesToCollection(single: bool, events: seq<Event>, name: string)
    requires forall i :: 0 <= i < |events| ==> Reads(At(single, events, i), events[i]) && Clean(At(single, events, i), events[i])
    ensures var w := At(single, events, |events|);
      && (Canonical(name) in w.durable ==>
            Resolve(w.durable, name) in w.collections && Resolve(w.durable, name) == w.durable[Canonical(name)])
      && (Canonical(name) !in w.durable ==> Resolve(w.durable, name) == name)
  {
    SafeUpTo(single, events, |events|);
    var w := At(single, events, |events|);
    assert Safe(w);
    CanonicalReserved(name);
  }

  // ---------- creates ----------

  /** A create that succeeds makes the collection, and records its partition count exactly
      if it has more than one; nobody else's entry changes. */
  lemma CreateRecords(w: World, name: string, parts: nat, made: set<string>, readOk: bool)
    requires MayCreate(w, Known(w, readOk), name)
    ensures var w', c := After(w, Create(name, parts, made, readOk, true, true)), Canonical(name);
      && c in w'.collections
      && (parts > 1 ==> c in w'.entries && w'.entries[c] == parts && HasEntry(w', c) && IsPartitioned(w', c))
      && (parts <= 1 ==> !HasEntry(w', c))
      && forall d :: d != c ==> (d in w'.entries <==> d in w.entries) && (d in w.entries ==> w'.entries[d] == w.entries[d])
  {}

  /** A create gives a collection the name of a stored alias exactly if the aliases were
      not loaded, their read fails, and nothing else forbids the name. */
  lemma CreateShadowsIff(w: World, name: string, parts: nat, made: set<string>, readOk: bool)
    requires Good(w)
    ensures var w', c := AfterCreate(w, name, parts, made, readOk, true, true), Canonical(name);
      c in w'.durable && c in w'.collections <==>
      c in w.durable && w.cache.None? && !readOk && !Reserved(name) && !HasEntry(w, c)
  {}

  // ---------- an alias of a physical partition, an alias of nothing ----------

  const DOCS := "default/docs"
  const DOCS0 := "default/docs#0"
  const X := "default/x"

  lemma TheNames()
    ensures Canonical("docs") == DOCS && Canonical("docs#0") == DOCS0 && Canonical("x") == X
    ensures Canonical(DOCS) == DOCS && Canonical(DOCS0) == DOCS0 && Canonical(X) == X
    ensures Reserved(DOCS0) && !Reserved("docs") && !Reserved("x") && !Reserved(DOCS) && !Reserved(X)
    ensures DOCS != X && DOCS0 != DOCS && X != DOCS0
  {
    assert "docs#0"[4] == '#';
    assert '/' !in "docs" && '/' !in "docs#0" && '/' !in "x";
    assert DOCS0[12] == '#';
    assert |DOCS0| == 14 && |DOCS| == 12 && |X| == 9;
    assert "default/" + "docs" == DOCS;
    assert "default/" + "docs#0" == DOCS0;
    assert "default/" + "x" == X;
    CanonicalTwice("docs");
    CanonicalTwice("docs#0");
    CanonicalTwice("x");
    CanonicalReserved("docs");
    CanonicalReserved("x");
  }

  function CreateDocs(): (ev: Event) { Create("docs", 2, {DOCS0}, true, true, true) }

  function Alias(target: string): (ev: Event) { Batch([Action("x", target, false)], true, true) }

  /** The world after `docs` was created with two partitions. */
  function WithDocs(single: bool): (w: World) { World(single, {DOCS}, {DOCS0}, map[DOCS := 2], map[], Some(map[])) }

  lemma DocsCreated(single: bool)
    ensures After(Start(single), CreateDocs()) == WithDocs(single)
  {
    TheNames();
    hide Canonical, Reserved;
    assert PartitionNames({DOCS0}) == {DOCS0};
    assert EMPTY[DOCS := 2] == map[DOCS := 2];
  }

  lemma AliasApplied(w: World, target: string)
    requires w.cache == Some(map[]) && !Exists(w, "x")
    ensures var m: Aliases := map[X := Canonical(target)];
      After(w, Alias(target)) == if Exists(w, target) then w.(durable := m, cache := Some(m)) else w
  {
    TheNames();
    hide Canonical, Reserved;
    var x := Action("x", target, false);
    assert [x][..0] == [];
    assert Apply(map[], [x]) == map[X := Canonical(target)];
    assert Objection(w, map[], x) == if Exists(w, target) then None else Some(TargetMissing);
    assert Accepted(w, map[], [x]) <==> Exists(w, target) by {
      assert [x][0] == x;
    }
    assert Accepted(w, map[], [x][..0]);
  }

  /** An alias of a physical partition is accepted.  A drop whose cascade is durable
      leaves it dangling, and so does a reshard. */
  lemma PhysicalTargetDangles(single: bool)
    ensures var w := After(After(Start(single), CreateDocs()), Alias("docs#0"));
      && Good(w) && w.durable == map[X := DOCS0]
      && !Sound(After(w, Drop("docs", {DOCS0}, Completed, true, true)))
      && !Sound(After(w, Repartition({"default/docs@1#0"}, {DOCS0})))
  {
    TheNames();
    DocsCreated(single);
    hide Canonical, Reserved;
    AliasApplied(WithDocs(single), "docs#0");
    var w := After(WithDocs(single), Alias("docs#0"));
    var w1 := After(w, Drop("docs", {DOCS0}, Completed, true, true));
    assert Targeting(w.durable, DOCS) == {};
    assert X in w1.durable && w1.durable[X] == DOCS0 && DOCS0 !in w1.physical && DOCS0 !in w1.collections;
    var w2 := After(w, Repartition({"default/docs@1#0"}, {DOCS0}));
    assert X in w2.durable && w2.durable[X] == DOCS0 && DOCS0 !in w2.physical && DOCS0 !in w2.collections;
  }

  /** On a single node a dropped collection's catalog entry still counts: an alias of it
      is accepted and leads nowhere, and its name cannot be used again.  In a cluster
      the alias is refused. */
  lemma DroppedNameLivesOn(single: bool)
    ensures var w := After(After(Start(single), CreateDocs()), Drop("docs", {DOCS0}, Completed, true, true));
      && Safe(w) && (Stale(w, DOCS) <==> single)
      && (if single then !Sound(After(w, Alias("docs"))) else After(w, Alias("docs")) == w)
      && (After(w, CreateDocs()) == w <==> single)
  {
    TheNames();
    DocsCreated(single);
    hide Canonical, Reserved;
    var w := After(WithDocs(single), Drop("docs", {DOCS0}, Completed, true, true));
    assert PartitionNames({DOCS0}) == {DOCS0};
    assert w == World(single, {}, {}, map[DOCS := 1], map[], Some(map[]));
    AliasApplied(w, "docs");
    if single {
      assert X in After(w, Alias("docs")).durable;
    }
  }
}
