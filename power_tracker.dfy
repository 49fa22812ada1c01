/** The registry of trackers for one power network (Source/PowerTracker.cs): a tracker per
    component, a group per device type and a category per power type. */
module Registry {
  import opened Outcomes
  import opened Host
  import opened Lists
  import opened Things
  import opened Groups
  import opened Categories

  /** The classification of a component the registry has accepted. */
  function TypeOf(c: CompPower): (p: PowerType)
    requires c.kind != OtherComp
    ensures ClassifyKind(c.kind) == Ok(p)
  {
    ClassifyKind(c.kind).value
  }

  /** The members recorded under `k`, or none. */
  function ChildrenOr<K, V>(m: map<K, seq<V>>, k: K): (r: seq<V>)
    ensures k in m ==> r == m[k]
    ensures k !in m ==> r == []
  {
    if k in m then m[k] else []
  }

  // The consistency of the three indexes, stated over their values: `tr` is `_trackers`,
  // `gs` is `_groups` and `ks` is `_categories`, while `gch` and `kch` give each group's and
  // each category's member list.

  /** Each tracker wraps its own key, a component that could be classified. */
  ghost predicate TrackersWrapKeys(tr: map<CompPower, PowerTrackerThing>) {
    forall c | c in tr :: tr[c].compPower == c && c.kind != OtherComp
  }

  /** Each tracker is a member of the group for its device type. */
  ghost predicate TrackersAreMembers(tr: map<CompPower, PowerTrackerThing>, gch: map<ThingDef, seq<PowerTrackerThing>>) {
    forall c | c in tr :: c.def in gch && tr[c] in gch[c.def]
  }

  /** Each group member is the tracker of a tracked component of that device type. */
  ghost predicate MembersAreTracked(tr: map<CompPower, PowerTrackerThing>, gch: map<ThingDef, seq<PowerTrackerThing>>) {
    forall d, t | d in gch && t in gch[d] :: t.compPower.def == d && t.compPower in tr && tr[t.compPower] == t
  }

  /** No group holds a tracker twice, and each device type has its own group object. */
  ghost predicate GroupsDistinct(gs: map<ThingDef, PowerTrackerGroup>, gch: map<ThingDef, seq<PowerTrackerThing>>) {
    && (forall d | d in gch :: NoDuplicates(gch[d]))
    && (forall d, e | d in gs && e in gs && d != e :: gs[d] != gs[e])
  }

  /** Each group carries the classification of its device type's component class, so a
      device type that cannot be classified has no group. */
  ghost predicate GroupsTyped(gs: map<ThingDef, PowerTrackerGroup>) {
    forall d | d in gs :: ClassifyKind(d.kind) == Ok(gs[d].powerType)
  }

  /** Each category is keyed by its own power type and holds registered groups of that power
      type, none twice. */
  ghost predicate CategoriesHoldGroups(
    gs: map<ThingDef, PowerTrackerGroup>, ks: map<PowerType, PowerTrackerCategory>,
    kch: map<PowerType, seq<PowerTrackerGroup>>)
  {
    && (forall p | p in ks :: ks[p].powerType == p)
    && (forall p | p in kch :: NoDuplicates(kch[p]))
    && (forall p, g | p in kch && g in kch[p] :: g in gs.Values && g.powerType == p)
  }

  /** Each group is in the category of its own power type, and the group of each tracker is
      in the category of that tracker's power type. */
  ghost predicate GroupsCategorised(
    tr: map<CompPower, PowerTrackerThing>, gs: map<ThingDef, PowerTrackerGroup>,
    kch: map<PowerType, seq<PowerTrackerGroup>>)
    requires TrackersWrapKeys(tr)
    requires forall c | c in tr :: c.def in gs
  {
    && (forall d | d in gs :: gs[d].powerType in kch && gs[d] in kch[gs[d].powerType])
    && (forall c | c in tr :: TypeOf(c) in kch && gs[c.def] in kch[TypeOf(c)])
  }

  /** All of the above. */
  ghost predicate Consistent(
    tr: map<CompPower, PowerTrackerThing>,
    gs: map<ThingDef, PowerTrackerGroup>,
    ks: map<PowerType, PowerTrackerCategory>,
    gch: map<ThingDef, seq<PowerTrackerThing>>,
    kch: map<PowerType, seq<PowerTrackerGroup>>)
  {
    && gch.Keys == gs.Keys && kch.Keys == ks.Keys
    && TrackersWrapKeys(tr)
    && TrackersAreMembers(tr, gch)
    && MembersAreTracked(tr, gch)
    && GroupsDistinct(gs, gch)
    && GroupsTyped(gs)
    && CategoriesHoldGroups(gs, ks, kch)
    && GroupsCategorised(tr, gs, kch)
  }

  /** Appending an element that is not yet present keeps a list free of duplicates. */
  lemma AppendNew<T>(s: seq<T>, x: T)
    requires NoDuplicates(s) && x !in s
    ensures NoDuplicates(s + [x])
  {
    forall i, j | 0 <= i < j < |s + [x]| ensures (s + [x])[i] != (s + [x])[j] {
      if j < |s| { assert (s + [x])[i] == s[i] && (s + [x])[j] == s[j]; }
    }
  }

  /** Registering a new classifiable component keeps the indexes consistent. `g` is the group
      found or created for its device type, `k` the category found or created for its power type. */
  lemma {:induction false} AddPreservesConsistency(
    tr: map<CompPower, PowerTrackerThing>,
    gs: map<ThingDef, PowerTrackerGroup>,
    ks: map<PowerType, PowerTrackerCategory>,
    gch: map<ThingDef, seq<PowerTrackerThing>>,
    kch: map<PowerType, seq<PowerTrackerGroup>>,
    c: CompPower, thing: PowerTrackerThing, g: PowerTrackerGroup, k: PowerTrackerCategory)
    requires Consistent(tr, gs, ks, gch, kch)
    requires c !in tr && c.kind != OtherComp && thing.compPower == c
    requires c.def in gs ==> g == gs[c.def]
    requires c.def !in gs ==> g !in gs.Values && g.powerType == TypeOf(c)
    requires TypeOf(c) in ks ==> k == ks[TypeOf(c)]
    requires k.powerType == TypeOf(c)
    ensures Consistent(
              tr[c := thing], gs[c.def := g], ks[TypeOf(c) := k],
              gch[c.def := ChildrenOr(gch, c.def) + [thing]],
              kch[TypeOf(c) := AddIfAbsent(ChildrenOr(kch, TypeOf(c)), g)])
  {
    AddKeepsIndexes(tr, gs, ks, gch, kch, c, thing, g);
    AddKeepsClassification(tr, gs, ks, gch, kch, c, thing, g, k);
  }

  /** The first half of `AddPreservesConsistency`: the trackers and the group member lists. */
  lemma AddKeepsIndexes(
    tr: map<CompPower, PowerTrackerThing>,
    gs: map<ThingDef, PowerTrackerGroup>,
    ks: map<PowerType, PowerTrackerCategory>,
    gch: map<ThingDef, seq<PowerTrackerThing>>,
    kch: map<PowerType, seq<PowerTrackerGroup>>,
    c: CompPower, thing: PowerTrackerThing, g: PowerTrackerGroup)
    requires Consistent(tr, gs, ks, gch, kch)
    requires c !in tr && c.kind != OtherComp && thing.compPower == c
    requires c.def in gs ==> g == gs[c.def]
    requires c.def !in gs ==> g !in gs.Values
    ensures gch[c.def := ChildrenOr(gch, c.def) + [thing]].Keys == gs[c.def := g].Keys
    ensures TrackersWrapKeys(tr[c := thing])
    ensures TrackersAreMembers(tr[c := thing], gch[c.def := ChildrenOr(gch, c.def) + [thing]])
    ensures MembersAreTracked(tr[c := thing], gch[c.def := ChildrenOr(gch, c.def) + [thing]])
    ensures GroupsDistinct(gs[c.def := g], gch[c.def := ChildrenOr(gch, c.def) + [thing]])
  {
    AddKeepsMembersTracked(tr, gch, c, thing);
    AddKeepsGroupsDistinct(tr, gs, gch, c, thing, g);
    AddKeepsTrackersMembers(tr, gch, c, thing);
  }

  /** The second half of `AddPreservesConsistency`: the groups' power types and the categories. */
  lemma AddKeepsClassification(
    tr: map<CompPower, PowerTrackerThing>,
    gs: map<ThingDef, PowerTrackerGroup>,
    ks: map<PowerType, PowerTrackerCategory>,
    gch: map<ThingDef, seq<PowerTrackerThing>>,
    kch: map<PowerType, seq<PowerTrackerGroup>>,
    c: CompPower, thing: PowerTrackerThing, g: PowerTrackerGroup, k: PowerTrackerCategory)
    requires Consistent(tr, gs, ks, gch, kch)
    requires c !in tr && c.kind != OtherComp && thing.compPower == c
    requires c.def in gs ==> g == gs[c.def]
    requires c.def !in gs ==> g.powerType == TypeOf(c)
    requires TypeOf(c) in ks ==> k == ks[TypeOf(c)]
    requires k.powerType == TypeOf(c)
    ensures kch[TypeOf(c) := AddIfAbsent(ChildrenOr(kch, TypeOf(c)), g)].Keys == ks[TypeOf(c) := k].Keys
    ensures TrackersWrapKeys(tr[c := thing])
    ensures forall c' | c' in tr[c := thing] :: c'.def in gs[c.def := g]
    ensures GroupsTyped(gs[c.def := g])
    ensures CategoriesHoldGroups(gs[c.def := g], ks[TypeOf(c) := k], kch[TypeOf(c) := AddIfAbsent(ChildrenOr(kch, TypeOf(c)), g)])
    ensures GroupsCategorised(tr[c := thing], gs[c.def := g], kch[TypeOf(c) := AddIfAbsent(ChildrenOr(kch, TypeOf(c)), g)])
  {
    AddKeepsGroupsTyped(gs, c, g);
    AddKeepsCategoriesHoldingGroups(gs, ks, kch, c.def, g, TypeOf(c), k);
    AddKeepsGroupsCategorised(tr, gs, kch, c, thing, g);
  }

  lemma AddKeepsGroupsTyped(gs: map<ThingDef, PowerTrackerGroup>, c: CompPower, g: PowerTrackerGroup)
    requires GroupsTyped(gs) && c.kind != OtherComp
    requires c.def in gs ==> g == gs[c.def]
    requires c.def !in gs ==> g.powerType == TypeOf(c)
    ensures g.powerType == TypeOf(c)
    ensures GroupsTyped(gs[c.def := g])
  {
    if c.def in gs {
      assert ClassifyKind(c.def.kind) == Ok(g.powerType);
    }
  }

  lemma AddKeepsTrackersMembers(
    tr: map<CompPower, PowerTrackerThing>, gch: map<ThingDef, seq<PowerTrackerThing>>,
    c: CompPower, thing: PowerTrackerThing)
    requires TrackersAreMembers(tr, gch)
    ensures TrackersAreMembers(tr[c := thing], gch[c.def := ChildrenOr(gch, c.def) + [thing]])
  {
  }

  lemma AddKeepsMembersTracked(
    tr: map<CompPower, PowerTrackerThing>, gch: map<ThingDef, seq<PowerTrackerThing>>,
    c: CompPower, thing: PowerTrackerThing)
    requires MembersAreTracked(tr, gch)
    requires c !in tr && thing.compPower == c
    ensures MembersAreTracked(tr[c := thing], gch[c.def := ChildrenOr(gch, c.def) + [thing]])
  {
    var tr', gch' := tr[c := thing], gch[c.def := ChildrenOr(gch, c.def) + [thing]];
    forall d: ThingDef, t: PowerTrackerThing | d in gch' && t in gch'[d]
      ensures t.compPower.def == d && t.compPower in tr' && tr'[t.compPower] == t
    {
      if d == c.def && t !in ChildrenOr(gch, c.def) { assert t == thing; }
    }
  }

  lemma AddKeepsGroupsDistinct(
    tr: map<CompPower, PowerTrackerThing>, gs: map<ThingDef, PowerTrackerGroup>,
    gch: map<ThingDef, seq<PowerTrackerThing>>, c: CompPower, thing: PowerTrackerThing, g: PowerTrackerGroup)
    requires MembersAreTracked(tr, gch) && GroupsDistinct(gs, gch) && gch.Keys == gs.Keys
    requires c !in tr && thing.compPower == c
    requires c.def in gs ==> g == gs[c.def]
    requires c.def !in gs ==> g !in gs.Values
    ensures GroupsDistinct(gs[c.def := g], gch[c.def := ChildrenOr(gch, c.def) + [thing]])
  {
    var before := ChildrenOr(gch, c.def);
    assert thing !in before;
    AppendNew(before, thing);
  }

  lemma AddKeepsCategoriesHoldingGroups(
    gs: map<ThingDef, PowerTrackerGroup>, ks: map<PowerType, PowerTrackerCategory>,
    kch: map<PowerType, seq<PowerTrackerGroup>>,
    def: ThingDef, g: PowerTrackerGroup, p: PowerType, k: PowerTrackerCategory)
    requires CategoriesHoldGroups(gs, ks, kch) && kch.Keys == ks.Keys
    requires def in gs ==> g == gs[def]
    requires p in ks ==> k == ks[p]
    requires k.powerType == p && g.powerType == p
    ensures CategoriesHoldGroups(gs[def := g], ks[p := k], kch[p := AddIfAbsent(ChildrenOr(kch, p), g)])
  {
    var gs', kch' := gs[def := g], kch[p := AddIfAbsent(ChildrenOr(kch, p), g)];
    forall pp: PowerType, h: PowerTrackerGroup | pp in kch' && h in kch'[pp] ensures h in gs'.Values {
      if h == g {
        assert gs'[def] == g;
      } else {
        assert h in kch[pp] by {
          if pp == p {
            var before := ChildrenOr(kch, p);
            assert kch'[pp] == before || kch'[pp] == before + [g];
          }
        }
        assert h in gs.Values;
        var d :| d in gs && gs[d] == h;
        assert gs'[d] == h;
      }
    }
  }

  lemma AddKeepsGroupsCategorised(
    tr: map<CompPower, PowerTrackerThing>, gs: map<ThingDef, PowerTrackerGroup>,
    kch: map<PowerType, seq<PowerTrackerGroup>>, c: CompPower, thing: PowerTrackerThing, g: PowerTrackerGroup)
    requires TrackersWrapKeys(tr) && (forall c' | c' in tr :: c'.def in gs)
    requires GroupsCategorised(tr, gs, kch)
    requires c !in tr && c.kind != OtherComp && thing.compPower == c
    requires c.def in gs ==> g == gs[c.def]
    requires c.def !in gs ==> g.powerType == TypeOf(c)
    ensures TrackersWrapKeys(tr[c := thing])
    ensures GroupsCategorised(tr[c := thing], gs[c.def := g], kch[TypeOf(c) := AddIfAbsent(ChildrenOr(kch, TypeOf(c)), g)])
  {
    var p := TypeOf(c);
    var tr', gs', kch' := tr[c := thing], gs[c.def := g], kch[p := AddIfAbsent(ChildrenOr(kch, p), g)];
    assert g in kch'[p];
    AddKeepsCategoryMembers(kch, p, g);
    forall d | d in gs' ensures gs'[d].powerType in kch' && gs'[d] in kch'[gs'[d].powerType] {
      if d != c.def || c.def in gs {
        assert gs'[d] == gs[d];
      }
    }
    forall c' | c' in tr' ensures TypeOf(c') in kch' && gs'[c'.def] in kch'[TypeOf(c')] {
      if c' != c {
        assert c'.def in gs && gs'[c'.def] == gs[c'.def];
      }
    }
  }

  /** Adding a group to the category of `p` keeps every group each category had. */
  lemma AddKeepsCategoryMembers(kch: map<PowerType, seq<PowerTrackerGroup>>, p: PowerType, g: PowerTrackerGroup)
    ensures forall q, h | q in kch && h in kch[q] ::
              q in kch[p := AddIfAbsent(ChildrenOr(kch, p), g)] && h in kch[p := AddIfAbsent(ChildrenOr(kch, p), g)][q]
  {
    var kch' := kch[p := AddIfAbsent(ChildrenOr(kch, p), g)];
    forall q, h | q in kch && h in kch[q] ensures q in kch' && h in kch'[q] {
      if q == p {
        var before := ChildrenOr(kch, p);
        assert kch'[p][..|before|] == before;
        var i :| 0 <= i < |before| && before[i] == h;
        assert kch'[p][i] == h;
      }
    }
  }

  /** Dropping tracker `c` from its group and from the trackers keeps the indexes consistent,
      and no group member tracks `c` any more. */
  lemma {:induction false} RemovePreservesConsistency(
    tr: map<CompPower, PowerTrackerThing>,
    gs: map<ThingDef, PowerTrackerGroup>,
    ks: map<PowerType, PowerTrackerCategory>,
    gch: map<ThingDef, seq<PowerTrackerThing>>,
    kch: map<PowerType, seq<PowerTrackerGroup>>,
    c: CompPower)
    requires Consistent(tr, gs, ks, gch, kch)
    requires c in tr
    ensures c.def in gch
    ensures Consistent(tr - {c}, gs, ks, gch[c.def := RemoveFirst(gch[c.def], tr[c])], kch)
    ensures forall d, t | d in gch && t in gch[c.def := RemoveFirst(gch[c.def], tr[c])][d] :: t.compPower != c
  {
    var gch' := gch[c.def := RemoveFirst(gch[c.def], tr[c])];
    RemoveFirstIsWithout(gch[c.def], tr[c]);
    RemoveKeepsTrackersMembers(tr, gch, c);
    RemoveKeepsMembersTracked(tr, gch, c);
    assert GroupsDistinct(gs, gch');
  }

  lemma RemoveKeepsTrackersMembers(tr: map<CompPower, PowerTrackerThing>, gch: map<ThingDef, seq<PowerTrackerThing>>, c: CompPower)
    requires TrackersWrapKeys(tr) && TrackersAreMembers(tr, gch) && c in tr
    ensures TrackersAreMembers(tr - {c}, gch[c.def := RemoveFirst(gch[c.def], tr[c])])
  {
    forall c' | c' in tr - {c} ensures tr[c'] in gch[c.def := RemoveFirst(gch[c.def], tr[c])][c'.def] {
      if c'.def == c.def {
        assert tr[c'] != tr[c];
        assert tr[c'] in multiset(gch[c.def]) - multiset{tr[c]};
      }
    }
  }

  lemma RemoveKeepsMembersTracked(tr: map<CompPower, PowerTrackerThing>, gch: map<ThingDef, seq<PowerTrackerThing>>, c: CompPower)
    requires MembersAreTracked(tr, gch) && c in tr && c.def in gch
    requires RemoveFirst(gch[c.def], tr[c]) == Without(gch[c.def], tr[c])
    ensures MembersAreTracked(tr - {c}, gch[c.def := RemoveFirst(gch[c.def], tr[c])])
    ensures forall d, t | d in gch && t in gch[c.def := RemoveFirst(gch[c.def], tr[c])][d] :: t.compPower != c
  {
    var gch' := gch[c.def := RemoveFirst(gch[c.def], tr[c])];
    forall d: ThingDef, t: PowerTrackerThing | d in gch' && t in gch'[d]
      ensures t.compPower.def == d && t.compPower in tr - {c} && tr[t.compPower] == t
    {
      if d == c.def {
        var rest := Without(gch[c.def], tr[c]);
        var i :| 0 <= i < |rest| && rest[i] == t;
        assert t in gch[c.def] && t != tr[c];
      }
    }
  }

  /** A map holding exactly the entries of `start` whose keys are in `kept` has those keys. */
  lemma KeptKeys<K, V>(now: map<K, V>, start: map<K, V>, kept: set<K>)
    requires forall k | k in now :: k in start && k in kept
    requires forall k | k in start && k in kept :: k in now
    ensures now.Keys == start.Keys * kept
  {
  }

  /** Each group's member list. */
  ghost function GroupMembers(gs: map<ThingDef, PowerTrackerGroup>): (gch: map<ThingDef, seq<PowerTrackerThing>>)
    reads gs.Values
    ensures gch.Keys == gs.Keys
    ensures forall d | d in gs :: gch[d] == gs[d].children
  {
    map d | d in gs :: gs[d].children
  }

  /** Each category's member list. */
  ghost function CategoryMembers(ks: map<PowerType, PowerTrackerCategory>): (kch: map<PowerType, seq<PowerTrackerGroup>>)
    reads ks.Values
    ensures kch.Keys == ks.Keys
    ensures forall p | p in ks :: kch[p] == ks[p].children
  {
    map p | p in ks :: ks[p].children
  }

  /** Registering a new group adds its member list under its device type. */
  lemma GroupMembersInsert(gs: map<ThingDef, PowerTrackerGroup>, d: ThingDef, g: PowerTrackerGroup)
    ensures GroupMembers(gs[d := g]) == GroupMembers(gs)[d := g.children]
  {
  }

  /** When only the group under `d` changed since the member lists were `before`, and no other
      device type shares it, only the member list under `d` differs. */
  lemma GroupMembersAfterChange(
    gs: map<ThingDef, PowerTrackerGroup>, d: ThingDef, before: map<ThingDef, seq<PowerTrackerThing>>)
    requires d in gs && before.Keys == gs.Keys
    requires forall e | e in gs && e != d :: gs[e].children == before[e]
    ensures GroupMembers(gs) == before[d := gs[d].children]
  {
  }

  /** Registering a new category adds its member list under its power type. */
  lemma CategoryMembersInsert(ks: map<PowerType, PowerTrackerCategory>, p: PowerType, k: PowerTrackerCategory)
    ensures CategoryMembers(ks[p := k]) == CategoryMembers(ks)[p := k.children]
  {
  }

  /** When only the category under `p` changed since the member lists were `before`, only
      the member list under `p` differs. */
  lemma CategoryMembersAfterChange(
    ks: map<PowerType, PowerTrackerCategory>, p: PowerType, before: map<PowerType, seq<PowerTrackerGroup>>)
    requires p in ks && before.Keys == ks.Keys
    requires forall q | q in ks && q != p :: ks[q].children == before[q]
    ensures CategoryMembers(ks) == before[p := ks[p].children]
  {
  }

  class PowerTracker {
    /** `_trackers`: the tracker of each tracked component. */
    var trackers: map<CompPower, PowerTrackerThing>
    /** `_groups`: the group of each device type seen so far. */
    var groups: map<ThingDef, PowerTrackerGroup>
    /** `_categories`: the category of each power type seen so far. */
    var categories: map<PowerType, PowerTrackerCategory>

    /** The consistency of the three indexes. */
    ghost predicate Valid()
      reads this, groups.Values, categories.Values
    {
      Consistent(trackers, groups, categories, GroupMembers(groups), CategoryMembers(categories))
    }

    constructor()
      ensures Valid()
      ensures trackers == map[] && groups == map[] && categories == map[]
    {
      trackers := map[];
      groups := map[];
      categories := map[];
    }

    /** The group for device type `def`, created with power type `p` when missing. Only the
        group index changes; no member list does. */
    method GroupFor(def: ThingDef, p: PowerType) returns (group: PowerTrackerGroup)
      requires forall d, e | d in groups && e in groups && d != e :: groups[d] != groups[e]
      modifies this
      ensures trackers == old(trackers) && categories == old(categories)
      ensures groups == old(groups)[def := group]
      ensures def in old(groups) ==> group == old(groups[def])
      ensures def !in old(groups) ==> fresh(group) && group.powerType == p
      ensures forall d, e | d in groups && e in groups && d != e :: groups[d] != groups[e]
      ensures GroupMembers(groups) == old(GroupMembers(groups))[def := ChildrenOr(old(GroupMembers(groups)), def)]
    {
      if def !in groups {
        var g := new PowerTrackerGroup(p);
        GroupMembersInsert(groups, def, g);
        groups := groups[def := g];
      }
      group := groups[def];
    }

    /** Adds `thing` to the group of device type `def`, a group no other device type shares;
        of the member lists `gch` held before that group was looked up, only the one under
        `def` changes. */
    method AdmitToGroup(def: ThingDef, thing: PowerTrackerThing, ghost gch: map<ThingDef, seq<PowerTrackerThing>>)
      requires def in groups && forall e | e in groups && e != def :: groups[e] != groups[def]
      requires GroupMembers(groups) == gch[def := ChildrenOr(gch, def)]
      modifies groups[def]
      ensures GroupMembers(groups) == gch[def := AddIfAbsent(ChildrenOr(gch, def), thing)]
    {
      ghost var before := GroupMembers(groups);
      groups[def].AddTrackerThing(thing);
      GroupMembersAfterChange(groups, def, before);
    }

    /** Finds the group for the device type of `thing`'s component, creating it with power
        type `p` when missing, and adds `thing` to it. */
    method JoinGroup(thing: PowerTrackerThing, p: PowerType) returns (group: PowerTrackerGroup)
      requires forall d, e | d in groups && e in groups && d != e :: groups[d] != groups[e]
      modifies this, groups.Values
      ensures trackers == old(trackers) && categories == old(categories)
      ensures groups == old(groups)[thing.compPower.def := group]
      ensures thing.compPower.def in old(groups) ==> group == old(groups[thing.compPower.def])
      ensures thing.compPower.def !in old(groups) ==> fresh(group) && group.powerType == p
      ensures forall d, e | d in groups && e in groups && d != e :: groups[d] != groups[e]
      ensures CategoryMembers(categories) == old(CategoryMembers(categories))
      ensures GroupMembers(groups) == old(GroupMembers(groups))[thing.compPower.def :=
                AddIfAbsent(ChildrenOr(old(GroupMembers(groups)), thing.compPower.def), thing)]
    {
      var def := thing.compPower.def;
      ghost var gch, kch := GroupMembers(groups), CategoryMembers(categories);
      group := GroupFor(def, p);
      assert CategoryMembers(categories) == kch;
      AdmitToGroup(def, thing, gch);
      assert CategoryMembers(categories) == kch;
    }

    /** The category for power type `p`, created when missing. Only the category index
        changes; no member list does. */
    method CategoryFor(p: PowerType) returns (category: PowerTrackerCategory)
      requires forall q | q in categories :: categories[q].powerType == q
      modifies this
      ensures trackers == old(trackers) && groups == old(groups)
      ensures categories == old(categories)[p := category]
      ensures p in old(categories) ==> category == old(categories[p])
      ensures p !in old(categories) ==> fresh(category)
      ensures forall q | q in categories :: categories[q].powerType == q
      ensures CategoryMembers(categories) == old(CategoryMembers(categories))[p := ChildrenOr(old(CategoryMembers(categories)), p)]
    {
      if p !in categories {
        var k := new PowerTrackerCategory(p);
        CategoryMembersInsert(categories, p, k);
        categories := categories[p := k];
      }
      category := categories[p];
    }

    /** Adds `group` to the category of power type `p`; of the member lists `kch` held
        before that category was looked up, only the one under `p` changes. */
    method AdmitToCategory(p: PowerType, group: PowerTrackerGroup, ghost kch: map<PowerType, seq<PowerTrackerGroup>>)
      requires p in categories && forall q | q in categories :: categories[q].powerType == q
      requires CategoryMembers(categories) == kch[p := ChildrenOr(kch, p)]
      modifies categories[p]
      ensures CategoryMembers(categories) == kch[p := AddIfAbsent(ChildrenOr(kch, p), group)]
    {
      ghost var before := CategoryMembers(categories);
      assert forall q | q in categories && q != p :: categories[q] != categories[p];
      categories[p].AddTrackerGroup(group);
      CategoryMembersAfterChange(categories, p, before);
    }

    /** Finds the category for power type `p`, creating it when missing, and adds `group`
        to it unless already there. */
    method JoinCategory(group: PowerTrackerGroup, p: PowerType) returns (category: PowerTrackerCategory)
      requires forall q | q in categories :: categories[q].powerType == q
      modifies this, categories.Values
      ensures trackers == old(trackers) && groups == old(groups)
      ensures categories == old(categories)[p := category]
      ensures p in old(categories) ==> category == old(categories[p])
      ensures p !in old(categories) ==> fresh(category)
      ensures category.powerType == p
      ensures GroupMembers(groups) == old(GroupMembers(groups))
      ensures CategoryMembers(categories) == old(CategoryMembers(categories))[p := AddIfAbsent(ChildrenOr(old(CategoryMembers(categories)), p), group)]
    {
      ghost var gch, kch := GroupMembers(groups), CategoryMembers(categories);
      category := CategoryFor(p);
      assert GroupMembers(groups) == gch;
      AdmitToCategory(p, group, kch);
      assert GroupMembers(groups) == gch;
    }

    /** Starts tracking a component. A component already tracked is left alone; one that
        cannot be classified is refused before anything changes. Otherwise a fresh tracker is
        registered, the group of its device type is found or created and the tracker appended
        to it, and the category of its power type is found or created and given that group. */
    method AddTracker(c: CompPower) returns (outcome: Outcome)
      requires Valid()
      modifies this, groups.Values, categories.Values
      ensures Valid()
      ensures outcome.Failed? <==> c !in old(trackers) && c.kind == OtherComp
      ensures outcome.Failed? ==> outcome.exception == ArgumentOutOfRange
      // already tracked, or refused: nothing changes
      ensures c in old(trackers) || outcome.Failed? ==>
                trackers == old(trackers) && groups == old(groups) && categories == old(categories)
                && unchanged(groups.Values) && unchanged(categories.Values)
      // newly tracked: a fresh tracker, last in the group of its device type, whose group is
      // in the category of its power type; a group or category is created only when missing
      ensures c !in old(trackers) && outcome.Done? ==>
                && c in trackers && fresh(trackers[c]) && trackers[c].compPower == c
                && trackers == old(trackers)[c := trackers[c]]
                && c.def in groups && TypeOf(c) in categories
                && groups == old(groups)[c.def := groups[c.def]]
                && (c.def in old(groups) ==> groups[c.def] == old(groups[c.def]))
                && (c.def !in old(groups) ==> fresh(groups[c.def]) && groups[c.def].powerType == TypeOf(c))
                && categories == old(categories)[TypeOf(c) := categories[TypeOf(c)]]
                && (TypeOf(c) in old(categories) ==> categories[TypeOf(c)] == old(categories[TypeOf(c)]))
                && (TypeOf(c) !in old(categories) ==> fresh(categories[TypeOf(c)]))
                && GroupMembers(groups) == old(GroupMembers(groups))[c.def := ChildrenOr(old(GroupMembers(groups)), c.def) + [trackers[c]]]
                && CategoryMembers(categories) ==
                     old(CategoryMembers(categories))[TypeOf(c) := AddIfAbsent(ChildrenOr(old(CategoryMembers(categories)), TypeOf(c)), groups[c.def])]
    {
      if c in trackers {
        return Done;
      }
      var powerType := ClassifyKind(c.kind);
      if powerType.Thrown? {
        return Failed(powerType.exception);
      }
      ghost var gch, kch := GroupMembers(groups), CategoryMembers(categories);
      ghost var tr0, gs0, ks0 := trackers, groups, categories;
      var thing, group, category := Register(c, powerType.value);
      outcome := Done;
      AddPreservesConsistency(tr0, gs0, ks0, gch, kch, c, thing, group, category);
    }

    /** The registration of a component not yet tracked, of power type `p`: a fresh tracker
        under its key, appended to the group of its device type, whose group joins the
        category of `p`. */
    method Register(c: CompPower, p: PowerType) returns (thing: PowerTrackerThing, group: PowerTrackerGroup, category: PowerTrackerCategory)
      requires c !in trackers && c.kind != OtherComp && p == TypeOf(c)
      requires forall d, e | d in groups && e in groups && d != e :: groups[d] != groups[e]
      requires forall q | q in categories :: categories[q].powerType == q
      modifies this, groups.Values, categories.Values
      ensures fresh(thing) && thing.compPower == c
      ensures trackers == old(trackers)[c := thing]
      ensures groups == old(groups)[c.def := group]
      ensures c.def in old(groups) ==> group == old(groups[c.def])
      ensures c.def !in old(groups) ==> fresh(group) && group.powerType == p
      ensures categories == old(categories)[p := category]
      ensures p in old(categories) ==> category == old(categories[p])
      ensures p !in old(categories) ==> fresh(category)
      ensures category.powerType == p
      ensures GroupMembers(groups) == old(GroupMembers(groups))[c.def := ChildrenOr(old(GroupMembers(groups)), c.def) + [thing]]
      ensures CategoryMembers(categories) == old(CategoryMembers(categories))[p := AddIfAbsent(ChildrenOr(old(CategoryMembers(categories)), p), group)]
    {
      ghost var gch, kch := GroupMembers(groups), CategoryMembers(categories);
      thing := new PowerTrackerThing(c);
      trackers := trackers[c := thing];
      assert GroupMembers(groups) == gch && CategoryMembers(categories) == kch;
      group := JoinGroup(thing, p);
      category := JoinCategory(group, p);
      assert thing !in ChildrenOr(gch, c.def);
    }

    /** `AddTracker` in its original order: the tracker is registered before its power type
        is asked for, so for a component that cannot be classified the exception escapes after
        the trackers (and, when the group of its device type exists, that group) changed. */
    method AddTrackerAsWritten(c: CompPower) returns (outcome: Outcome)
      requires forall d, e | d in groups && e in groups && d != e :: groups[d] != groups[e]
      requires forall q | q in categories :: categories[q].powerType == q
      modifies this, groups.Values, categories.Values
      ensures forall d, e | d in groups && e in groups && d != e :: groups[d] != groups[e]
      ensures forall q | q in categories :: categories[q].powerType == q
      ensures c in old(trackers) ==>
                && outcome == Done && trackers == old(trackers) && groups == old(groups) && categories == old(categories)
                && unchanged(groups.Values) && unchanged(categories.Values)
      ensures c !in old(trackers) ==> c in trackers && fresh(trackers[c]) && trackers[c].compPower == c
      ensures c !in old(trackers) ==> (outcome.Failed? <==> c.kind == OtherComp)
      // unclassifiable: the tracker stays registered, no category changes, and the tracker
      // joins the group of its device type when that group exists and no group otherwise
      ensures c !in old(trackers) && c.kind == OtherComp ==>
                && outcome == Failed(ArgumentOutOfRange)
                && trackers == old(trackers)[c := trackers[c]]
                && groups == old(groups) && categories == old(categories)
                && CategoryMembers(categories) == old(CategoryMembers(categories))
                && (c.def !in old(groups) ==>
                      && GroupMembers(groups) == old(GroupMembers(groups))
                      && forall d | d in groups :: trackers[c] !in groups[d].children)
                && (c.def in old(groups) ==>
                      GroupMembers(groups) == old(GroupMembers(groups))[c.def := AddIfAbsent(old(GroupMembers(groups))[c.def], trackers[c])])
      // classifiable: the same registration as the corrected `AddTracker`
      ensures c !in old(trackers) && c.kind != OtherComp ==>
                && outcome == Done
                && trackers == old(trackers)[c := trackers[c]]
                && c.def in groups && TypeOf(c) in categories
                && groups == old(groups)[c.def := groups[c.def]]
                && (c.def in old(groups) ==>
                      && groups[c.def] == old(groups[c.def])
                      && groups[c.def].children == AddIfAbsent(old(groups[c.def].children), trackers[c]))
                && (c.def !in old(groups) ==>
                      && fresh(groups[c.def]) && groups[c.def].powerType == TypeOf(c)
                      && groups[c.def].children == [trackers[c]])
                && categories == old(categories)[TypeOf(c) := categories[TypeOf(c)]]
                && (TypeOf(c) in old(categories) ==>
                      && categories[TypeOf(c)] == old(categories[TypeOf(c)])
                      && categories[TypeOf(c)].children == AddIfAbsent(old(categories[TypeOf(c)].children), groups[c.def]))
                && (TypeOf(c) !in old(categories) ==>
                      && fresh(categories[TypeOf(c)])
                      && categories[TypeOf(c)].children == [groups[c.def]])
                && GroupMembers(groups) == old(GroupMembers(groups))[c.def := AddIfAbsent(ChildrenOr(old(GroupMembers(groups)), c.def), trackers[c])]
                && CategoryMembers(categories) ==
                     old(CategoryMembers(categories))[TypeOf(c) := AddIfAbsent(ChildrenOr(old(CategoryMembers(categories)), TypeOf(c)), groups[c.def])]
    {
      if c in trackers {
        return Done;
      }
      ghost var gch, kch := GroupMembers(groups), CategoryMembers(categories);
      var thing := new PowerTrackerThing(c);
      trackers := trackers[c := thing];
      assert GroupMembers(groups) == gch;
      assert CategoryMembers(categories) == kch;
      outcome := FileAsWritten(thing);
    }

    /** The two filing steps of the original `AddTracker`, the group step then the category
        step; an exception from the group step skips the category step. */
    method FileAsWritten(thing: PowerTrackerThing) returns (outcome: Outcome)
      requires forall d, e | d in groups && e in groups && d != e :: groups[d] != groups[e]
      requires forall q | q in categories :: categories[q].powerType == q
      modifies this, groups.Values, categories.Values
      ensures trackers == old(trackers)
      ensures forall d, e | d in groups && e in groups && d != e :: groups[d] != groups[e]
      ensures forall q | q in categories :: categories[q].powerType == q
      ensures outcome.Failed? <==> thing.compPower.kind == OtherComp
      ensures outcome.Failed? ==>
                && outcome.exception == ArgumentOutOfRange
                && groups == old(groups) && categories == old(categories)
                && CategoryMembers(categories) == old(CategoryMembers(categories))
                && (thing.compPower.def !in old(groups) ==> GroupMembers(groups) == old(GroupMembers(groups)))
                && (thing.compPower.def in old(groups) ==>
                      GroupMembers(groups) == old(GroupMembers(groups))[thing.compPower.def := AddIfAbsent(old(GroupMembers(groups))[thing.compPower.def], thing)])
      ensures outcome.Done? ==>
                && thing.compPower.def in groups && TypeOf(thing.compPower) in categories
                && groups == old(groups)[thing.compPower.def := groups[thing.compPower.def]]
                && (thing.compPower.def in old(groups) ==>
                      && groups[thing.compPower.def] == old(groups[thing.compPower.def])
                      && groups[thing.compPower.def].children == AddIfAbsent(old(groups[thing.compPower.def].children), thing))
                && (thing.compPower.def !in old(groups) ==>
                      && fresh(groups[thing.compPower.def]) && groups[thing.compPower.def].powerType == TypeOf(thing.compPower)
                      && groups[thing.compPower.def].children == [thing])
                && categories == old(categories)[TypeOf(thing.compPower) := categories[TypeOf(thing.compPower)]]
                && (TypeOf(thing.compPower) in old(categories) ==>
                      && categories[TypeOf(thing.compPower)] == old(categories[TypeOf(thing.compPower)])
                      && categories[TypeOf(thing.compPower)].children == AddIfAbsent(old(categories[TypeOf(thing.compPower)].children), groups[thing.compPower.def]))
                && (TypeOf(thing.compPower) !in old(categories) ==>
                      && fresh(categories[TypeOf(thing.compPower)])
                      && categories[TypeOf(thing.compPower)].children == [groups[thing.compPower.def]])
                && GroupMembers(groups) == old(GroupMembers(groups))[thing.compPower.def :=
                     AddIfAbsent(ChildrenOr(old(GroupMembers(groups)), thing.compPower.def), thing)]
                && CategoryMembers(categories) == old(CategoryMembers(categories))[TypeOf(thing.compPower) :=
                     AddIfAbsent(ChildrenOr(old(CategoryMembers(categories)), TypeOf(thing.compPower)), groups[thing.compPower.def])]
    {
      outcome := GroupStepAsWritten(thing);
      if outcome.Failed? {
        return;
      }
      var group := groups[thing.compPower.def];
      ghost var gch, members := GroupMembers(groups), group.children;
      outcome := CategoryStepAsWritten(thing, group);
      assert GroupMembers(groups) == gch && group.children == members;
    }

    /** The group step of the original `AddTracker`: the group of the tracker's device type is
        created, with the tracker's power type, when missing, and the tracker is added to it.
        Creating the group asks for the power type, which throws for an unclassifiable
        component; an existing group takes the tracker without asking. */
    method GroupStepAsWritten(thing: PowerTrackerThing) returns (outcome: Outcome)
      requires forall d, e | d in groups && e in groups && d != e :: groups[d] != groups[e]
      modifies this, groups.Values
      ensures trackers == old(trackers) && categories == old(categories)
      ensures CategoryMembers(categories) == old(CategoryMembers(categories))
      ensures forall d, e | d in groups && e in groups && d != e :: groups[d] != groups[e]
      ensures thing.compPower.def in old(groups) ==> groups == old(groups)
      ensures outcome.Failed? <==> thing.compPower.def !in old(groups) && thing.compPower.kind == OtherComp
      ensures outcome.Failed? ==>
                outcome.exception == ArgumentOutOfRange && groups == old(groups) && unchanged(groups.Values)
      ensures outcome.Done? ==>
                && thing.compPower.def in groups
                && groups == old(groups)[thing.compPower.def := groups[thing.compPower.def]]
                && (thing.compPower.def in old(groups) ==>
                      && groups[thing.compPower.def] == old(groups[thing.compPower.def])
                      && groups[thing.compPower.def].children == AddIfAbsent(old(groups[thing.compPower.def].children), thing))
                && (thing.compPower.def !in old(groups) ==>
                      && fresh(groups[thing.compPower.def]) && groups[thing.compPower.def].powerType == TypeOf(thing.compPower)
                      && groups[thing.compPower.def].children == [thing])
                && GroupMembers(groups) == old(GroupMembers(groups))[thing.compPower.def :=
                     AddIfAbsent(ChildrenOr(old(GroupMembers(groups)), thing.compPower.def), thing)]
    {
      var def := thing.compPower.def;
      if def !in groups {
        var groupType := thing.PowerType();
        if groupType.Thrown? {
          return Failed(groupType.exception);
        }
        var _ := JoinGroup(thing, groupType.value);
      } else {
        ghost var kch := CategoryMembers(categories);
        AdmitToGroup(def, thing, GroupMembers(groups));
        assert CategoryMembers(categories) == kch;
      }
      outcome := Done;
    }

    /** The category step of the original `AddTracker`: asking the tracker's power type throws
        for an unclassifiable component; otherwise the category of that power type is created
        when missing and given the group. */
    method CategoryStepAsWritten(thing: PowerTrackerThing, group: PowerTrackerGroup) returns (outcome: Outcome)
      requires forall q | q in categories :: categories[q].powerType == q
      modifies this, categories.Values
      ensures trackers == old(trackers) && groups == old(groups)
      ensures GroupMembers(groups) == old(GroupMembers(groups))
      ensures forall q | q in categories :: categories[q].powerType == q
      ensures outcome.Failed? <==> thing.compPower.kind == OtherComp
      ensures outcome.Failed? ==>
                && outcome.exception == ArgumentOutOfRange && categories == old(categories) && unchanged(categories.Values)
                && CategoryMembers(categories) == old(CategoryMembers(categories))
      ensures outcome.Done? ==>
                && TypeOf(thing.compPower) in categories
                && categories == old(categories)[TypeOf(thing.compPower) := categories[TypeOf(thing.compPower)]]
                && (TypeOf(thing.compPower) in old(categories) ==>
                      && categories[TypeOf(thing.compPower)] == old(categories[TypeOf(thing.compPower)])
                      && categories[TypeOf(thing.compPower)].children == AddIfAbsent(old(categories[TypeOf(thing.compPower)].children), group))
                && (TypeOf(thing.compPower) !in old(categories) ==>
                      && fresh(categories[TypeOf(thing.compPower)])
                      && categories[TypeOf(thing.compPower)].children == [group])
                && CategoryMembers(categories) == old(CategoryMembers(categories))[TypeOf(thing.compPower) :=
                     AddIfAbsent(ChildrenOr(old(CategoryMembers(categories)), TypeOf(thing.compPower)), group)]
    {
      var powerType := thing.PowerType();
      if powerType.Thrown? {
        return Failed(powerType.exception);
      }
      var _ := JoinCategory(group, powerType.value);
      outcome := Done;
    }

    /** Stops tracking a component: its tracker leaves its group and the trackers. A component
        not tracked, or whose device type has no group, is left alone. Groups and categories
        themselves stay, even when they become empty. */
    method RemoveTracker(c: CompPower)
      modifies this, groups.Values
      ensures groups == old(groups) && categories == old(categories)
      ensures CategoryMembers(categories) == old(CategoryMembers(categories))
      ensures c !in old(trackers) || c.def !in old(groups) ==>
                trackers == old(trackers) && GroupMembers(groups) == old(GroupMembers(groups))
      ensures c in old(trackers) && c.def in old(groups) ==>
                && trackers == old(trackers) - {c}
                && groups[c.def].children == RemoveFirst(old(groups[c.def].children), old(trackers[c]))
                && forall d | d in groups && groups[d] != groups[c.def] :: groups[d].children == old(groups[d].children)
    {
      if c !in trackers || c.def !in groups {
        return;
      }
      ghost var kch := CategoryMembers(categories);
      DropTracker(c);
      assert CategoryMembers(categories) == kch;
    }

    /** The two steps of a removal: the tracker of `c` leaves the group of `c`'s device type,
        then the trackers. */
    method DropTracker(c: CompPower)
      requires c in trackers && c.def in groups
      modifies this, groups[c.def]
      ensures groups == old(groups) && categories == old(categories)
      ensures trackers == old(trackers) - {c}
      ensures groups[c.def].children == RemoveFirst(old(groups[c.def].children), old(trackers[c]))
    {
      groups[c.def].RemoveTrackerThing(trackers[c]);
      trackers := trackers - {c};
    }

    /** `RemoveTracker` on a tracked component of a consistent registry: the registry stays
        consistent, only the member list of the component's device type changes, and no group
        member tracks the component any more. `RemoveTrackersExcept` removes by this. */
    method Untrack(c: CompPower)
      requires Valid()
      requires c in trackers
      modifies this, groups.Values
      ensures Valid()
      ensures groups == old(groups) && categories == old(categories)
      ensures trackers == old(trackers) - {c}
      ensures GroupMembers(groups) == old(GroupMembers(groups))[c.def := RemoveFirst(old(GroupMembers(groups))[c.def], old(trackers[c]))]
      // no member of any group is a tracker of `c` any more
      ensures forall d, t | d in GroupMembers(groups) && t in GroupMembers(groups)[d] :: t.compPower != c
    {
      ghost var gch, kch := GroupMembers(groups), CategoryMembers(categories);
      ghost var tr0 := trackers;
      assert c.def in groups;
      assert forall d | d in groups && d != c.def :: groups[d] != groups[c.def];
      RemoveTracker(c);
      GroupMembersAfterChange(groups, c.def, gch);
      RemovePreservesConsistency(tr0, groups, categories, gch, kch, c);
    }

    /** Stops tracking every tracked component that is not in `keep`; the order in which the
        others are removed is left open, as a dictionary's key order is. */
    method RemoveTrackersExcept(keep: seq<CompPower>)
      requires Valid()
      modifies this, groups.Values
      ensures Valid()
      ensures groups == old(groups) && categories == old(categories)
      ensures trackers.Keys == old(trackers.Keys) * (set c | c in keep)
      ensures forall c | c in trackers :: trackers[c] == old(trackers[c])
    {
      ghost var kept := set c | c in keep;
      var excepts := trackers.Keys - (set c | c in keep);
      while excepts != {}
        invariant Valid()
        invariant groups == old(groups) && categories == old(categories)
        invariant excepts <= trackers.Keys && excepts !! kept
        invariant forall k | k in trackers :: k in old(trackers) && trackers[k] == old(trackers[k])
        invariant forall k | k in trackers :: k in kept || k in excepts
        invariant forall k | k in old(trackers) && k in kept :: k in trackers
        decreases excepts
      {
        var c :| c in excepts;
        Untrack(c);
        excepts := excepts - {c};
      }
      KeptKeys(trackers, old(trackers), kept);
    }

    /** `TryGetValue`: the tracker of `c`, or null when `c` is not tracked. */
    function GetTracker(c: CompPower): (thing: PowerTrackerThing?)
      reads this
      ensures thing == null <==> c !in trackers
      ensures thing != null ==> thing == trackers[c]
    {
      if c in trackers then trackers[c] else null
    }

    /** Under the invariant, a tracker found for `c` tracks `c` and is a member of the group of
        its device type, which belongs to the category of its power type. */
    lemma TrackerIsGrouped(c: CompPower)
      requires Valid()
      ensures GetTracker(c) != null ==>
                && GetTracker(c).compPower == c
                && c.def in groups && GetTracker(c) in groups[c.def].children
                && TypeOf(c) in categories && groups[c.def] in categories[TypeOf(c)].children
    {
    }

    /** Under the invariant, every member of a group is of that group's device type and has
        that group's power type: a group is never mixed. */
    lemma GroupsAreHomogeneous()
      requires Valid()
      ensures forall d, t | d in groups && t in groups[d].children ::
                t.compPower.def == d && TypeOf(t.compPower) == groups[d].powerType
    {
      forall d, t | d in groups && t in groups[d].children
        ensures t.compPower.def == d && TypeOf(t.compPower) == groups[d].powerType
      {
        assert t in GroupMembers(groups)[d];
        assert ClassifyKind(d.kind) == Ok(groups[d].powerType);
      }
    }

    /** Under the invariant, the group of a tracked component is in the category of its power
        type and in no other, and only once there, so the category sums count it once. */
    lemma GroupInOneCategory(c: CompPower)
      requires Valid() && c in trackers
      ensures TypeOf(c) in categories
      ensures forall p | p in categories && groups[c.def] in categories[p].children :: p == TypeOf(c)
      ensures NoDuplicates(categories[TypeOf(c)].children)
    {
      forall p | p in categories && groups[c.def] in categories[p].children ensures p == TypeOf(c) {
        assert groups[c.def] in CategoryMembers(categories)[p];
        assert ClassifyKind(c.def.kind) == Ok(groups[c.def].powerType);
      }
      assert CategoryMembers(categories)[TypeOf(c)] == categories[TypeOf(c)].children;
    }
  }

  /** Adding a conduit (a component that is neither a battery nor a trader) to an empty
      registry with the original `AddTracker` throws, yet leaves the conduit tracked outside
      every group; `RemoveTracker` then refuses to remove it, since its device type has no
      group, so the tracker stays for good. */
  method StrandedTracker() returns (stuck: bool)
    ensures stuck
  {
    var registry := new PowerTracker();
    var conduit := new CompPower(ThingDef("PowerConduit", OtherComp), 0, 0, false);
    var outcome := registry.AddTrackerAsWritten(conduit);
    registry.RemoveTracker(conduit);
    stuck := outcome == Failed(ArgumentOutOfRange) && registry.GetTracker(conduit) != null
             && conduit.def !in registry.groups;
  }

  /** The same steps with the corrected `AddTracker`: the conduit is refused, nothing is
      registered, and the registry stays consistent. */
  method RefusedConduit() returns (clean: bool)
    ensures clean
  {
    var registry := new PowerTracker();
    var conduit := new CompPower(ThingDef("PowerConduit", OtherComp), 0, 0, false);
    var outcome := registry.AddTracker(conduit);
    registry.RemoveTracker(conduit);
    clean := outcome == Failed(ArgumentOutOfRange) && registry.GetTracker(conduit) == null
             && registry.trackers == map[] && registry.groups == map[];
  }
}
