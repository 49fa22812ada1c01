# Power-Tab power tracking, modelled in Dafny

Power-Tab is a RimWorld mod that shows a power tab for a power network. It has a tracking engine behind it. That engine keeps a three-level index over the devices of one network:

- a **category** per power type (Battery, Consumer, Producer);
- a **group** per device type (`ThingDef`);
- a **tracker** per device (`PowerTrackerThing`).

Each level reports a current and a desired power output, and each level's figure is the sum of the level below.

This project models that engine and proves what it promises:

- **Registry** (`power_tracker.dfy`, module `Registry`). `PowerTracker` holds the three dictionaries as `map` fields and updates them in place.
  - The consistency of the three indexes is a predicate, `Valid()`. It says:
    - every tracker wraps its own key;
    - every tracker is a member of its device type's group, and every group member is a tracked tracker;
    - no group holds a tracker twice, and no category holds a group twice;
    - every group carries the power type of its device type, and every category holds only groups of its own power type;
    - every group sits in the category of its power type.
  - The constructor establishes `Valid()`. `AddTracker`, `RemoveTrackersExcept` and a tracked `RemoveTracker` (`Untrack`) preserve it.
- **Groups and categories** (`power_tracker_group.dfy`, `power_tracker_category.dfy`). These are the one-argument copies the registry uses. Each is a class with a mutable child list, a guarded append and the two sums; the groups also have `List.Remove`.
- **Labelled copies** (`labelled.dfy`). The group copy adds a label and the `Expanded` flag. The category copy adds the `Label` switch.
- **Per-device trackers** (`power_tracker_thing.dfy`). These are the classification by component class and the two readings. Both copies of `PowerTrackerThing` have the same logic, so one class models them.
- **Sums** (`sums.dfy`, `outcomes.dfy`).
  - LINQ `Sum` is modelled over readings that may throw: the first exception wins.
  - A category's sum of group sums is proved equal to the flat sum over every member of every group.
- **Ratcheting components** (`comp_power_tracker.dfy`, `test_comp.dfy`, `ratchet.dfy`). The two components keep a running maximum of observed output.
  - `CompPowerTracker` ratchets producers only.
  - `TestComp` ratchets every device.
- **`PowerNetElements`** (`power_net_elements.dfy`). It files network members into batteries, plants and consumers.

How the host game is represented (`host.dfy`):

- A game power component is the class `Host.CompPower`, and object identity is the dictionary key.
- What a device is never changes: its device type, its most-derived component class (`CompKind`), its declared consumption and capacity, and whether it has a power switch. These are constants.
- A device type declares its power component's class, so the class is part of `ThingDef`, and every device of one type has a component of that class.
- The readings the game updates are variables: `PowerOutput`, `StoredEnergy` and `SwitchIsOn`.
- Power values are integers within the finite range of `float` (`Host.Float`). `float.MinValue` is the lowest value.
- A call that can throw returns `Result`, and a call that returns nothing returns `Outcome`.

## Model

| member | source | states |
|---|---|---|
| Outcomes.Total | Source/PowerTrackerGroup.cs:31 | LINQ `Sum` over selected values succeeds exactly when every selector call does. The empty sum is 0. A failing sum carries the first exception in list order. |
| Outcomes.TotalAppend | Source/PowerTrackerGroup.cs:31 | The sum of a concatenation is the sum of the two partial sums, and the first exception still wins. |
| Lists.AddIfAbsent | Source/PowerTrackerGroup.cs:48-49 | After the guarded append, the element is present. A list that already holds it is unchanged. Nothing other than it is added, the old list is an unchanged prefix, the length grows by at most one, and a duplicate-free list stays duplicate-free. |
| Lists.RemoveFirst | Source/PowerTrackerGroup.cs:54 | `List.Remove` takes away exactly one occurrence (as multisets). When the element is present the list shrinks by one; when it is absent the list is unchanged. |
| Lists.RemoveFirstIsWithout | Source/PowerTracker/PowerTrackerGroup.cs:67-70 | In a list without duplicates, `Remove` takes the element out completely and keeps the other elements in their order. The result has no duplicates. |
| Host.ClassifyKind | Source/PowerTrackerThing.cs:23-29 | The component-class switch throws `ArgumentOutOfRangeException` exactly for a component that is neither a battery nor a trader. Otherwise it yields a real power type matching the class, with the plant case tested before the trader case. |
| Sums.ItemOutput | Source/PowerTrackerThing.cs:37-60 | An item's reading throws exactly for an unclassifiable component. A battery reads 0. A trader's current output is its `PowerOutput`, and its desired output is its negated `basePowerConsumption`. |
| Sums.SumOfGroupSumsIsFlatSum | Source/PowerTrackerCategory.cs:29-36 | Adding up the group sums gives the flat sum over all members of all groups, including which exception is thrown. |
| Sums.CategorySum | Source/PowerTracker/PowerTrackerCategory.cs:43-50 | A category's sum equals the flat sum over all items of its groups, and is 0 with no groups. |
| Things.PowerTrackerThing.constructor | Source/PowerTrackerThing.cs:12-17 | The tracker stores the given component. The field is a constant, so the component never changes. In the labelled copy (Source/PowerTracker/PowerTrackerThing.cs, lines 12-15 and 60) the `CompPower` property is this field. |
| Things.PowerTrackerThing.PowerType | Source/PowerTrackerThing.cs:19-31 | Battery, Producer or Consumer by component class. It throws `ArgumentOutOfRangeException` exactly for any other component. The labelled copy (lines 17-29) is the same. |
| Things.PowerTrackerThing.CurrentPowerOutput | Source/PowerTrackerThing.cs:37-45 | For a consumer or producer, the trader's `PowerOutput`. For a battery, 0. It throws exactly when the classification does. The labelled copy (lines 35-43) is the same. |
| Things.PowerTrackerThing.DesiredPowerOutput | Source/PowerTrackerThing.cs:52-60 | For a consumer or producer, the negated `basePowerConsumption`. For a battery, 0. It throws exactly when the classification does. The labelled copy (lines 50-58) is the same. |
| Things.MemberSum | Source/PowerTrackerGroup.cs:31-38 | A group's sum is the sum of its members' readings. It throws exactly when some member cannot be classified, and is 0 with no members. |
| Things.AppendedMemberSum | Source/PowerTrackerGroup.cs:46-50 | A member appended last adds exactly its own reading to the group's sum. |
| Groups.PowerTrackerGroup.constructor | Source/PowerTrackerGroup.cs:21-25 | A new group has no children and the given power type. |
| Groups.PowerTrackerGroup.CurrentPowerOutput | Source/PowerTrackerGroup.cs:31 | The sum of the children's current readings. It fails exactly when a child cannot be classified, and is 0 when empty. |
| Groups.PowerTrackerGroup.DesiredPowerOutput | Source/PowerTrackerGroup.cs:38 | The sum of the children's desired readings. It fails exactly when a child cannot be classified, and is 0 when empty. |
| Groups.PowerTrackerGroup.AddTrackerThing | Source/PowerTrackerGroup.cs:46-50 | The children become the guarded append, which is idempotent. Both sums are unchanged for a present tracker; for an absent one they grow by its reading. |
| Groups.PowerTrackerGroup.RemoveTrackerThing | Source/PowerTrackerGroup.cs:52-55 | The children become `RemoveFirst` of the old children: a no-op when the tracker is absent, one fewer element when it is present. |
| Categories.PowerTrackerCategory.constructor | Source/PowerTrackerCategory.cs:19-23 | A new category has no groups and the given power type. |
| Categories.PowerTrackerCategory.CurrentPowerOutput | Source/PowerTrackerCategory.cs:29 | The sum of the group sums equals the flat sum of current readings over all members of all groups, and is 0 with no groups. |
| Categories.PowerTrackerCategory.DesiredPowerOutput | Source/PowerTrackerCategory.cs:36 | The same for desired readings. |
| Categories.PowerTrackerCategory.AddTrackerGroup | Source/PowerTrackerCategory.cs:43-47 | The children become the guarded append by identity: only an absent group is appended, at the end. |
| Labelled.LabelledGroup.constructor | Source/PowerTracker/PowerTrackerGroup.cs:31-36 | A new group has no children and is collapsed. It stores the given label and power type. |
| Labelled.LabelledGroup.CurrentPowerOutput | Source/PowerTracker/PowerTrackerGroup.cs:13-42 | The sum of the children's current readings, 0 when empty. It fails exactly when a child cannot be classified. |
| Labelled.LabelledGroup.DesiredPowerOutput | Source/PowerTracker/PowerTrackerGroup.cs:13-49 | The sum of the children's desired readings, 0 when empty. It fails exactly when a child cannot be classified. |
| Labelled.LabelledGroup.AddTrackerThing | Source/PowerTracker/PowerTrackerGroup.cs:57-61 | The guarded append, which is idempotent, keeps the children duplicate-free and leaves `Expanded` alone. The sums grow by exactly a new member's readings. |
| Labelled.LabelledGroup.RemoveTrackerThing | Source/PowerTracker/PowerTrackerGroup.cs:67-70 | `Remove` of the first occurrence, leaving `Expanded` alone. Without duplicates, the tracker is gone afterwards and the others keep their order. |
| Labelled.CategoryLabel | Source/PowerTracker/PowerTrackerCategory.cs:14-26 | "Batteries", "Consumers" or "Producers" for the three power types. Any other value throws `ArgumentOutOfRangeException`. |
| Labelled.CategoryLabelsDistinct | Source/PowerTracker/PowerTrackerCategory.cs:14-26 | Every classification a device can have is labelled, and different power types get different labels. |
| Labelled.LabelledCategory.Label | Source/PowerTracker/PowerTrackerCategory.cs:14-26 | The label of the category's power type as `Labelled.CategoryLabel` gives it: it throws exactly for `None`, and no category of another power type shows the same label. |
| Labelled.LabelledCategory.constructor | Source/PowerTracker/PowerTrackerCategory.cs:33-37 | A new category has no groups and the given power type. |
| Labelled.LabelledCategory.CurrentPowerOutput | Source/PowerTracker/PowerTrackerCategory.cs:43 | The flat sum of current readings over all members of all groups, and 0 with no groups. |
| Labelled.LabelledCategory.DesiredPowerOutput | Source/PowerTracker/PowerTrackerCategory.cs:50 | The flat sum of desired readings over all members of all groups, and 0 with no groups. |
| Labelled.LabelledCategory.AddTrackerGroup | Source/PowerTracker/PowerTrackerCategory.cs:57-61 | Groups are appended only when absent, so none appears twice. There is no removal. |
| Ratchet.Observe | Source/CompPowerTracker.cs:17-18 | One tick never lowers the stored maximum. Where the ratchet applies, the maximum covers the sample (a signed comparison); elsewhere it is unchanged. The result is always the old maximum or the sample. |
| Ratchet.RatchetedIsRunningMax | Source/TestComp.cs:26-32 | Over any run of ticks, the maximum stays at or above its start and covers every sample the ratchet applied to. It is always the start or one of the samples, and it is unchanged where the ratchet does not apply. |
| Ratchet.RatchetedMonotone | Source/CompPowerTracker.cs:13-19 | A higher start never gives a lower maximum after the same ticks. |
| CompPowerTrackers.CompPowerTracker.constructor | Source/CompPowerTracker.cs:53 | The observed maximum starts at `float.MinValue`. |
| CompPowerTrackers.CompPowerTracker.CurrentPowerOutput | Source/CompPowerTracker.cs:28-49 | For a consumer or producer: 0 while a power switch is off, otherwise the trader's `PowerOutput`. For a battery: its stored energy. It throws exactly when the classification does. |
| CompPowerTrackers.CompPowerTracker.DesiredPowerOutput | Source/CompPowerTracker.cs:60-62 | A battery's `storedEnergyMax`. For a trader, the larger of the negated declared consumption and the observed maximum, so never below the declared value. A device with neither component throws a null reference. |
| CompPowerTrackers.CompPowerTracker.PowerType | Source/CompPowerTracker.cs:64-67 | Battery for a battery. Otherwise Producer exactly when the desired output is not negative, and Consumer when it is. |
| CompPowerTrackers.CompPowerTracker.CompTick | Source/CompPowerTracker.cs:13-19 | The maximum never decreases. For a producer it rises to cover the current output; for anything else it is unchanged. The device's power type is the same afterwards. |
| TestComps.TestComp.constructor | Source/TestComp.cs:50 | The observed maximum starts at `float.MinValue`. |
| TestComps.TestComp.TransformLabel | Source/TestComp.cs:21-24 | The label followed by exactly " (patched)". |
| TestComps.TestComp.PowerType | Source/TestComp.cs:66-78 | Battery, Producer or Consumer by component class. It throws `ArgumentOutOfRangeException` for any other component. |
| TestComps.TestComp.CurrentPowerOutput | Source/TestComp.cs:38-46 | For a consumer or producer, the trader's `PowerOutput`. For a battery, 0. |
| TestComps.TestComp.DesiredPowerOutput | Source/TestComp.cs:56-64 | For a consumer or producer, the larger of the negated `basePowerConsumption` and the observed maximum, so at least the declared value. For a battery, 0. |
| TestComps.TestComp.CompTick | Source/TestComp.cs:26-32 | For every classifiable device, the maximum rises to cover the current output and never decreases. An unclassifiable device throws and changes nothing. |
| NetElements.PowerNetElements.constructor | Source/PowerNetElements.cs:13-18 | All three lists start empty. |
| NetElements.PowerNetElements.AddBattery | Source/PowerNetElements.cs:20-23 | The battery is appended to the batteries, and the other two lists are unchanged. |
| NetElements.PowerNetElements.AddPowerComponent | Source/PowerNetElements.cs:25-32 | A plant is appended to the plants, and any other trader to the consumers. Exactly one list grows, by one element, and each list holds only its own kind. |
| NetElements.PowerNetElements.Batteries | Source/PowerNetElements.cs:34 | Exactly the stored battery list, in insertion order, holding only batteries. |
| NetElements.PowerNetElements.PowerPlants | Source/PowerNetElements.cs:36 | Exactly the stored plant list, in insertion order, holding only plants. |
| NetElements.PowerNetElements.Consumers | Source/PowerNetElements.cs:38 | Exactly the stored consumer list, in insertion order, holding only consumers. |
| Registry.AddPreservesConsistency | Source/PowerTracker.cs:32-48 | Registering a new classifiable component keeps all the index consistency conditions. The registration is: a fresh tracker, appended to the found-or-created group, whose group is added to the found-or-created category. |
| Registry.RemovePreservesConsistency | Source/PowerTracker.cs:59-60 | Dropping a tracked component from its group and from the trackers keeps the indexes consistent, and leaves no group member tracking it. |
| Registry.PowerTracker.constructor | Source/PowerTracker.cs:16-21 | The three dictionaries start empty, and the registry is consistent. |
| Registry.PowerTracker.GroupFor | Source/PowerTracker.cs:36-39 | The group of a device type is created with the given power type only when missing. No member list changes, and device types never share a group. |
| Registry.PowerTracker.AdmitToGroup | Source/PowerTracker.cs:40 | Only the member list of that device type changes, and it becomes the guarded append of the tracker. |
| Registry.PowerTracker.JoinGroup | Source/PowerTracker.cs:36-40 | Find-or-create the group, then add the tracker. The group index gains at most this one entry, and only this group's members change. |
| Registry.PowerTracker.CategoryFor | Source/PowerTracker.cs:45-46 | The category of a power type is created only when missing. Each category stays keyed by its own power type. |
| Registry.PowerTracker.AdmitToCategory | Source/PowerTracker.cs:48 | Only the member list of that power type changes, and it becomes the guarded append of the group. |
| Registry.PowerTracker.JoinCategory | Source/PowerTracker.cs:45-48 | Find-or-create the category, then add the group unless it is already there. No group's members change. |
| Registry.PowerTracker.Register | Source/PowerTracker.cs:32-48 | A fresh tracker under the component's key is appended last to its device type's group, and that group joins its power type's category. A group or category is created only when missing. |
| Registry.PowerTracker.AddTracker | Source/PowerTracker.cs:27-49 | It keeps `Valid()` and is idempotent: a tracked component changes nothing. An unclassifiable component is refused with `ArgumentOutOfRangeException` before anything changes. Otherwise the component gets a fresh tracker, which is the last member of its device type's group; that group is in its power type's category; and a group or category is created only when missing. |
| Registry.PowerTracker.AddTrackerAsWritten | Source/PowerTracker.cs:27-49 | The original order, on a registry whose groups are distinct and whose categories are keyed by their own power type (both part of `Valid()`, and both kept). An unclassifiable component is left tracked when the exception escapes, and no category's member list changes. If its device type's group already existed, only that group's member list changes, by the guarded append; otherwise no member list changes and the tracker is in no group. A classifiable component gets the same registration as with the corrected `AddTracker`: the same tracker, group and category entries, and the same group and category member-list maps. |
| Registry.PowerTracker.FileAsWritten | Source/PowerTracker.cs:36-48 | The group step, then the category step, which an exception from the group step skips. Failure happens exactly for an unclassifiable component; it leaves both indexes and every category's member list unchanged, and changes only the existing group's member list, if there is one. Success gives the find-or-create results and the new group and category member-list maps. |
| Registry.PowerTracker.GroupStepAsWritten | Source/PowerTracker.cs:36-40 | The group is created with the tracker's power type only when missing, which throws for an unclassifiable component; then neither the group index nor any group's member list changes. An existing group takes the tracker by the guarded append, and the index stays the same. On success only that device type's member list changes. No category's member list ever changes, and the groups stay distinct. |
| Registry.PowerTracker.CategoryStepAsWritten | Source/PowerTracker.cs:45-48 | Asking the power type throws exactly for an unclassifiable component; then neither the category index nor any category's member list changes. Otherwise the category is created only when missing and given the group by the guarded append, and only that power type's member list changes. No group's member list ever changes, and each category stays keyed by its own power type. |
| Registry.PowerTracker.RemoveTracker | Source/PowerTracker.cs:55-61 | It is a no-op for an untracked component, or one whose device type has no group. Otherwise the component leaves the trackers, and its tracker leaves its group by `RemoveFirst`. Every other group's members, and the group and category indexes, are unchanged. |
| Registry.PowerTracker.DropTracker | Source/PowerTracker.cs:59-60 | The two removal steps: the tracker leaves its group, then the component leaves the trackers. |
| Registry.PowerTracker.Untrack | Source/PowerTracker.cs:55-61 | On a consistent registry and a tracked component, removal keeps `Valid()`, changes only its device type's member list, and leaves no member tracking the component. |
| Registry.PowerTracker.RemoveTrackersExcept | Source/PowerTracker.cs:67-72 | It keeps `Valid()`. The tracked keys become exactly the old tracked keys that are in the keep list, the kept trackers are the same objects as before, and the group and category indexes are unchanged. |
| Registry.PowerTracker.GetTracker | Source/PowerTracker.cs:79-83 | Null exactly when the component is untracked; otherwise its tracker. It reads the state and changes nothing. |
| Registry.PowerTracker.TrackerIsGrouped | Source/PowerTracker.cs:27-61 | Under the invariant every operation keeps, a tracker found for a component tracks it and is in its device type's group, and that group is in the category of its power type. |
| Registry.PowerTracker.GroupsAreHomogeneous | Source/PowerTracker.cs:36-40 | Under the invariant, every member of a group is of that group's device type and has that group's power type, so no group is mixed. |
| Registry.PowerTracker.GroupInOneCategory | Source/PowerTracker.cs:43-48 | Under the invariant, a tracked component's group is in the category of its power type, in no other category, and only once there, so category sums count each group once. |
| Registry.StrandedTracker | Source/PowerTracker.cs:32-57 | A conduit added to an empty registry in the original order throws and is left tracked in no group, and `RemoveTracker` then refuses to remove it. |
| Registry.RefusedConduit | Source/PowerTracker.cs:27-57 | With the corrected order the same conduit is refused, and the registry stays empty. |

## Left out

- Rendering, layout, the tab and UI factory, the Harmony patches, the mod bootstrap, and the throttled rebuild of trackers from the game's power net. That is host-game glue, with no tracking logic.
- `TestComp.CompInspectStringExtra`: it only formats floats into a string.
- Floating point: readings are integers within the range of `float`. Sums are unbounded integers, so float rounding, overflow to infinity and NaN are not modelled.
- The game's component class hierarchy is abstracted into `Host.CompKind` (the most-derived class). `TryGetComp` probing assumes one power component per device.
- `PowerConsumption` in `CompPowerTracker.DesiredPowerOutput` is modelled as the declared `basePowerConsumption`.
- The game updates readings between calls. The model has them as mutable fields that nothing in the model writes.
- The declaration of the `PowerType` enumeration is not part of this model. It is taken to have the three classification values plus `None`, the value the category label's default branch covers.
- A publicly toggled `Expanded` flag is a field. Nothing in the model toggles it, as only the interface does.
- The labelled `PowerTrackerThing` copy is modelled by the same class as the root copy. Its logic is identical.
- Registry.PowerTracker.RemoveTrackersExcept: the order in which `Except` yields the removed keys is left open (any order). It requires `Valid()`, the invariant the constructor establishes and every operation keeps. Without that invariant, a tracked key might have no group and so would not be removed.
- Registry.PowerTracker.AddTracker: requires `Valid()`, the invariant the constructor establishes and the other operations keep.
- Registry.PowerTracker.RemoveTracker: does not itself state that `Valid()` is kept. `Registry.PowerTracker.Untrack` states it for a tracked component; for the other inputs, `RemoveTracker` changes nothing.
- Groups.PowerTrackerGroup.RemoveTrackerThing: that the tracker is gone and the order is kept in a duplicate-free list is stated by `Lists.RemoveFirstIsWithout`, not by the method.
- Group homogeneity: "all items of a group are of one device type" is documented but not enforced by the aggregates themselves. The registry invariant states it, with the shared power type, for the registry's groups (`Registry.PowerTracker.GroupsAreHomogeneous`).

## Findings

| source | as written | input that shows it | evidently intended | confidence | as-written member | corrected member |
|---|---|---|---|---|---|---|
| Source/PowerTracker.cs:32-48 | `AddTracker` stores the new tracker (line 33) before asking its power type (lines 39 and 45). That question throws for a component that is neither a battery nor a trader. | A conduit's power component added to an empty registry: the exception escapes, the conduit stays tracked with no group, and `RemoveTracker` (line 57) can never remove it. | Classify first, and leave the registry unchanged when classification fails. | not executed | Registry.PowerTracker.AddTrackerAsWritten (Registry.StrandedTracker) | Registry.PowerTracker.AddTracker (Registry.RefusedConduit) |
