/** The labelled copies of the group and category aggregates (Source/PowerTracker/), which also
    carry a display label and, for a group, whether its rows are expanded. Their members are
    the same per-device trackers as the registry's. */
module Labelled {
  import opened Outcomes
  import opened Host
  import opened Lists
  import opened Sums
  import opened Things

  /** Tracks power for every tracked device of one device type, under a label. */
  class LabelledGroup {
    /** `Children`: the member trackers, in insertion order. */
    var children: seq<PowerTrackerThing>
    /** `Expanded`: whether the group's rows are shown; a public field the interface toggles. */
    var expanded: bool
    /** The power type given at construction. */
    const powerType: PowerType
    /** The label given at construction (the `LabelCap` of a device of this type). */
    const groupLabel: string

    constructor(groupLabel: string, powerType: PowerType)
      ensures children == [] && !expanded
      ensures this.groupLabel == groupLabel && this.powerType == powerType
    {
      children := [];
      expanded := false;
      this.groupLabel := groupLabel;
      this.powerType := powerType;
    }

    /** The members' components, in member order. */
    function Comps(): seq<CompPower>
      reads this
    {
      CompsOf(children)
    }

    /** `Children.Sum(t => t.CurrentPowerOutput)` or the same sum of desired outputs. */
    function Output(m: Measure): Result<int>
      reads this, Comps()
    {
      MemberSum(children, m)
    }

    /** `CurrentPowerOutput`: the sum of the members' current outputs; it throws exactly when
        a member cannot be classified, and is 0 without members. */
    function CurrentPowerOutput(): (r: Result<int>)
      reads this, Comps()
      ensures r == Total(Readings(children, Current))
      ensures r.Ok? <==> forall i | 0 <= i < |children| :: children[i].PowerType().Ok?
      ensures children == [] ==> r == Ok(0)
    {
      Output(Current)
    }

    /** `DesiredPowerOutput`: the sum of the members' desired outputs; it throws exactly when
        a member cannot be classified, and is 0 without members. */
    function DesiredPowerOutput(): (r: Result<int>)
      reads this, Comps()
      ensures r == Total(Readings(children, Desired))
      ensures r.Ok? <==> forall i | 0 <= i < |children| :: children[i].PowerType().Ok?
      ensures children == [] ==> r == Ok(0)
    {
      Output(Desired)
    }

    /** Adds a tracker unless it is already a member, leaving `Expanded` alone; a new member
        goes last and adds exactly its readings to the sums. */
    method AddTrackerThing(t: PowerTrackerThing)
      modifies this
      ensures children == AddIfAbsent(old(children), t)
      ensures expanded == old(expanded)
      ensures NoDuplicates(old(children)) ==> NoDuplicates(children)
      ensures forall m :: Output(m) == if t in old(children) then old(Output(m)) else Plus(old(Output(m)), t.Output(m))
    {
      if t !in children {
        children := children + [t];
        forall m: Measure ensures Output(m) == Plus(old(Output(m)), t.Output(m)) {
          AppendedMemberSum(old(children), t, m);
        }
      }
    }

    /** `Children.Remove`: drops the first occurrence of a tracker, if any, leaving `Expanded`
        alone; in a list without duplicates the tracker is gone afterwards and the others keep
        their order. */
    method RemoveTrackerThing(t: PowerTrackerThing)
      modifies this
      ensures children == RemoveFirst(old(children), t)
      ensures expanded == old(expanded)
      ensures NoDuplicates(old(children)) ==>
                children == Without(old(children), t) && t !in children && NoDuplicates(children)
    {
      if NoDuplicates(children) {
        RemoveFirstIsWithout(children, t);
      }
      children := RemoveFirst(children, t);
    }
  }

  /** The components of each group of a list of labelled groups, group by group:
      `Categories.GroupComps` for the labelled copy, which is a class of its own. */
  function LabelledComps(gs: seq<LabelledGroup>): (css: seq<seq<CompPower>>)
    reads gs
    ensures |css| == |gs|
    ensures forall i | 0 <= i < |gs| :: css[i] == gs[i].Comps()
  {
    if gs == [] then [] else [gs[0].Comps()] + LabelledComps(gs[1..])
  }

  /** The display name of a category: the plural of its power type; `None` has none. */
  function CategoryLabel(p: PowerType): (r: Result<string>)
    ensures r.Thrown? <==> p == None
    ensures r.Thrown? ==> r.exception == ArgumentOutOfRange
    ensures p == Battery ==> r == Ok("Batteries")
    ensures p == Consumer ==> r == Ok("Consumers")
    ensures p == Producer ==> r == Ok("Producers")
  {
    match p
    case Battery => Ok("Batteries")
    case Consumer => Ok("Consumers")
    case Producer => Ok("Producers")
    case None => Thrown(ArgumentOutOfRange)
  }

  /** Every classification a device can receive has a label, and different power types are
      shown under different labels. */
  lemma CategoryLabelsDistinct(p: PowerType, q: PowerType)
    requires p != None && q != None
    ensures CategoryLabel(p).Ok? && CategoryLabel(q).Ok?
    ensures p != q ==> CategoryLabel(p).value != CategoryLabel(q).value
  {
    match p
    case Battery => assert CategoryLabel(p).value[0] == 'B';
    case Consumer => assert CategoryLabel(p).value[0] == 'C';
    case Producer => assert CategoryLabel(p).value[0] == 'P';
  }

  /** Tracks power for every labelled group of one power type. */
  class LabelledCategory {
    /** `Children`: the member groups, in insertion order; a group is never removed. */
    var children: seq<LabelledGroup>
    /** The power type given at construction. */
    const powerType: PowerType

    constructor(powerType: PowerType)
      ensures children == [] && this.powerType == powerType
    {
      children := [];
      this.powerType := powerType;
    }

    /** `Label`: "Batteries", "Consumers" or "Producers" by power type (`CategoryLabel`);
        throws otherwise. No category of another power type shows the same label. */
    function Label(): (r: Result<string>)
      ensures r.Thrown? <==> powerType == None
      ensures r.Ok? ==> r == CategoryLabel(powerType)
      ensures r.Ok? ==> forall q | q != None && q != powerType :: CategoryLabel(q) != r
    {
      CategoryLabel(powerType)
    }

    /** Every component the category's sums read. */
    ghost function Footprint(): set<CompPower>
      reads this, children
    {
      NestedFootprint(LabelledComps(children))
    }

    /** `Children.Sum(t => t.CurrentPowerOutput)` or the same sum of desired outputs. */
    function Output(m: Measure): Result<int>
      reads this, children, Footprint()
    {
      CategorySum(LabelledComps(children), m)
    }

    /** `CurrentPowerOutput`: the sum of the group sums, which is the flat sum of the current
        outputs of all members of all groups, and 0 without groups. */
    function CurrentPowerOutput(): (r: Result<int>)
      reads this, children, Footprint()
      ensures r == SumOutputs(Flatten(LabelledComps(children)), Current)
      ensures children == [] ==> r == Ok(0)
    {
      Output(Current)
    }

    /** `DesiredPowerOutput`: the sum of the group sums, which is the flat sum of the desired
        outputs of all members of all groups, and 0 without groups. */
    function DesiredPowerOutput(): (r: Result<int>)
      reads this, children, Footprint()
      ensures r == SumOutputs(Flatten(LabelledComps(children)), Desired)
      ensures children == [] ==> r == Ok(0)
    {
      Output(Desired)
    }

    /** Adds a group unless that very group is already a member; the groups present before
        stay, in their order. */
    method AddTrackerGroup(g: LabelledGroup)
      modifies this
      ensures children == AddIfAbsent(old(children), g)
      ensures NoDuplicates(old(children)) ==> NoDuplicates(children)
    {
      if g !in children {
        children := children + [g];
      }
    }
  }
}
