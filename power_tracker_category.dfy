/** The registry's category of all groups of one power type (Source/PowerTrackerCategory.cs). */
module Categories {
  import opened Outcomes
  import opened Host
  import opened Lists
  import opened Sums
  import opened Groups

  /** The components of each group of a list of groups, group by group. */
  function GroupComps(gs: seq<PowerTrackerGroup>): (css: seq<seq<CompPower>>)
    reads gs
    ensures |css| == |gs|
    ensures forall i | 0 <= i < |gs| :: css[i] == gs[i].Comps()
  {
    if gs == [] then [] else [gs[0].Comps()] + GroupComps(gs[1..])
  }

  /** Tracks power for every group of one power type. */
  class PowerTrackerCategory {
    /** `_children`: the member groups, in insertion order. */
    var children: seq<PowerTrackerGroup>
    /** The power type given at construction. */
    const powerType: PowerType

    constructor(powerType: PowerType)
      ensures children == [] && this.powerType == powerType
    {
      children := [];
      this.powerType := powerType;
    }

    /** Every component the category's sums read. */
    ghost function Footprint(): set<CompPower>
      reads this, children
    {
      NestedFootprint(GroupComps(children))
    }

    /** `_children.Sum(t => t.CurrentPowerOutput)` or the same sum of desired outputs. */
    function Output(m: Measure): Result<int>
      reads this, children, Footprint()
    {
      CategorySum(GroupComps(children), m)
    }

    /** `CurrentPowerOutput`: the sum of the group sums, which is the flat sum of the current
        outputs of all members of all groups, and 0 without groups. */
    function CurrentPowerOutput(): (r: Result<int>)
      reads this, children, Footprint()
      ensures r == SumOutputs(Flatten(GroupComps(children)), Current)
      ensures children == [] ==> r == Ok(0)
    {
      Output(Current)
    }

    /** `DesiredPowerOutput`: the sum of the group sums, which is the flat sum of the desired
        outputs of all members of all groups, and 0 without groups. */
    function DesiredPowerOutput(): (r: Result<int>)
      reads this, children, Footprint()
      ensures r == SumOutputs(Flatten(GroupComps(children)), Desired)
      ensures children == [] ==> r == Ok(0)
    {
      Output(Desired)
    }

    /** Adds a group unless that very group is already a member. */
    method AddTrackerGroup(g: PowerTrackerGroup)
      modifies this
      ensures children == AddIfAbsent(old(children), g)
    {
      if g !in children {
        children := children + [g];
      }
    }
  }
}
