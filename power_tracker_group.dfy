/** The registry's group of all tracked devices of one type (Source/PowerTrackerGroup.cs). */
module Groups {
  import opened Outcomes
  import opened Host
  import opened Lists
  import opened Sums
  import opened Things

  /** Tracks power for every tracked device of one device type. */
  class PowerTrackerGroup {
    /** `_children`: the member trackers, in insertion order. */
    var children: seq<PowerTrackerThing>
    /** The power type given at construction. */
    const powerType: PowerType

    constructor(powerType: PowerType)
      ensures children == [] && this.powerType == powerType
    {
      children := [];
      this.powerType := powerType;
    }

    /** The members' components, in member order. */
    function Comps(): seq<CompPower>
      reads this
    {
      CompsOf(children)
    }

    /** `_children.Sum(t => t.CurrentPowerOutput)` or the same sum of desired outputs. */
    function Output(m: Measure): Result<int>
      reads this, Comps()
    {
      MemberSum(children, m)
    }

    /** `CurrentPowerOutput`: the sum of the members' current outputs; it throws exactly when
        a member cannot be classified, and is 0 without members. */
    function CurrentPowerOutput(): (r: Result<int>)
      reads this, Comps()
      ensures r == Total(Readings(children, Current))
      ensures r.Ok? <==> forall i | 0 <= i < |children| :: children[i].PowerType().Ok?
      ensures children == [] ==> r == Ok(0)
    {
      Output(Current)
    }

    /** `DesiredPowerOutput`: the sum of the members' desired outputs; it throws exactly when
        a member cannot be classified, and is 0 without members. */
    function DesiredPowerOutput(): (r: Result<int>)
      reads this, Comps()
      ensures r == Total(Readings(children, Desired))
      ensures r.Ok? <==> forall i | 0 <= i < |children| :: children[i].PowerType().Ok?
      ensures children == [] ==> r == Ok(0)
    {
      Output(Desired)
    }

    /** Adds a tracker unless it is already a member; a new member goes last, so the two
        sums grow by exactly its readings. */
    method AddTrackerThing(t: PowerTrackerThing)
      modifies this
      ensures children == AddIfAbsent(old(children), t)
      ensures forall m :: Output(m) == if t in old(children) then old(Output(m)) else Plus(old(Output(m)), t.Output(m))
    {
      if t !in children {
        children := children + [t];
        forall m: Measure ensures Output(m) == Plus(old(Output(m)), t.Output(m)) {
          AppendedMemberSum(old(children), t, m);
        }
      }
    }

    /** `_children.Remove`: drops the first occurrence of a tracker, if any; in a list without
        duplicates this takes the tracker out completely (`RemoveFirstIsWithout`). */
    method RemoveTrackerThing(t: PowerTrackerThing)
      modifies this
      ensures children == RemoveFirst(old(children), t)
    {
      children := RemoveFirst(children, t);
    }
  }
}
