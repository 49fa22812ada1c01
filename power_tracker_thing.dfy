/** The registry's per-device tracker (Source/PowerTrackerThing.cs). */
module Things {
  import opened Outcomes
  import opened Host
  import opened Sums

  /** Tracks power data for one power component, which is fixed when the tracker is made. */
  class PowerTrackerThing {
    /** `_compPower`: the tracked component. */
    const compPower: CompPower

    constructor(compPower: CompPower)
      ensures this.compPower == compPower
    {
      this.compPower := compPower;
    }

    /** Battery for a battery, Producer for a plant, Consumer for any other trader; any
        other component throws. */
    function PowerType(): (r: Result<PowerType>)
      ensures r.Thrown? <==> compPower.kind == OtherComp
      ensures r.Thrown? ==> r.exception == ArgumentOutOfRange
      ensures r.Ok? ==> r.value != None && KindOf(r.value) == compPower.kind
    {
      ClassifyKind(compPower.kind)
    }

    /** The trader's `PowerOutput` for a consumer or producer, 0 for a battery. */
    function CurrentPowerOutput(): (r: Result<Float>)
      reads compPower
      ensures r.Thrown? <==> PowerType().Thrown?
      ensures r.Ok? && PowerType().value in {Consumer, Producer} ==> r.value == compPower.powerOutput
      ensures r.Ok? && PowerType().value == Battery ==> r.value == 0
    {
      ItemOutput(compPower, Current)
    }

    /** The negated `basePowerConsumption` for a consumer or producer, 0 for a battery. */
    function DesiredPowerOutput(): (r: Result<Float>)
      reads compPower
      ensures r.Thrown? <==> PowerType().Thrown?
      ensures r.Ok? && PowerType().value in {Consumer, Producer} ==> r.value == -compPower.basePowerConsumption
      ensures r.Ok? && PowerType().value == Battery ==> r.value == 0
    {
      ItemOutput(compPower, Desired)
    }

    /** The reading that `m` selects. */
    function Output(m: Measure): Result<Float>
      reads compPower
    {
      if m == Current then CurrentPowerOutput() else DesiredPowerOutput()
    }
  }

  /** The components of a list of trackers, in list order. */
  function CompsOf(items: seq<PowerTrackerThing>): (cs: seq<CompPower>)
    ensures |cs| == |items|
    ensures forall i | 0 <= i < |items| :: cs[i] == items[i].compPower
  {
    if items == [] then [] else [items[0].compPower] + CompsOf(items[1..])
  }

  /** The selector `t => t.CurrentPowerOutput` (or the desired output) applied to each tracker. */
  function Readings(items: seq<PowerTrackerThing>, m: Measure): (rs: seq<Result<int>>)
    reads CompsOf(items)
    ensures |rs| == |items|
    ensures forall i | 0 <= i < |items| :: rs[i] == items[i].Output(m)
  {
    if items == [] then []
    else
      assert CompsOf(items) == [items[0].compPower] + CompsOf(items[1..]);
      [items[0].Output(m)] + Readings(items[1..], m)
  }

  /** A tracker reads exactly what its component reports. */
  lemma ReadingsAreOutputs(items: seq<PowerTrackerThing>, m: Measure)
    ensures Readings(items, m) == Outputs(CompsOf(items), m)
  {
  }

  /** A group's sum: the sum of its members' readings, which throws exactly when some member
      cannot be classified, and is 0 for a group without members. */
  function MemberSum(items: seq<PowerTrackerThing>, m: Measure): (r: Result<int>)
    reads CompsOf(items)
    ensures r == Total(Readings(items, m))
    ensures r.Ok? <==> forall i | 0 <= i < |items| :: items[i].PowerType().Ok?
    ensures items == [] ==> r == Ok(0)
  {
    ReadingsAreOutputs(items, m);
    SumOutputs(CompsOf(items), m)
  }

  /** A member appended last adds exactly its own reading to the group's sum. */
  lemma AppendedMemberSum(items: seq<PowerTrackerThing>, t: PowerTrackerThing, m: Measure)
    ensures MemberSum(items + [t], m) == Plus(MemberSum(items, m), t.Output(m))
  {
    assert Readings(items + [t], m) == Readings(items, m) + [t.Output(m)];
    TotalAppend(Readings(items, m), [t.Output(m)]);
  }
}
