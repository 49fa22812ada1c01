/** The experimental per-device component that classifies by component kind and ratchets the
    observed output of every device, not only producers (Source/TestComp.cs). */
module TestComps {
  import opened Outcomes
  import opened Host
  import opened Sums
  import opened Ratchet

  /** Monitors the power figures of the device it is attached to. */
  class TestComp {
    /** The power component of the parent device. */
    const parent: CompPower
    /** `_maxObservedPowerOutput`: starts at `float.MinValue`, below every reading. */
    var maxObserved: Float

    constructor(parent: CompPower)
      ensures this.parent == parent && maxObserved == FloatMin
    {
      this.parent := parent;
      maxObserved := FloatMin;
    }

    /** `TransformLabel`: the device's label with " (patched)" appended. */
    function TransformLabel(original: string): (r: string)
      ensures |r| == |original| + 10
      ensures r[..|original|] == original && r[|original|..] == " (patched)"
    {
      original + " (patched)"
    }

    /** `PowerType`: Battery for a battery, Producer for a plant, Consumer for any other
        trader, and an exception for any other component. */
    function PowerType(): (r: Result<PowerType>)
      ensures r.Thrown? <==> parent.kind == OtherComp
      ensures r.Thrown? ==> r.exception == ArgumentOutOfRange
      ensures r.Ok? ==> r.value != None && KindOf(r.value) == parent.kind
    {
      ClassifyKind(parent.kind)
    }

    /** `CurrentPowerOutput`: the trader's output for a consumer or producer, 0 for a battery
        (no power switch is consulted here). */
    function CurrentPowerOutput(): (r: Result<Float>)
      reads parent
      ensures r.Thrown? <==> PowerType().Thrown?
      ensures r.Ok? && PowerType().value in {Consumer, Producer} ==> r.value == parent.powerOutput
      ensures r.Ok? && PowerType().value == Battery ==> r.value == 0
    {
      ItemOutput(parent, Current)
    }

    /** `DesiredPowerOutput`: for a consumer or producer the larger of the declared output and
        the observed maximum, so never below the declared value; 0 for a battery. */
    function DesiredPowerOutput(): (r: Result<Float>)
      reads this
      ensures r.Thrown? <==> PowerType().Thrown?
      ensures r.Ok? && PowerType().value in {Consumer, Producer} ==>
                && r.value >= -parent.basePowerConsumption && r.value >= maxObserved
                && (r.value == -parent.basePowerConsumption || r.value == maxObserved)
      ensures r.Ok? && PowerType().value == Battery ==> r.value == 0
    {
      match PowerType()
      case Thrown(e) => Thrown(e)
      case Ok(p) =>
        if p == Consumer || p == Producer then Ok(Max(-parent.basePowerConsumption, maxObserved))
        else Ok(0)
    }

    /** `CompTick`: the observed maximum rises to the current output whenever that is higher,
        whatever the device's type. */
    method CompTick() returns (outcome: Outcome)
      modifies this
      ensures outcome.Failed? <==> parent.kind == OtherComp
      ensures outcome.Failed? ==> outcome.exception == ArgumentOutOfRange && maxObserved == old(maxObserved)
      ensures outcome.Done? ==> maxObserved == Observe(old(maxObserved), CurrentPowerOutput().value, true)
      ensures maxObserved >= old(maxObserved)
      ensures outcome.Done? ==> maxObserved >= CurrentPowerOutput().value
    {
      var current := CurrentPowerOutput();
      if current.Thrown? {
        return Failed(current.exception);
      }
      if current.value > maxObserved {
        maxObserved := current.value;
      }
      outcome := Done;
    }
  }
}
