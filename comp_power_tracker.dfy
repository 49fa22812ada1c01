/** The per-device component that derives a device's classification from its desired output and
    ratchets the observed output of producers (Source/CompPowerTracker.cs). */
module CompPowerTrackers {
  import opened Outcomes
  import opened Host
  import opened Ratchet

  /** Monitors the power figures of the device it is attached to. */
  class CompPowerTracker {
    /** The power component of the parent device. */
    const parent: CompPower
    /** `_maxObservedPowerOutput`: starts at `float.MinValue`, below every reading. */
    var maxObserved: Float

    constructor(parent: CompPower)
      ensures this.parent == parent && maxObserved == FloatMin
    {
      this.parent := parent;
      maxObserved := FloatMin;
    }

    /** `DesiredPowerOutput`: a battery's capacity; for a trader the larger of the declared
        output (the negated consumption) and the observed maximum, so never below the declared
        value; a device with neither component has no trader to ask and throws a null
        reference. */
    function DesiredPowerOutput(): (r: Result<Float>)
      reads this
      ensures r.Thrown? <==> parent.kind == OtherComp
      ensures r.Thrown? ==> r.exception == NullReference
      ensures parent.kind == BatteryComp ==> r == Ok(parent.storedEnergyMax)
      ensures parent.kind.IsTrader() ==>
                && r.Ok? && r.value >= -parent.basePowerConsumption && r.value >= maxObserved
                && (r.value == -parent.basePowerConsumption || r.value == maxObserved)
    {
      if parent.kind == BatteryComp then Ok(parent.storedEnergyMax)
      else if parent.kind.IsTrader() then Ok(Max(-parent.basePowerConsumption, maxObserved))
      else Thrown(NullReference)
    }

    /** `PowerType`: Battery for a battery; otherwise Producer exactly when the desired output
        is not negative, and Consumer when it is. A plant that declares consumption stays a
        Consumer: the ratchet applies only to producers, so it never applies to that plant. */
    function PowerType(): (r: Result<PowerType>)
      reads this
      ensures r.Thrown? <==> parent.kind == OtherComp
      ensures r.Thrown? ==> r.exception == NullReference
      ensures parent.kind == BatteryComp ==> r == Ok(Battery)
      ensures parent.kind.IsTrader() ==>
                r.Ok? && r.value in {Producer, Consumer}
                && (r.value == Producer <==> DesiredPowerOutput().value >= 0)
    {
      if parent.kind == BatteryComp then Ok(Battery)
      else
        match DesiredPowerOutput()
        case Thrown(e) => Thrown(e)
        case Ok(desired) => Ok(if desired >= 0 then Producer else Consumer)
    }

    /** `CurrentPowerOutput`: for a consumer or producer the trader's output, except 0 while a
        power switch on the device is off; for a battery its stored energy. */
    function CurrentPowerOutput(): (r: Result<Float>)
      reads this, parent
      ensures r.Thrown? <==> PowerType().Thrown?
      ensures r.Thrown? ==> r.exception == NullReference
      ensures parent.kind == BatteryComp ==> r == Ok(parent.storedEnergy)
      ensures parent.kind.IsTrader() && parent.flickable && !parent.switchIsOn ==> r == Ok(0)
      ensures parent.kind.IsTrader() && !(parent.flickable && !parent.switchIsOn) ==> r == Ok(parent.powerOutput)
    {
      // the classification is never None, so the switch's default branch is not needed
      match PowerType()
      case Thrown(e) => Thrown(e)
      case Ok(p) =>
        if p == Battery then Ok(parent.storedEnergy)
        else if parent.flickable && !parent.switchIsOn then Ok(0)
        else Ok(parent.powerOutput)
    }

    /** `CompTick`: a producer's observed maximum rises to its current output when that is
        higher; nothing else changes, and the classification of the device stays the same. */
    method CompTick() returns (outcome: Outcome)
      modifies this
      ensures outcome.Failed? <==> parent.kind == OtherComp
      ensures outcome.Failed? ==> outcome.exception == NullReference && maxObserved == old(maxObserved)
      ensures outcome.Done? ==>
                maxObserved == Observe(old(maxObserved), old(CurrentPowerOutput()).value, old(PowerType()) == Ok(Producer))
      ensures maxObserved >= old(maxObserved)
      ensures old(PowerType()) == Ok(Producer) ==> maxObserved >= CurrentPowerOutput().value
      ensures old(PowerType()) != Ok(Producer) ==> maxObserved == old(maxObserved)
      ensures PowerType() == old(PowerType())
    {
      var current := CurrentPowerOutput();
      if current.Thrown? {
        return Failed(current.exception);
      }
      if current.value > maxObserved && PowerType() == Ok(Producer) {
        maxObserved := current.value;
      }
      outcome := Done;
    }
  }
}
