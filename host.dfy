/** The parts of the host game's object model that the power tracking code reads. */
module Host {
  import opened Outcomes

  /** `float.MaxValue` written out as an integer; `float.MinValue` is its negation. */
  const FloatMax: int := 340282346638528859811704183484516925440

  /** A power reading: a single-precision value, modelled as an integer within the finite
      range of `float` (no fractions, rounding, infinities or NaN). */
  type Float = x: int | -FloatMax <= x <= FloatMax

  /** `float.MinValue`, the value below every other reading. */
  const FloatMin: Float := -FloatMax

  /** The tracker's classification of a device. `None` is the enumeration's error value: no
      classification produces it, only the category labels test for it. */
  datatype PowerType = Battery | Consumer | Producer | None

  /** The identity of a device type (a `ThingDef`): all instances of one type share it. A
      device type declares its power component's class (`CompProperties.compClass`), so every
      device of one type has a component of the same class. */
  datatype ThingDef = ThingDef(defName: string, kind: CompKind)

  /** The most-derived runtime class of a power component. `CompPowerPlant` derives from
      `CompPowerTrader`, so a plant is also a trader; `OtherComp` stands for any other
      `CompPower`, such as a conduit's transmitter, which is neither a battery nor a trader. */
  datatype CompKind = BatteryComp | PlantComp | TraderComp | OtherComp {
    /** The component is a `CompPowerTrader` (a consumer or a plant). */
    predicate IsTrader() { PlantComp? || TraderComp? }
  }

  /** A device's power component together with the parts of its parent thing the tracker
      reads. What the device is never changes; its readings are updated by the game. */
  class CompPower {
    /** `parent.def`: the device type. */
    const def: ThingDef
    /** The component's runtime class, the one its device type declares. */
    const kind: CompKind := def.kind
    /** `Props.basePowerConsumption` of a trader (negative for producers). */
    const basePowerConsumption: Float
    /** `Props.storedEnergyMax` of a battery. */
    const storedEnergyMax: Float
    /** The parent thing has a `CompFlickable` (a power switch). */
    const flickable: bool
    /** `CompPowerTrader.PowerOutput`: signed; negative while consuming, off or not. */
    var powerOutput: Float
    /** `CompPowerBattery.StoredEnergy`. */
    var storedEnergy: Float
    /** `CompFlickable.SwitchIsOn`. */
    var switchIsOn: bool

    constructor(def: ThingDef, basePowerConsumption: Float, storedEnergyMax: Float, flickable: bool)
      ensures this.def == def && this.flickable == flickable
      ensures this.basePowerConsumption == basePowerConsumption && this.storedEnergyMax == storedEnergyMax
      ensures powerOutput == 0 && storedEnergy == 0 && switchIsOn
    {
      this.def := def;
      this.basePowerConsumption := basePowerConsumption;
      this.storedEnergyMax := storedEnergyMax;
      this.flickable := flickable;
      powerOutput := 0;
      storedEnergy := 0;
      switchIsOn := true;
    }
  }

  /** The component class that stands for each classification; `None` has none. */
  function KindOf(p: PowerType): CompKind
  {
    match p
    case Battery => BatteryComp
    case Producer => PlantComp
    case Consumer => TraderComp
    case None => OtherComp
  }

  /** The component-kind switch shared by the trackers: a battery is Battery, a plant is a
      Producer (the plant case is tested before the trader case it derives from), any other
      trader is a Consumer, and any other component throws. */
  function ClassifyKind(kind: CompKind): (r: Result<PowerType>)
    ensures r.Thrown? <==> kind == OtherComp
    ensures r.Thrown? ==> r.exception == ArgumentOutOfRange
    ensures r.Ok? ==> r.value != None && KindOf(r.value) == kind
  {
    match kind
    case BatteryComp => Ok(Battery)
    case PlantComp => Ok(Producer)
    case TraderComp => Ok(Consumer)
    case OtherComp => Thrown(ArgumentOutOfRange)
  }

  /** `Mathf.Max` on readings. */
  function Max(a: Float, b: Float): (r: Float)
    ensures r >= a && r >= b
    ensures r == a || r == b
  {
    if a >= b then a else b
  }
}
