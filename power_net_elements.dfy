/** The split of a power network's members into batteries, power plants and consumers
    (Source/PowerNetElements.cs). */
module NetElements {
  import opened Host

  /** Three lists, each kept in insertion order. */
  class PowerNetElements {
    /** `_batteries`. */
    var batteries: seq<CompPower>
    /** `_powerPlants`. */
    var powerPlants: seq<CompPower>
    /** `_consumers`. */
    var consumers: seq<CompPower>

    /** Each list holds only components of its own kind. */
    predicate Valid()
      reads this
    {
      && (forall i | 0 <= i < |batteries| :: batteries[i].kind == BatteryComp)
      && (forall i | 0 <= i < |powerPlants| :: powerPlants[i].kind == PlantComp)
      && (forall i | 0 <= i < |consumers| :: consumers[i].kind == TraderComp)
    }

    /** The number of components filed so far. */
    function Count(): nat
      reads this
    {
      |batteries| + |powerPlants| + |consumers|
    }

    constructor()
      ensures batteries == [] && powerPlants == [] && consumers == []
      ensures Valid()
    {
      batteries := [];
      powerPlants := [];
      consumers := [];
    }

    /** Files a battery last among the batteries. */
    method AddBattery(battery: CompPower)
      requires battery.kind == BatteryComp
      modifies this
      ensures batteries == old(batteries) + [battery]
      ensures powerPlants == old(powerPlants) && consumers == old(consumers)
      ensures Count() == old(Count()) + 1
      ensures old(Valid()) ==> Valid()
    {
      batteries := batteries + [battery];
    }

    /** Files a trader: last among the power plants when the device has a plant component,
        otherwise last among the consumers. Exactly one list grows, by exactly that component. */
    method AddPowerComponent(powerTrader: CompPower)
      requires powerTrader.kind.IsTrader()
      modifies this
      ensures batteries == old(batteries)
      ensures powerTrader.kind == PlantComp ==>
                powerPlants == old(powerPlants) + [powerTrader] && consumers == old(consumers)
      ensures powerTrader.kind == TraderComp ==>
                consumers == old(consumers) + [powerTrader] && powerPlants == old(powerPlants)
      ensures Count() == old(Count()) + 1
      ensures old(Valid()) ==> Valid()
    {
      if powerTrader.kind != PlantComp {
        consumers := consumers + [powerTrader];
      } else {
        powerPlants := powerPlants + [powerTrader];
      }
    }

    /** `Batteries`: the stored battery list. */
    function Batteries(): (r: seq<CompPower>)
      reads this
      ensures r == batteries
      ensures Valid() ==> forall i | 0 <= i < |r| :: r[i].kind == BatteryComp
    {
      batteries
    }

    /** `PowerPlants`: the stored plant list. */
    function PowerPlants(): (r: seq<CompPower>)
      reads this
      ensures r == powerPlants
      ensures Valid() ==> forall i | 0 <= i < |r| :: r[i].kind == PlantComp
    {
      powerPlants
    }

    /** `Consumers`: the stored consumer list. */
    function Consumers(): (r: seq<CompPower>)
      reads this
      ensures r == consumers
      ensures Valid() ==> forall i | 0 <= i < |r| :: r[i].kind == TraderComp
    {
      consumers
    }
  }
}
