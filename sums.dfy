/** What a tracked item reports, and the sums the groups and categories form over items. */
module Sums {
  import opened Outcomes
  import opened Host

  /** The two figures every level reports: the current and the desired power output. */
  datatype Measure = Current | Desired

  /** A tracked item's reading of its component (both `PowerTrackerThing` copies): for a
      consumer or producer the trader's `PowerOutput`, or the negated `basePowerConsumption` as
      the desired output; a battery reports 0 for both; an unclassifiable component throws,
      because the reading first asks for the power type. */
  function ItemOutput(c: CompPower, m: Measure): (r: Result<Float>)
    reads c
    ensures r.Thrown? <==> c.kind == OtherComp
    ensures r.Ok? && c.kind == BatteryComp ==> r.value == 0
    ensures r.Ok? && c.kind.IsTrader() && m == Current ==> r.value == c.powerOutput
    ensures r.Ok? && c.kind.IsTrader() && m == Desired ==> r.value == -c.basePowerConsumption
  {
    match ClassifyKind(c.kind)
    case Thrown(e) => Thrown(e)
    case Ok(p) =>
      if p == Consumer || p == Producer then
        Ok(if m == Current then c.powerOutput else -c.basePowerConsumption)
      else Ok(0)
  }

  /** The readings of a list of components, one per component, in list order. */
  function Outputs(cs: seq<CompPower>, m: Measure): (rs: seq<Result<int>>)
    reads cs
    ensures |rs| == |cs|
    ensures forall i | 0 <= i < |cs| :: rs[i] == ItemOutput(cs[i], m)
  {
    if cs == [] then [] else [ItemOutput(cs[0], m)] + Outputs(cs[1..], m)
  }

  /** The sum of a list of components' readings; it throws exactly when one of them does. */
  function SumOutputs(cs: seq<CompPower>, m: Measure): (r: Result<int>)
    reads cs
    ensures r.Ok? <==> forall i | 0 <= i < |cs| :: cs[i].kind != OtherComp
    ensures cs == [] ==> r == Ok(0)
  {
    Total(Outputs(cs, m))
  }

  /** All components of a list of groups, group after group. */
  function Flatten(css: seq<seq<CompPower>>): (r: seq<CompPower>)
    ensures forall i, c | 0 <= i < |css| && c in css[i] :: c in r
    ensures forall c | c in r :: exists i | 0 <= i < |css| :: c in css[i]
  {
    if css == [] then [] else css[0] + Flatten(css[1..])
  }

  /** Everything the readings of a list of groups depend on. */
  ghost function NestedFootprint(css: seq<seq<CompPower>>): set<CompPower> {
    set i, c | 0 <= i < |css| && c in css[i] :: c
  }

  /** The per-group sums of a list of groups, one per group, in list order. */
  function GroupSums(css: seq<seq<CompPower>>, m: Measure): (rs: seq<Result<int>>)
    reads NestedFootprint(css)
    ensures |rs| == |css|
    ensures forall i | 0 <= i < |css| :: rs[i] == SumOutputs(css[i], m)
  {
    if css == [] then []
    else
      assert NestedFootprint(css[1..]) <= NestedFootprint(css) by {
        forall c | c in NestedFootprint(css[1..]) ensures c in NestedFootprint(css) {
          var i :| 0 <= i < |css[1..]| && c in css[1..][i];
          assert c in css[i + 1];
        }
      }
      assert forall c | c in css[0] :: c in NestedFootprint(css);
      [SumOutputs(css[0], m)] + GroupSums(css[1..], m)
  }

  /** Readings of a concatenation are the concatenated readings. */
  lemma OutputsAppend(a: seq<CompPower>, b: seq<CompPower>, m: Measure)
    ensures Outputs(a + b, m) == Outputs(a, m) + Outputs(b, m)
  {
  }

  /** The two-level sum is the flat sum: adding up the group sums gives the sum over every
      item of every group (and throws exactly when the flat sum does). */
  lemma {:induction false} SumOfGroupSumsIsFlatSum(css: seq<seq<CompPower>>, m: Measure)
    ensures Total(GroupSums(css, m)) == SumOutputs(Flatten(css), m)
  {
    if css != [] {
      SumOfGroupSumsIsFlatSum(css[1..], m);
      assert GroupSums(css, m) == [SumOutputs(css[0], m)] + GroupSums(css[1..], m);
      assert Flatten(css) == css[0] + Flatten(css[1..]);
      OutputsAppend(css[0], Flatten(css[1..]), m);
      TotalAppend(Outputs(css[0], m), Outputs(Flatten(css[1..]), m));
    }
  }

  /** A category's sum: the sum of its groups' sums, which is the flat sum over every item of
      every group, and 0 for a category without groups. */
  function CategorySum(css: seq<seq<CompPower>>, m: Measure): (r: Result<int>)
    reads NestedFootprint(css)
    ensures r == SumOutputs(Flatten(css), m)
    ensures css == [] ==> r == Ok(0)
  {
    SumOfGroupSumsIsFlatSum(css, m);
    Total(GroupSums(css, m))
  }
}
