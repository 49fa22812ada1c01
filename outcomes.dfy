/** Exceptions of the host runtime, and the LINQ `Sum` over values that may throw. */
module Outcomes {

  /** The two exceptions the tracking code can raise: the `switch` default branches throw
      ArgumentOutOfRangeException, and `GetComp<CompPowerTrader>()` on a device without a
      trader component yields null, which the next member access turns into a NullReferenceException. */
  datatype Exception = ArgumentOutOfRange | NullReference

  /** A value, or the exception that escaped while computing it. */
  datatype Result<+T> = Ok(value: T) | Thrown(exception: Exception)

  /** How a call that returns nothing ended: normally, or with an exception. */
  datatype Outcome = Done | Failed(exception: Exception)

  /** Addition of two values evaluated left to right: the first exception wins. */
  function Plus(a: Result<int>, b: Result<int>): (r: Result<int>)
    ensures r.Ok? <==> a.Ok? && b.Ok?
    ensures r.Ok? ==> r.value == a.value + b.value
    ensures a.Thrown? ==> r == a
    ensures a.Ok? && b.Thrown? ==> r == b
  {
    if a.Thrown? then a
    else if b.Thrown? then b
    else Ok(a.value + b.value)
  }

  /** `Enumerable.Sum` over a sequence of selected values: the sum when no selector call throws,
      otherwise the first exception met going left to right. */
  function Total(rs: seq<Result<int>>): (r: Result<int>)
    ensures r.Ok? <==> forall i | 0 <= i < |rs| :: rs[i].Ok?
    ensures rs == [] ==> r == Ok(0)
    ensures r.Thrown? ==> exists i | 0 <= i < |rs| :: rs[i] == r && forall j | 0 <= j < i :: rs[j].Ok?
  {
    if rs == [] then Ok(0)
    else
      var rest := Total(rs[1..]);
      if rs[0].Ok? && rest.Thrown? then
        var i :| 0 <= i < |rs[1..]| && rs[1..][i] == rest && forall j | 0 <= j < i :: rs[1..][j].Ok?;
        assert rs[i + 1] == rest && forall j | 0 <= j < i + 1 :: rs[j].Ok?;
        Plus(rs[0], rest)
      else
        Plus(rs[0], rest)
  }

  /** Summing a concatenation is adding the two partial sums (the first exception still wins). */
  lemma {:induction false} TotalAppend(a: seq<Result<int>>, b: seq<Result<int>>)
    ensures Total(a + b) == Plus(Total(a), Total(b))
  {
    if a == [] {
      assert a + b == b;
    } else {
      assert (a + b)[1..] == a[1..] + b;
      TotalAppend(a[1..], b);
    }
  }
}
