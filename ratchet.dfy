/** The running maximum both per-device components keep of the output they observe, so that a
    device whose declared consumption understates its real output (a solar panel declares 1 W)
    is credited with the most it has been seen to produce. */
module Ratchet {
  import opened Host

  /** One tick of the ratchet: the stored maximum rises to `sample` when the ratchet applies
      to the device and `sample` exceeds it (a strict, signed comparison), and stays otherwise. */
  function Observe(max: Float, sample: Float, applies: bool): (r: Float)
    ensures r >= max
    ensures applies ==> r >= sample
    ensures !applies ==> r == max
    ensures r == max || r == sample
  {
    if applies && sample > max then sample else max
  }

  /** The stored maximum after one tick per sample, in order. */
  function Ratcheted(max: Float, samples: seq<Float>, applies: bool): Float
    decreases |samples|
  {
    if samples == [] then max else Ratcheted(Observe(max, samples[0], applies), samples[1..], applies)
  }

  /** A run of ticks leaves the running maximum: never below the start, at least every sample
      the ratchet applied to, always either the start or one of the samples, and unchanged
      when the ratchet does not apply. */
  lemma {:induction false} RatchetedIsRunningMax(max: Float, samples: seq<Float>, applies: bool)
    ensures Ratcheted(max, samples, applies) >= max
    ensures applies ==> forall i | 0 <= i < |samples| :: Ratcheted(max, samples, applies) >= samples[i]
    ensures !applies ==> Ratcheted(max, samples, applies) == max
    ensures Ratcheted(max, samples, applies) == max
            || exists i | 0 <= i < |samples| :: Ratcheted(max, samples, applies) == samples[i]
    decreases |samples|
  {
    if samples != [] {
      var next := Observe(max, samples[0], applies);
      RatchetedIsRunningMax(next, samples[1..], applies);
      var r := Ratcheted(max, samples, applies);
      assert r == Ratcheted(next, samples[1..], applies);
      if applies {
        forall i | 0 <= i < |samples| ensures r >= samples[i] {
          if i > 0 { assert samples[i] == samples[1..][i - 1]; }
        }
      }
      if r != max && r != next {
        var i :| 0 <= i < |samples[1..]| && r == samples[1..][i];
        assert r == samples[i + 1];
      }
    }
  }

  /** A higher start never ends lower: the ratchet is monotone in the stored maximum. */
  lemma {:induction false} RatchetedMonotone(a: Float, b: Float, samples: seq<Float>, applies: bool)
    requires a <= b
    ensures Ratcheted(a, samples, applies) <= Ratcheted(b, samples, applies)
    decreases |samples|
  {
    if samples != [] {
      RatchetedMonotone(Observe(a, samples[0], applies), Observe(b, samples[0], applies), samples[1..], applies);
    }
  }
}
