/**
 * The per-frame audio-activity classifier of the voice visualiser.
 *
 * Each animation frame the client reads the analyser's time-domain samples
 * (unsigned bytes centred on 128), ignores samples within 2 of the centre,
 * averages the deviation of the others, doubles it, clamps it to [0, 100]
 * and bands the result into Active (> 30), Low (> 5) or Silent.
 * Both clients run the same arithmetic.
 */
module Activity {

  newtype byte = x: int | 0 <= x < 256

  const Midpoint: int := 128
  const NoiseFloor: int := 2
  const ActiveThreshold: int := 30
  const LowThreshold: int := 5
  const MaxActivity: real := 100.0

  datatype Band = Active | Low | Silent

  /** Distance of a sample from the neutral midpoint. */
  function Deviation(x: byte): (d: nat)
    ensures d <= 128
    ensures d == 0 <==> x as int == Midpoint
  {
    if x as int >= Midpoint then x as int - Midpoint else Midpoint - x as int
  }

  /** A sample counts towards the average only outside the noise floor. */
  predicate Contributes(x: byte) {
    Deviation(x) > NoiseFloor
  }

  /** Sum of the deviations of the contributing samples. */
  function NoisySum(s: seq<byte>): nat {
    if s == [] then 0
    else NoisySum(s[..|s| - 1]) + (if Contributes(s[|s| - 1]) then Deviation(s[|s| - 1]) else 0)
  }

  /** Number of contributing samples. */
  function NoisyCount(s: seq<byte>): nat {
    if s == [] then 0
    else NoisyCount(s[..|s| - 1]) + (if Contributes(s[|s| - 1]) then 1 else 0)
  }

  /** Twice the average deviation, before clamping; 0 when nothing contributes. */
  function RawActivity(sum: nat, count: nat): real {
    if count == 0 then 0.0 else 2.0 * (sum as real) / (count as real)
  }

  function Clamp(x: real): (r: real)
    ensures 0.0 <= r <= MaxActivity
    ensures 0.0 <= x <= MaxActivity ==> r == x
    ensures x > MaxActivity ==> r == MaxActivity
    ensures x < 0.0 ==> r == 0.0
  {
    if x > MaxActivity then MaxActivity else if x < 0.0 then 0.0 else x
  }

  /** The activity percentage shown for a frame. */
  function ActivityLevel(s: seq<byte>): (a: real)
    ensures 0.0 <= a <= MaxActivity
  {
    Clamp(RawActivity(NoisySum(s), NoisyCount(s)))
  }

  /** The band the visualiser selects for an activity percentage. */
  function BandOf(activity: real): (b: Band)
    ensures b == Active <==> activity > ActiveThreshold as real
    ensures b == Low <==> LowThreshold as real < activity <= ActiveThreshold as real
    ensures b == Silent <==> activity <= LowThreshold as real
  {
    if activity > ActiveThreshold as real then Active
    else if activity > LowThreshold as real then Low
    else Silent
  }

  /** The same banding stated on the integer sum and count alone. */
  function BandOfCounts(sum: nat, count: nat): (b: Band)
    ensures b == Active <==> 2 * sum > ActiveThreshold * count
    ensures b == Low <==> LowThreshold * count < 2 * sum <= ActiveThreshold * count
    ensures b == Silent <==> 2 * sum <= LowThreshold * count
  {
    if 2 * sum > ActiveThreshold * count then Active
    else if 2 * sum > LowThreshold * count then Low
    else Silent
  }

  // ---------------------------------------------------------------------
  // Properties of the classification

  /** Every contributing sample deviates by at least 3 and at most 128. */
  lemma {:induction false} SumBounds(s: seq<byte>)
    ensures 3 * NoisyCount(s) <= NoisySum(s) <= 128 * NoisyCount(s)
  {
    if s != [] {
      SumBounds(s[..|s| - 1]);
    }
  }

  /** No sample contributes exactly when the count is zero. */
  lemma {:induction false} CountZeroIffQuiet(s: seq<byte>)
    ensures NoisyCount(s) == 0 <==> forall i :: 0 <= i < |s| ==> !Contributes(s[i])
  {
    if s != [] {
      var init := s[..|s| - 1];
      CountZeroIffQuiet(init);
      assert forall i :: 0 <= i < |init| ==> init[i] == s[i];
    }
  }

  lemma ScaledCompare(a: real, c: real, t: real)
    requires c > 0.0
    ensures a / c > t <==> a > t * c
  {
    var q := a / c;
    assert q * c == a;
    if q > t {
      assert q * c > t * c;
    } else {
      assert q * c <= t * c;
    }
  }

  /** Doubling the average is the same as averaging twice the sum. */
  lemma DoubledAverage(sum: nat, count: nat)
    ensures (if count > 0 then (sum as real) / (count as real) else 0.0) * 2.0 == RawActivity(sum, count)
  {
    if count > 0 {
      var q := (sum as real) / (count as real);
      assert q * (count as real) == sum as real;
      assert (q * 2.0) * (count as real) == 2.0 * (sum as real);
    }
  }

  /** Clamping to [0, 100] never changes the band. */
  lemma ClampKeepsBand(x: real)
    ensures BandOf(Clamp(x)) == BandOf(x)
  {
  }

  /**
   * The band of a frame is decided by integers alone: Active iff
   * 2 * sum > 30 * count, Low iff 2 * sum > 5 * count otherwise.
   */
  lemma BandMatchesCounts(s: seq<byte>)
    ensures BandOf(ActivityLevel(s)) == BandOfCounts(NoisySum(s), NoisyCount(s))
  {
    var sum, count := NoisySum(s), NoisyCount(s);
    var raw := RawActivity(sum, count);
    ClampKeepsBand(raw);
    if count > 0 {
      assert raw == (2.0 * (sum as real)) / (count as real);
      ScaledCompare(2.0 * (sum as real), count as real, ActiveThreshold as real);
      ScaledCompare(2.0 * (sum as real), count as real, LowThreshold as real);
    } else {
      SumBounds(s);
      assert sum == 0 && raw == 0.0;
    }
  }

  /**
   * A frame is Silent exactly when no sample leaves the noise floor;
   * any contributing sample lifts the frame to at least Low.
   */
  lemma SilentIffQuiet(s: seq<byte>)
    ensures BandOf(ActivityLevel(s)) == Silent <==> forall i :: 0 <= i < |s| ==> !Contributes(s[i])
    ensures NoisyCount(s) == 0 ==> ActivityLevel(s) == 0.0
  {
    BandMatchesCounts(s);
    SumBounds(s);
    CountZeroIffQuiet(s);
  }

  // ---------------------------------------------------------------------
  // The per-frame loop

  /**
   * One frame of the visualiser: accumulate sum and count over the buffer,
   * then compute the clamped activity and its band.
   */
  method ClassifyFrame(data: array<byte>) returns (activity: real, band: Band)
    ensures activity == ActivityLevel(data[..])
    ensures band == BandOf(activity)
    ensures band == BandOfCounts(NoisySum(data[..]), NoisyCount(data[..]))
  {
    var sum: nat := 0;
    var count: nat := 0;
    var i := 0;
    while i < data.Length
      invariant 0 <= i <= data.Length
      invariant sum == NoisySum(data[..i])
      invariant count == NoisyCount(data[..i])
    {
      assert data[..i + 1][..i] == data[..i];
      var deviation := if data[i] as int >= Midpoint then data[i] as int - Midpoint else Midpoint - data[i] as int;
      if deviation > NoiseFloor {
        sum := sum + deviation;
        count := count + 1;
      }
      i := i + 1;
    }
    assert data[..i] == data[..];
    var average := if count > 0 then (sum as real) / (count as real) else 0.0;
    DoubledAverage(sum, count);
    activity := Clamp(average * 2.0);
    if activity > ActiveThreshold as real {
      band := Active;
    } else if activity > LowThreshold as real {
      band := Low;
    } else {
      band := Silent;
    }
    BandMatchesCounts(data[..]);
  }
}
