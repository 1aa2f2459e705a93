/** lib/audio/MasterVolume.ts: conversions between linear gain (0..1),
    percentage (0..100) and decibels. JavaScript numbers are modelled as
    `real`; `Math.round(x)` is `(x + 0.5).Floor`. */
module MasterVolume {

  function Min(a: real, b: real): real { if a <= b then a else b }

  function Max(a: real, b: real): real { if a >= b then a else b }

  /** `Math.max(lo, Math.min(hi, x))`. */
  function Clamp(x: real, lo: real, hi: real): (r: real)
    requires lo <= hi
    ensures lo <= r <= hi
    ensures lo <= x <= hi ==> r == x
    ensures x <= lo ==> r == lo
    ensures hi <= x ==> r == hi
  {
    Max(lo, Min(hi, x))
  }

  /** `Math.max(0, Math.min(1, x))`, the clamp every linear gain goes through. */
  function Clamp01(x: real): (r: real)
    ensures 0.0 <= r <= 1.0
    ensures 0.0 <= x <= 1.0 ==> r == x
    ensures x <= 0.0 ==> r == 0.0
    ensures 1.0 <= x ==> r == 1.0
  {
    Clamp(x, 0.0, 1.0)
  }

  /** JavaScript `Math.round`: the nearest integer, halves rounded up. */
  function Round(x: real): (r: int)
    ensures r as real <= x + 0.5 < r as real + 1.0
  {
    (x + 0.5).Floor
  }

  /** `applyMasterVolume(layerVolume, masterVolume)` (MasterVolume.ts:7-9). */
  function ApplyMasterVolume(layerVolume: real, masterVolume: real): (r: real)
    ensures 0.0 <= r <= 1.0
    ensures 0.0 <= layerVolume <= 1.0 && 0.0 <= masterVolume <= 1.0 ==> r == layerVolume * masterVolume
  {
    ProductInUnit(layerVolume, masterVolume);
    Clamp01(layerVolume * masterVolume)
  }

  lemma ProductInUnit(a: real, b: real)
    ensures 0.0 <= a <= 1.0 && 0.0 <= b <= 1.0 ==> 0.0 <= a * b <= 1.0
  {
    if 0.0 <= a <= 1.0 && 0.0 <= b <= 1.0 {
      assert a * b <= 1.0 * b;
    }
  }

  /** `volumeToPercentage(volume)` (MasterVolume.ts:11-13): rounds and does NOT clamp. */
  function VolumeToPercentage(volume: real): (r: int)
    ensures r as real <= volume * 100.0 + 0.5 < r as real + 1.0
  {
    Round(volume * 100.0)
  }

  /** `percentageToVolume(percentage)` (MasterVolume.ts:15-17). */
  function PercentageToVolume(percentage: real): (r: real)
    ensures 0.0 <= r <= 1.0
    ensures percentage <= 0.0 ==> r == 0.0
    ensures 100.0 <= percentage ==> r == 1.0
    ensures 0.0 <= percentage <= 100.0 ==> r * 100.0 == percentage
  {
    Clamp(percentage, 0.0, 100.0) / 100.0
  }

  /** A linear gain in range gives a whole percentage in range. */
  lemma PercentageInRange(volume: real)
    requires 0.0 <= volume <= 1.0
    ensures 0 <= VolumeToPercentage(volume) <= 100
  {
  }

  /** Out-of-range gains are not clamped: 1.5 becomes 150 per cent. */
  lemma PercentageNotClamped()
    ensures VolumeToPercentage(1.5) == 150
    ensures VolumeToPercentage(-0.2) == -20
  {
    assert (150.5 as real).Floor == 150;
    assert (-19.5 as real).Floor == -20;
  }

  /** Percentage and back loses at most half a percentage point. */
  lemma {:induction false} PercentageRoundTrip(volume: real)
    requires 0.0 <= volume <= 1.0
    ensures -0.005 <= PercentageToVolume(VolumeToPercentage(volume) as real) - volume <= 0.005
  {
    var p := VolumeToPercentage(volume);
    PercentageInRange(volume);
    var back := PercentageToVolume(p as real);
    assert back * 100.0 == p as real;
    assert -0.5 <= p as real - volume * 100.0 <= 0.5;
  }

  /** A value on the decibel scale: JavaScript's `-Infinity` or a finite number. */
  datatype Decibels = NegInfinity | Finite(db: real)

  /** `volumeToDecibels(volume)` (MasterVolume.ts:19-22). The logarithm is
      the parameter `log10`; only the silent special case is modelled here. */
  function VolumeToDecibels(volume: real, log10: real -> real): (r: Decibels)
    ensures r == NegInfinity <==> volume == 0.0
  {
    if volume == 0.0 then NegInfinity else Finite(20.0 * log10(volume))
  }

  /** `decibelsToVolume(decibels)` (MasterVolume.ts:24-27). `pow10(e)` is
      `Math.pow(10, e)`, supplied from outside. */
  function DecibelsToVolume(decibels: Decibels, pow10: real -> real): (r: real)
    ensures decibels == NegInfinity ==> r == 0.0
  {
    match decibels
    case NegInfinity => 0.0
    case Finite(db) => pow10(db / 20.0)
  }

  /** Silence survives the trip through decibels, whatever the logarithm. */
  lemma SilenceRoundTrip(log10: real -> real, pow10: real -> real)
    ensures VolumeToDecibels(0.0, log10) == NegInfinity
    ensures DecibelsToVolume(VolumeToDecibels(0.0, log10), pow10) == 0.0
  {
  }

  /** A non-zero gain survives the trip through decibels whenever `pow10`
      undoes `log10` at that gain. */
  lemma DecibelsRoundTrip(volume: real, log10: real -> real, pow10: real -> real)
    requires volume != 0.0 && pow10(log10(volume)) == volume
    ensures DecibelsToVolume(VolumeToDecibels(volume, log10), pow10) == volume
  {
    assert 20.0 * log10(volume) / 20.0 == log10(volume);
  }
}
