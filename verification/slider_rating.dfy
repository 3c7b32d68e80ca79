/** The slider rating widget: a range input from 0 to 5 in steps of 0.1
    whose position is rounded to the nearest half, eleven half-step
    markers, a filled track, and an `onChange` that fires only when the
    pointer or finger is released. */
module SliderRating {
  import opened Common

  /** `Math.round(raw * 2) / 2`; `Math.round` rounds halves upwards. */
  function RoundHalf(raw: real): (r: real)
    ensures IsHalfStep(r)
    ensures -0.25 < r - raw <= 0.25
    ensures 0.0 <= raw <= 5.0 ==> 0.0 <= r <= 5.0
  {
    var n := (2.0 * raw + 0.5).Floor;
    assert n as real <= 2.0 * raw + 0.5 < n as real + 1.0;
    assert 2.0 * (n as real / 2.0) == n as real;
    assert 0.0 <= raw <= 5.0 ==> 0 <= n <= 10;
    n as real / 2.0
  }

  /** `(n / d).Floor` on reals agrees with Euclidean division on naturals. */
  lemma FloorOfQuotient(n: nat, d: nat)
    requires d > 0
    ensures (n as real / d as real).Floor == n / d
  {
    var q, r := n / d, n % d;
    assert n == q * d + r && 0 <= r < d;
    assert n as real / d as real == q as real + r as real / d as real;
    assert 0.0 <= r as real / d as real < 1.0;
  }

  /** The input's raw values are `k / 10` for `k` in 0..50; on them the
      rounded value, counted in halves, is `(2k + 5) / 10` in integer
      division. */
  lemma {:induction false} RoundedSliderStep(k: nat)
    requires k <= 50
    ensures RoundHalf(k as real / 10.0) == ((2 * k + 5) / 10) as real / 2.0
  {
    assert 2.0 * (k as real / 10.0) + 0.5 == (2 * k + 5) as real / 10 as real;
    FloorOfQuotient(2 * k + 5, 10);
  }

  /** The marker values `0, 0.5, ..., 5` built by the render loop. */
  method Markers() returns (markers: seq<real>)
    ensures |markers| == 11
    ensures forall i :: 0 <= i < |markers| ==> markers[i] == i as real * 0.5
    ensures forall i, j :: 0 <= i < j < |markers| ==> markers[i] < markers[j]
    ensures forall i :: 0 <= i < |markers| ==> 0.0 <= markers[i] <= 5.0 && IsHalfStep(markers[i])
  {
    markers := [];
    var i := 0;
    while i <= 10
      invariant 0 <= i <= 11
      invariant |markers| == i
      invariant forall j :: 0 <= j < i ==> markers[j] == j as real * 0.5
    {
      markers := markers + [i as real * 0.5];
      i := i + 1;
    }
    forall j | 0 <= j < |markers|
      ensures IsHalfStep(markers[j])
    {
      assert 2.0 * markers[j] == j as real;
    }
  }

  /** The widget's state: the `value` prop and the `sliderValue` cell. */
  class Slider {
    var sliderValue: real

    constructor (value: real)
      ensures sliderValue == value
    {
      sliderValue := value;
    }

    /** The effect that follows a new `value` prop. */
    method SyncValue(value: real)
      modifies this`sliderValue
      ensures sliderValue == value
    {
      sliderValue := value;
    }

    /** `handleChange`: a drag to `raw` stores the nearest half step, within a
        quarter of `raw`; `onChange` is not called. */
    method HandleChange(raw: real)
      modifies this`sliderValue
      ensures sliderValue == RoundHalf(raw)
      ensures IsHalfStep(sliderValue) && -0.25 < sliderValue - raw <= 0.25
      ensures 0.0 <= raw <= 5.0 ==> 0.0 <= sliderValue <= 5.0
    {
      sliderValue := RoundHalf(raw);
    }

    /** `handleMouseUp`, also bound to touch end: returns the value passed
        to `onChange`, the current slider value. */
    method HandleMouseUp() returns (emitted: real)
      ensures emitted == sliderValue
    {
      emitted := sliderValue;
    }

    /** The width of the filled track, in percent. */
    function Percentage(): (p: real)
      reads this
      ensures p == sliderValue * 20.0
      ensures 0.0 <= sliderValue <= 5.0 ==> 0.0 <= p <= 100.0
    {
      (sliderValue / 5.0) * 100.0
    }

    /** A marker is lit when it does not exceed the slider value. */
    predicate IsLit(marker: real)
      reads this
    {
      marker <= sliderValue
    }

    /** On a half-step value, the lit markers are exactly the first
        `2 * value + 1`. */
    lemma LitMarkers(markers: seq<real>)
      requires |markers| == 11 && forall i :: 0 <= i < 11 ==> markers[i] == i as real * 0.5
      requires 0.0 <= sliderValue <= 5.0 && IsHalfStep(sliderValue)
      ensures forall i :: 0 <= i < 11 ==> (IsLit(markers[i]) <==> i <= (2.0 * sliderValue).Floor)
    {
      var h := (2.0 * sliderValue).Floor;
      assert h as real == 2.0 * sliderValue;
      forall i | 0 <= i < 11
        ensures IsLit(markers[i]) <==> i <= h
      {
        assert markers[i] <= sliderValue <==> (i as real) <= h as real;
      }
    }
  }
}
