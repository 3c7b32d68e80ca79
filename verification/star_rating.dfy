/** The five-star rating widget: pointer positions within a star are
    quantised to half stars, a click reports the hovered value, and each star
    is drawn full, half or empty, in gold or grey, from the displayed value. */
module StarRating {
  import opened Common

  const Gold := "#ffd700"
  const Grey := "#ccc"

  /** The glyph drawn for one star: '★', '½' or '☆'. */
  datatype Glyph = Full | Half | Empty

  /** `Math.min(5, Math.max(0, v))`. */
  function Clamp(v: real): (r: real)
    ensures 0.0 <= r <= 5.0
    ensures 0.0 <= v <= 5.0 ==> r == v
    ensures v < 0.0 ==> r == 0.0
    ensures v > 5.0 ==> r == 5.0
  {
    if v > 5.0 then 5.0 else if v < 0.0 then 0.0 else v
  }

  /** `k / 2` is a half step. */
  lemma HalfOf(k: int)
    ensures IsHalfStep(k as real / 2.0)
  {
    assert 2.0 * (k as real / 2.0) == k as real;
  }

  /** The unclamped value at `fraction` of the width of star `index`: the
      left quarter gives `index`, the middle half `index + 0.5`, the rest
      `index + 1`. */
  function HoverStep(index: int, fraction: real): (v: real)
    ensures IsHalfStep(v)
    ensures index as real <= v <= index as real + 1.0
    ensures 0.0 <= fraction <= 1.0 ==> -0.25 <= v - (index as real + fraction) < 0.25
  {
    if fraction <= 0.25 then
      HalfOf(2 * index);
      index as real
    else if fraction <= 0.75 then
      HalfOf(2 * index + 1);
      index as real + 0.5
    else
      HalfOf(2 * index + 2);
      index as real + 1.0
  }

  /** The hovered value: `HoverStep` clamped to the scale. On the five stars
      of the widget it is the half step nearest to the pointer's position on
      the scale; a position exactly between two steps takes the lower one. */
  function Quantise(index: int, fraction: real): (v: real)
    ensures 0.0 <= v <= 5.0
    ensures IsHalfStep(v)
    ensures 0 <= index < 5 ==> index as real <= v <= index as real + 1.0
    ensures 0 <= index < 5 && 0.0 <= fraction <= 1.0 ==>
              -0.25 <= v - (index as real + fraction) < 0.25
  {
    HalfOf(0);
    HalfOf(10);
    Clamp(HoverStep(index, fraction))
  }

  /** The glyph of star `index` (counted from 0) for the displayed value. */
  function StarGlyph(display: real, index: int): (g: Glyph)
    ensures g == Full <==> display >= index as real + 1.0
    ensures g == Half <==> index as real + 0.5 <= display < index as real + 1.0
    ensures g == Empty <==> display < index as real + 0.5
  {
    var starValue := index as real + 1.0;
    if display >= starValue then Full
    else if display >= starValue - 0.5 then Half
    else Empty
  }

  /** The colour of star `index`: gold exactly when something is drawn in it. */
  function StarColor(display: real, index: int): (c: string)
    ensures c == Gold <==> StarGlyph(display, index) != Empty
    ensures c == Grey <==> StarGlyph(display, index) == Empty
  {
    var starValue := index as real + 1.0;
    if display >= starValue then Gold
    else if display >= starValue - 0.5 then Gold
    else Grey
  }

  /** The font size of a star for the `size` prop ("medium" by default). */
  function StarSize(size: string): (px: string)
    ensures px == "32px" <==> size == "large"
    ensures px == "20px" <==> size == "small"
    ensures px == "24px" <==> size != "large" && size != "small"
  {
    if size == "large" then "32px" else if size == "small" then "20px" else "24px"
  }

  /** What a glyph is worth on the scale. */
  function GlyphWorth(g: Glyph): real {
    match g
    case Full => 1.0
    case Half => 0.5
    case Empty => 0.0
  }

  /** The total worth of the glyphs of the first `n` stars. */
  function Drawn(display: real, n: nat): real {
    if n == 0 then 0.0 else Drawn(display, n - 1) + GlyphWorth(StarGlyph(display, n - 1))
  }

  /** The first `n` stars spell the displayed half-step value, capped at `n`. */
  lemma {:induction false} DrawnPrefix(display: real, n: nat)
    requires 0.0 <= display && IsHalfStep(display)
    ensures Drawn(display, n) == if display <= n as real then display else n as real
  {
    if n > 0 {
      DrawnPrefix(display, n - 1);
      var i := n - 1;
      var h := (2.0 * display).Floor;
      assert h as real == 2.0 * display;
      if display < i as real + 0.5 {
        assert h < 2 * i + 1;
        assert display <= i as real;
      } else if display < i as real + 1.0 {
        assert h < 2 * i + 2 && h >= 2 * i + 1;
        assert display == i as real + 0.5;
      }
    }
  }

  /** Read back from its five glyphs, any half-step value on the scale is
      displayed exactly. */
  lemma StarsSpellValue(display: real)
    requires 0.0 <= display <= 5.0 && IsHalfStep(display)
    ensures Drawn(display, 5) == display
  {
    DrawnPrefix(display, 5);
  }

  /** The widget's own state: the `value`, `interactive` and `size` props
      and the `hoverValue` cell (`None` for `null`). */
  class Rating {
    var value: real
    var interactive: bool
    var size: string
    var hoverValue: Option<real>

    constructor (value: real, interactive: bool, size: string)
      ensures this.value == value && this.interactive == interactive && this.size == size
      ensures hoverValue.None?
    {
      this.value, this.interactive, this.size := value, interactive, size;
      hoverValue := None;
    }

    /** The value the stars show: the hovered value while interactive,
        otherwise the `value` prop. */
    function DisplayValue(): (d: real)
      reads this
      ensures interactive && hoverValue.Some? ==> d == hoverValue.value
      ensures !(interactive && hoverValue.Some?) ==> d == value
    {
      if hoverValue.Some? && interactive then hoverValue.value else value
    }

    /** `handleMouseMove` over star `index`, the pointer at `fraction` of its width. */
    method HandleMouseMove(index: int, fraction: real)
      modifies this`hoverValue
      ensures !interactive ==> hoverValue == old(hoverValue)
      ensures interactive ==> hoverValue == Some(Quantise(index, fraction))
    {
      if !interactive {
        return;
      }
      hoverValue := Some(Quantise(index, fraction));
    }

    /** `handleClick`: returns the value passed to `onChange`, `None` when it
        is not called. */
    method HandleClick() returns (emitted: Option<real>)
      ensures emitted.Some? <==> interactive && hoverValue.Some?
      ensures emitted.Some? ==> emitted == hoverValue
    {
      if !interactive || hoverValue.None? {
        return None;
      }
      emitted := hoverValue;
    }

    /** Leaving a star forgets the hovered value, but only when interactive. */
    method HandleMouseLeave()
      modifies this`hoverValue
      ensures interactive ==> hoverValue.None?
      ensures !interactive ==> hoverValue == old(hoverValue)
    {
      if interactive {
        hoverValue := None;
      }
    }

    /** `getStarStyle`: the glyph of star `index` for the displayed value. */
    function GetStarStyle(index: int): (g: Glyph)
      reads this
      ensures g == Full <==> DisplayValue() >= index as real + 1.0
      ensures g == Half <==> index as real + 0.5 <= DisplayValue() < index as real + 1.0
      ensures g == Empty <==> DisplayValue() < index as real + 0.5
    {
      StarGlyph(DisplayValue(), index)
    }

    /** `getStarColor`: gold exactly when `getStarStyle` draws a full or half
        star, grey exactly when it draws an empty one. */
    function GetStarColor(index: int): (c: string)
      reads this
      ensures c == Gold <==> GetStarStyle(index) != Empty
      ensures c == Grey <==> GetStarStyle(index) == Empty
    {
      StarColor(DisplayValue(), index)
    }
  }
}
