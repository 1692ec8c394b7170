/**
 * The moving half of the progress view, as pure functions of the play time:
 * the cycle factor `getFactor` derives from it, the whole-frame rotation,
 * the staggered per-dot factor of `getItemFactor` and the straight-line
 * displacement of each dot through the centre. Float arithmetic is
 * idealised to `real`; the easing curve is a parameter.
 */
module Motion {
  import opened JavaArith
  import opened Layout

  /** The length of one cycle in milliseconds (`mDuration`'s initial value). */
  const DEFAULT_DURATION: int := 3600

  /** The frame rotation, in degrees, at the end of a cycle: one and a half slot spacings. */
  const CYCLE_ROTATION: int := 36

  /** The fraction of a cycle over which the starts of the dots' motions are spread. */
  const STAGGER_SPAN: real := 0.66

  /** Each dot moves during 1 / WINDOW_SCALE of a cycle. */
  const WINDOW_SCALE: real := 3.0

  /** One drawn circle: centre relative to the view's centre, radius and colour. */
  datatype Circle = Circle(x: real, y: real, radius: int, color: Int32)

  /** The cycle factor for `playTime` milliseconds of play: play time over duration, as Java's `% 1f` wraps it. */
  function Factor(playTime: int, duration: int): (f: real)
    requires duration > 0
    ensures playTime >= 0 ==> 0.0 <= f < 1.0
    ensures playTime <= 0 ==> -1.0 < f <= 0.0
    ensures 0 <= playTime < duration ==> f * duration as real == playTime as real
  {
    QuotientBounds(playTime, duration);
    var x := playTime as real / duration as real;
    if 0 <= playTime < duration then
      TruncOfSum(0, x);
      FracPart(x)
    else
      FracPart(x)
  }

  /** The real quotient of the play time by the duration has the play time's sign and is below 1 within a cycle. */
  lemma QuotientBounds(playTime: int, duration: int)
    requires duration > 0
    ensures var x := playTime as real / duration as real;
            (playTime >= 0 ==> x >= 0.0) && (playTime <= 0 ==> x <= 0.0)
            && (playTime < duration ==> x < 1.0) && (playTime > -duration ==> x > -1.0)
  {
    var p, d := playTime as real, duration as real;
    var x := p / d;
    assert x * d == p;
    ScaledSign(x, d);
  }

  /** Scaling by a positive `d` keeps the sign and the distance from zero in units of `d`. */
  lemma ScaledSign(x: real, d: real)
    requires d > 0.0
    ensures x < 0.0 ==> x * d < 0.0
    ensures x > 0.0 ==> x * d > 0.0
    ensures x >= 1.0 ==> x * d >= d
    ensures x <= -1.0 ==> x * d <= -d
  {
  }

  /** Dividing `q·d + r` by `d` gives `q` plus the fraction `r / d`. */
  lemma QuotientSplit(q: int, r: int, d: int)
    requires d > 0
    ensures (q * d + r) as real / d as real == q as real + r as real / d as real
  {
    var dr := d as real;
    var lhs, rhs := (q * d + r) as real / dr, q as real + r as real / dr;
    assert lhs * dr == (q * d + r) as real;
    assert rhs * dr == q as real * dr + r as real;
    assert (lhs - rhs) * dr == 0.0;
  }

  /** Reducing the play time by Java's `%` does not move the cycle factor: the phase is kept. */
  lemma FactorOfRem(playTime: int, duration: int)
    requires duration > 0
    ensures Factor(Rem(playTime, duration), duration) == Factor(playTime, duration)
  {
    var q, r := Div(playTime, duration), Rem(playTime, duration);
    var d := duration as real;
    var y := r as real / d;
    assert playTime == q * duration + r;
    QuotientSplit(q, r, duration);
    QuotientBounds(r, duration);
    assert playTime >= 0 ==> q >= 0 && r >= 0;
    assert playTime <= 0 ==> q <= 0 && r <= 0;
    TruncOfSum(q, y);
    TruncOfSum(0, y);
  }

  /** The factor repeats every cycle: shifting a non-negative play time by whole cycles does not move it. */
  lemma FactorPeriodic(playTime: int, cycles: int, duration: int)
    requires duration > 0 && playTime >= 0 && playTime + cycles * duration >= 0
    ensures Factor(playTime + cycles * duration, duration) == Factor(playTime, duration)
  {
    var d := duration as real;
    var x := playTime as real / d;
    var n := Trunc(x);
    assert (playTime + cycles * duration) as real / d == x + cycles as real;
    assert x + cycles as real >= 0.0;
    assert (n + cycles) as real + FracPart(x) == x + cycles as real;
    TruncOfSum(n + cycles, FracPart(x));
  }

  /** The rotation, in degrees, applied to the whole frame at cycle factor `factor`. */
  function Rotation(factor: real): (degrees: real)
    ensures 0.0 <= factor < 1.0 ==> 0.0 <= degrees < CYCLE_ROTATION as real
  {
    CYCLE_ROTATION as real * factor
  }

  /** The fraction of the cycle dot `index` waits before it starts to move. */
  function Stagger(index: int): (wait: real)
    ensures 0 <= index < POINT_NUM ==> 0.0 <= wait < STAGGER_SPAN
    ensures wait * POINT_NUM as real == STAGGER_SPAN * index as real
  {
    var step := STAGGER_SPAN / POINT_NUM as real;
    assert step == 0.044;
    step * index as real
  }

  /**
   * `getItemFactor` before the interpolator: the dot's progress through its
   * own window, clamped to [0, 1]. It is 0 before the window opens, 1 after
   * it closes, and grows linearly, three times as fast as the cycle, inside it.
   */
  function ClampedItemFactor(index: int, factor: real): (t: real)
    ensures 0.0 <= t <= 1.0
    ensures factor <= Stagger(index) ==> t == 0.0
    ensures factor >= Stagger(index) + 1.0 / WINDOW_SCALE ==> t == 1.0
    ensures Stagger(index) < factor < Stagger(index) + 1.0 / WINDOW_SCALE ==>
              0.0 < t < 1.0 && t == (factor - Stagger(index)) * WINDOW_SCALE
  {
    var t := (factor - Stagger(index)) * WINDOW_SCALE;
    if t < 0.0 then 0.0 else if t > 1.0 then 1.0 else t
  }

  /** `getItemFactor`: the clamped progress handed to the interpolator. */
  function ItemFactor(index: int, factor: real, interpolator: real -> real): (eased: real)
    ensures factor <= Stagger(index) ==> eased == interpolator(0.0)
    ensures factor >= Stagger(index) + 1.0 / WINDOW_SCALE ==> eased == interpolator(1.0)
  {
    interpolator(ClampedItemFactor(index, factor))
  }

  /** An interpolator with the easing curve's endpoints, 0 at 0 and 1 at 1. */
  predicate FixesEndpoints(interpolator: real -> real) {
    interpolator(0.0) == 0.0 && interpolator(1.0) == 1.0
  }

  /** An interpolator that maps [0, 1] into [0, 1]. */
  ghost predicate StaysInUnit(interpolator: real -> real) {
    forall t :: 0.0 <= t <= 1.0 ==> 0.0 <= interpolator(t) <= 1.0
  }

  /** An interpolator that does not decrease on [0, 1]. */
  ghost predicate Monotone(interpolator: real -> real) {
    forall s, t :: 0.0 <= s <= t <= 1.0 ==> interpolator(s) <= interpolator(t)
  }

  /** With an interpolator that fixes 0 and 1, a dot sits at rest before its window and fully across after it. */
  lemma ItemFactorOutsideWindow(index: int, factor: real, interpolator: real -> real)
    requires FixesEndpoints(interpolator)
    ensures factor <= Stagger(index) ==> ItemFactor(index, factor, interpolator) == 0.0
    ensures factor >= Stagger(index) + 1.0 / WINDOW_SCALE ==> ItemFactor(index, factor, interpolator) == 1.0
  {
  }

  /** With an interpolator into [0, 1], the item factor is in [0, 1] whatever the cycle factor. */
  lemma ItemFactorBounded(index: int, factor: real, interpolator: real -> real)
    requires StaysInUnit(interpolator)
    ensures 0.0 <= ItemFactor(index, factor, interpolator) <= 1.0
  {
  }

  /** The clamped progress of a dot grows with the cycle factor. */
  lemma ClampedItemFactorMonotone(index: int, f1: real, f2: real)
    requires f1 <= f2
    ensures ClampedItemFactor(index, f1) <= ClampedItemFactor(index, f2)
  {
  }

  /** Each dot trails the one before it: at any instant it is no further along. */
  lemma ClampedItemFactorTrails(index: int, factor: real)
    requires 0 <= index
    ensures ClampedItemFactor(index + 1, factor) <= ClampedItemFactor(index, factor)
  {
    assert Stagger(index) <= Stagger(index + 1);
    ClampedItemFactorMonotone(index, factor - (Stagger(index + 1) - Stagger(index)), factor);
    assert ClampedItemFactor(index + 1, factor)
        == ClampedItemFactor(index, factor - (Stagger(index + 1) - Stagger(index)));
  }

  /** With a monotone interpolator the eased factors keep the same order, dot after dot. */
  lemma ItemFactorTrails(index: int, factor: real, interpolator: real -> real)
    requires 0 <= index && Monotone(interpolator)
    ensures ItemFactor(index + 1, factor, interpolator) <= ItemFactor(index, factor, interpolator)
  {
    ClampedItemFactorTrails(index, factor);
  }

  /**
   * The last dot's window closes before the cycle ends, so from that point
   * on to the wrap every dot sits at its mirror position; at the start of a
   * cycle every dot is at rest.
   */
  lemma AllDotsAcrossBeforeWrap(index: int, factor: real)
    requires 0 <= index < POINT_NUM
    ensures Stagger(POINT_NUM - 1) + 1.0 / WINDOW_SCALE < 1.0
    ensures factor >= Stagger(POINT_NUM - 1) + 1.0 / WINDOW_SCALE ==> ClampedItemFactor(index, factor) == 1.0
    ensures ClampedItemFactor(index, 0.0) == 0.0
  {
    assert Stagger(index) <= Stagger(POINT_NUM - 1);
  }

  /** One coordinate of a dot moved by `itemFactor` along the diameter through its rest position. */
  function Displace(coord: real, itemFactor: real): (c: real)
    ensures itemFactor == 0.0 ==> c == coord
    ensures itemFactor == 1.0 ==> c == -coord
    ensures itemFactor == 0.5 ==> c == 0.0
  {
    coord - 2.0 * coord * itemFactor
  }

  /** The circle the draw loop paints for dot `p` at item factor `itemFactor`. */
  function DrawnCircle(p: ArcPoint, itemFactor: real, pointRadius: int): (c: Circle)
    ensures c.radius == pointRadius && c.color == p.color
    ensures itemFactor == 0.0 ==> c.x == p.x && c.y == p.y
    ensures itemFactor == 1.0 ==> c.x == -p.x && c.y == -p.y
  {
    Circle(Displace(p.x, itemFactor), Displace(p.y, itemFactor), pointRadius, p.color)
  }

  /**
   * The displaced dot stays on the diameter through its rest position: its
   * distance from the centre is |1 - 2·itemFactor| times the rest distance,
   * so for factors in [0, 1] it never leaves the ring.
   */
  lemma DisplaceAlongDiameter(x: real, y: real, itemFactor: real)
    ensures var s := 1.0 - 2.0 * itemFactor;
            Displace(x, itemFactor) * Displace(x, itemFactor) + Displace(y, itemFactor) * Displace(y, itemFactor)
              == s * s * (x * x + y * y)
    ensures 0.0 <= itemFactor <= 1.0 ==>
              Displace(x, itemFactor) * Displace(x, itemFactor) + Displace(y, itemFactor) * Displace(y, itemFactor)
                <= x * x + y * y
  {
    var s := 1.0 - 2.0 * itemFactor;
    assert Displace(x, itemFactor) == s * x;
    assert Displace(y, itemFactor) == s * y;
    if 0.0 <= itemFactor <= 1.0 {
      if s >= 0.0 {
        assert s * s <= s;
      } else {
        assert s * s <= -s;
      }
      var n := x * x + y * y;
      assert n >= 0.0;
      assert (1.0 - s * s) * n >= 0.0;
    }
  }

  /**
   * Why the rotation is CYCLE_ROTATION degrees: a dot sent across the centre
   * from slot i faces slot i's angle plus 180 degrees; turning that by
   * CYCLE_ROTATION degrees either way lands exactly on slot i + 6 or slot
   * i + 9, which carry the same colour as slot i. So the last frame of a
   * cycle looks like the first one, and the loop does not jump.
   */
  lemma RotatedMirrorMatchesColor(slot: int)
    requires 0 <= slot < POINT_NUM
    ensures var back := (slot + 6) % POINT_NUM;
            (SlotAngle(slot) + 180 - CYCLE_ROTATION) % 360 == SlotAngle(back)
            && ColorIndex(back) == ColorIndex(slot)
    ensures var ahead := (slot + 9) % POINT_NUM;
            (SlotAngle(slot) + 180 + CYCLE_ROTATION) % 360 == SlotAngle(ahead)
            && ColorIndex(ahead) == ColorIndex(slot)
  {
    var a := SlotAngle(slot);
    assert a == 24 * slot;
    if slot < 9 {
      assert (a + 144) % 360 == 24 * (slot + 6);
      assert (slot + 6) % 3 == slot % 3;
    } else {
      assert (a + 144) % 360 == 24 * (slot - 9);
      assert (slot - 9) % 3 == slot % 3;
    }
    if slot < 6 {
      assert (a + 216) % 360 == 24 * (slot + 9);
      assert (slot + 9) % 3 == slot % 3;
    } else {
      assert (a + 216) % 360 == 24 * (slot - 6);
      assert (slot - 6) % 3 == slot % 3;
    }
  }

  /**
   * A worked instant: 600 ms into a 3600 ms cycle the factor is 1/6; dot 0
   * is half-way through its window, dots 1 to 3 are moving, and dots 4 to 14
   * have not yet started.
   */
  lemma SixHundredMilliseconds(index: int)
    requires 0 <= index < POINT_NUM
    ensures Factor(600, DEFAULT_DURATION) == 1.0 / 6.0
    ensures ClampedItemFactor(0, 1.0 / 6.0) == 0.5
    ensures 1 <= index <= 3 ==> 0.0 < ClampedItemFactor(index, 1.0 / 6.0) < 1.0
    ensures 4 <= index ==> ClampedItemFactor(index, 1.0 / 6.0) == 0.0
  {
    assert Factor(600, DEFAULT_DURATION) * DEFAULT_DURATION as real == 600.0;
  }
}
