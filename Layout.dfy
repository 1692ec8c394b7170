/**
 * The static half of the progress view: the ring of POINT_NUM dots that
 * `calPoints` lays out, their integer radii and their colours. The
 * trigonometry of a slot's position is not modelled: each slot's direction,
 * the pair (-sin θ, -cos θ) for θ = DELTA_ANGLE·i degrees, is an input
 * (`ring`), and the layout scales it by the integer ring radius.
 */
module Layout {
  import opened JavaArith

  /** Java's 32-bit `int`, the type the view stores an ARGB colour in. */
  newtype Int32 = x: int | -0x8000_0000 <= x < 0x8000_0000

  const POINT_NUM: int := 15
  const COLOR_NUM: int := 3
  const DELTA_ANGLE: int := 360 / POINT_NUM

  /** The default palette; each literal is an unsigned ARGB word that Java reads as a negative `int`. */
  const RED: Int32 := (0xFFE5282C - 0x1_0000_0000) as Int32
  const YELLOW: Int32 := (0xFF1F909A - 0x1_0000_0000) as Int32
  const BLUE: Int32 := (0xFFFC9E12 - 0x1_0000_0000) as Int32

  /** One laid-out dot: its rest position relative to the view's centre and its colour. */
  datatype ArcPoint = ArcPoint(x: real, y: real, color: Int32)

  /**
   * The ring radius for a view of side `viewSize` scaled by `factor`:
   * a third of the side (integer division), times the factor, cast back to `int`.
   */
  function LayoutRadius(viewSize: int, factor: real): (radius: int)
    ensures factor == 1.0 ==> radius == Div(viewSize, 3)
    ensures viewSize >= 0 && factor >= 0.0 ==>
              0 <= radius && radius as real <= (viewSize / 3) as real * factor < radius as real + 1.0
    ensures viewSize >= 0 && 0.0 <= factor <= 1.0 ==> 0 <= 3 * radius <= viewSize
  {
    var third := Div(viewSize, 3);
    assert viewSize >= 0 && factor >= 0.0 ==> third >= 0 && third as real * factor >= 0.0;
    assert viewSize >= 0 && 0.0 <= factor <= 1.0 ==> third as real * factor <= third as real;
    Trunc(third as real * factor)
  }

  /** The radius of one dot, a twelfth of the ring radius in integer division. */
  function PointRadius(radius: int): (r: int)
    ensures radius >= 0 ==> 0 <= 12 * r <= radius < 12 * r + 12
    ensures radius <= 0 ==> 12 * r - 12 < radius <= 12 * r <= 0
  {
    Div(radius, 12)
  }

  /** The palette index of a slot: the colours repeat every COLOR_NUM slots. */
  function ColorIndex(slot: int): (c: int)
    requires 0 <= slot
    ensures 0 <= c < COLOR_NUM
  {
    slot % COLOR_NUM
  }

  /** The dot `calPoints` stores in `slot` for a ring of radius `radius`. */
  function RestPoint(ring: seq<(real, real)>, colors: seq<Int32>, radius: int, slot: int): (p: ArcPoint)
    requires |ring| == POINT_NUM && |colors| == COLOR_NUM && 0 <= slot < POINT_NUM
    ensures p.color == colors[slot % COLOR_NUM]
    ensures radius == 0 ==> p.x == 0.0 && p.y == 0.0
    ensures ring[slot] == (0.0, -1.0) ==> p.x == 0.0 && p.y == -(radius as real)
  {
    ArcPoint(radius as real * ring[slot].0, radius as real * ring[slot].1, colors[ColorIndex(slot)])
  }

  /** The angle, in whole degrees, of a slot's rest direction. */
  function SlotAngle(slot: int): int {
    DELTA_ANGLE * slot
  }

  /** Whenever the directions are unit vectors, every dot rests on the circle of the ring radius. */
  lemma RestPointOnRing(ring: seq<(real, real)>, colors: seq<Int32>, radius: int, slot: int)
    requires |ring| == POINT_NUM && |colors| == COLOR_NUM && 0 <= slot < POINT_NUM
    requires ring[slot].0 * ring[slot].0 + ring[slot].1 * ring[slot].1 == 1.0
    ensures var p := RestPoint(ring, colors, radius, slot);
            p.x * p.x + p.y * p.y == radius as real * radius as real
  {
    var r, u, v := radius as real, ring[slot].0, ring[slot].1;
    calc {
      (r * u) * (r * u) + (r * v) * (r * v);
      r * r * (u * u + v * v);
      r * r;
    }
  }

  /**
   * Neighbouring slots, including the pair that closes the ring (slot
   * POINT_NUM - 1 and slot 0), never share a palette entry, because
   * POINT_NUM is a multiple of COLOR_NUM.
   */
  lemma NeighboursDiffer(slot: int)
    requires 0 <= slot < POINT_NUM
    ensures ColorIndex(slot) != ColorIndex((slot + 1) % POINT_NUM)
  {
  }

  /** The number of slots below `n` that take palette entry `c`. */
  function CountColor(n: nat, c: int): nat {
    if n == 0 then 0
    else CountColor(n - 1, c) + (if ColorIndex(n - 1) == c then 1 else 0)
  }

  /** Each of the COLOR_NUM palette entries is taken by exactly one slot in every run of COLOR_NUM slots. */
  lemma {:induction false} CountColorInTriples(runs: nat, c: int)
    requires 0 <= c < COLOR_NUM
    ensures CountColor(COLOR_NUM * runs, c) == runs
  {
    if runs > 0 {
      CountColorInTriples(runs - 1, c);
      var n := COLOR_NUM * (runs - 1);
      assert ColorIndex(n) == 0 && ColorIndex(n + 1) == 1 && ColorIndex(n + 2) == 2;
      assert CountColor(n + 1, c) == CountColor(n, c) + (if c == 0 then 1 else 0);
      assert CountColor(n + 2, c) == CountColor(n + 1, c) + (if c == 1 then 1 else 0);
      assert CountColor(n + 3, c) == CountColor(n + 2, c) + (if c == 2 then 1 else 0);
    }
  }

  /** The ring shows every palette colour on exactly POINT_NUM / COLOR_NUM = 5 dots. */
  lemma EachColorFiveTimes(c: int)
    requires 0 <= c < COLOR_NUM
    ensures CountColor(POINT_NUM, c) == POINT_NUM / COLOR_NUM
  {
    CountColorInTriples(POINT_NUM / COLOR_NUM, c);
  }
}
