/**
 * The progress view itself: the playback clock (`mStartTime`, `mPlayTime`,
 * `mStartAnim`), the duration and interpolator, the integer layout sizes and
 * the fifteen-slot `mArcPoint` array. Every reading of the animation clock
 * becomes a `now` parameter; canvas calls become the returned frame.
 */
module CircleProgressView {
  import opened JavaArith
  import opened Layout
  import opened Motion

  datatype Option<T> = None | Some(value: T)

  /** What one `onDraw` paints: the frame rotation in degrees and the circles inside the rotated frame. */
  datatype Frame = Frame(rotation: real, circles: seq<Circle>)

  class CircleProgress {
    /** `COLORS`, read from the view's attributes once, at construction. */
    const colors: seq<Int32>
    /** Per slot, the unit direction (-sin θ, -cos θ) for θ = DELTA_ANGLE·slot degrees. */
    const ring: seq<(real, real)>
    /** `mArcPoint`: a slot is `None` until the first layout fills it. */
    const arcPoints: array<Option<ArcPoint>>

    var interpolator: real -> real
    var viewSize: int
    var pointRadius: int
    var startTime: int
    var playTime: int
    var startAnim: bool
    var duration: int

    ghost predicate Valid()
      reads this
    {
      duration > 0 && arcPoints.Length == POINT_NUM && |colors| == COLOR_NUM && |ring| == POINT_NUM
    }

    /** Every slot has been laid out. */
    ghost predicate LaidOut()
      reads this, arcPoints
      requires Valid()
    {
      forall k :: 0 <= k < POINT_NUM ==> arcPoints[k].Some?
    }

    /** Every slot holds the dot the layout computes for its slot at ring radius `radius`. */
    ghost predicate LaidOutAt(radius: int)
      reads this, arcPoints
      requires Valid()
    {
      forall k :: 0 <= k < POINT_NUM ==> arcPoints[k] == Some(RestPoint(ring, colors, radius, k))
    }

    /** `circles` is what the draw loop paints for the current layout at cycle factor `factor`. */
    ghost predicate DrawnAt(circles: seq<Circle>, factor: real)
      reads this, arcPoints
      requires Valid()
    {
      |circles| == POINT_NUM &&
      forall k :: 0 <= k < POINT_NUM ==>
        arcPoints[k].Some? &&
        circles[k] == DrawnCircle(arcPoints[k].value, ItemFactor(k, factor, interpolator), pointRadius)
    }

    /** The view as `init` leaves it: the palette set, the clock stopped at 0, no slot laid out. */
    constructor (color1: Int32, color2: Int32, color3: Int32, ring: seq<(real, real)>, interpolator: real -> real)
      requires |ring| == POINT_NUM
      ensures Valid() && fresh(arcPoints)
      ensures colors == [color1, color2, color3] && this.ring == ring && this.interpolator == interpolator
      ensures startTime == 0 && playTime == 0 && !startAnim && duration == DEFAULT_DURATION
      ensures viewSize == 0 && pointRadius == 0
      ensures forall k :: 0 <= k < POINT_NUM ==> arcPoints[k] == None
    {
      colors := [color1, color2, color3];
      this.ring := ring;
      arcPoints := new Option<ArcPoint>[POINT_NUM](_ => None);
      this.interpolator := interpolator;
      viewSize, pointRadius := 0, 0;
      startTime, playTime, startAnim := 0, 0, false;
      duration := DEFAULT_DURATION;
    }

    /** The view as `init` leaves it when the attributes name no colours: the default palette RED, YELLOW, BLUE. */
    constructor WithDefaultColors(ring: seq<(real, real)>, interpolator: real -> real)
      requires |ring| == POINT_NUM
      ensures Valid() && fresh(arcPoints)
      ensures colors == [RED, YELLOW, BLUE] && this.ring == ring && this.interpolator == interpolator
      ensures startTime == 0 && playTime == 0 && !startAnim && duration == DEFAULT_DURATION
      ensures viewSize == 0 && pointRadius == 0
      ensures forall k :: 0 <= k < POINT_NUM ==> arcPoints[k] == None
    {
      colors := [RED, YELLOW, BLUE];
      this.ring := ring;
      arcPoints := new Option<ArcPoint>[POINT_NUM](_ => None);
      this.interpolator := interpolator;
      viewSize, pointRadius := 0, 0;
      startTime, playTime, startAnim := 0, 0, false;
      duration := DEFAULT_DURATION;
    }

    /** `onMeasure` once the width and height are resolved: a square view, laid out at factor 1. */
    method OnMeasure(width: int, height: int)
      requires Valid()
      modifies this`viewSize, this`pointRadius, arcPoints
      ensures Valid()
      ensures viewSize == (if width <= height then width else height)
      ensures pointRadius == PointRadius(LayoutRadius(viewSize, 1.0))
      ensures LaidOutAt(LayoutRadius(viewSize, 1.0))
    {
      viewSize := if width <= height then width else height;
      CalPoints(1.0);
    }

    /** `calPoints`: the integer radii for `factor` and every slot's dot, filled slot by slot. */
    method CalPoints(factor: real)
      requires Valid()
      modifies this`pointRadius, arcPoints
      ensures Valid()
      ensures pointRadius == PointRadius(LayoutRadius(viewSize, factor))
      ensures LaidOutAt(LayoutRadius(viewSize, factor))
    {
      var radius := LayoutRadius(viewSize, factor);
      pointRadius := PointRadius(radius);
      for i := 0 to POINT_NUM
        invariant Valid() && pointRadius == PointRadius(radius)
        invariant forall k :: 0 <= k < i ==> arcPoints[k] == Some(RestPoint(ring, colors, radius, k))
      {
        var x := radius as real * ring[i].0;
        var y := radius as real * ring[i].1;
        assert ArcPoint(x, y, colors[i % COLOR_NUM]) == RestPoint(ring, colors, radius, i);
        arcPoints[i] := Some(ArcPoint(x, y, colors[i % COLOR_NUM]));
      }
    }

    /** `getFactor`: while playing, the play time is re-read from the clock; the factor is always derived from it. */
    method GetFactor(now: int) returns (factor: real)
      requires Valid()
      modifies this`playTime
      ensures Valid()
      ensures playTime == (if startAnim then now - startTime else old(playTime))
      ensures factor == Factor(playTime, duration)
    {
      if startAnim {
        playTime := now - startTime;
      }
      factor := FracPart(playTime as real / duration as real);
    }

    /** The draw loop of `onDraw`: each slot's circle at cycle factor `factor`; `None` where a slot is still empty. */
    method DrawDots(factor: real) returns (circles: Option<seq<Circle>>)
      requires Valid()
      ensures circles.Some? <==> LaidOut()
      ensures circles.Some? ==> DrawnAt(circles.value, factor)
    {
      var drawn: seq<Circle> := [];
      var i := 0;
      while i < POINT_NUM
        invariant 0 <= i <= POINT_NUM && |drawn| == i
        invariant forall k :: 0 <= k < i ==>
                    arcPoints[k].Some? &&
                    drawn[k] == DrawnCircle(arcPoints[k].value, ItemFactor(k, factor, interpolator), pointRadius)
      {
        match arcPoints[i]
        case None =>
          return None;
        case Some(p) =>
          var itemFactor := ItemFactor(i, factor, interpolator);
          var x := p.x - 2.0 * p.x * itemFactor;
          var y := p.y - 2.0 * p.y * itemFactor;
          drawn := drawn + [Circle(x, y, pointRadius, p.color)];
        i := i + 1;
      }
      return Some(drawn);
    }

    /**
     * `onDraw` at clock reading `now`: the frame turned by the rotation for
     * the current factor, the circles, and whether another frame is asked
     * for (only while playing). With a slot still empty the source fails
     * on a null dereference after updating the play time; that is `None`.
     */
    method OnDraw(now: int) returns (frame: Option<Frame>, redraw: bool)
      requires Valid()
      modifies this`playTime
      ensures Valid()
      ensures playTime == (if startAnim then now - startTime else old(playTime))
      ensures frame.Some? <==> LaidOut()
      ensures frame.Some? ==>
                frame.value.rotation == Rotation(Factor(playTime, duration))
                && DrawnAt(frame.value.circles, Factor(playTime, duration))
      ensures redraw <==> frame.Some? && startAnim
    {
      var factor := GetFactor(now);
      var circles := DrawDots(factor);
      if circles.Some? {
        frame := Some(Frame(CYCLE_ROTATION as real * factor, circles.value));
        redraw := startAnim;
      } else {
        frame, redraw := None, false;
      }
    }

    /** `startAnim`: the stored play time is reduced modulo the duration and the origin re-derived from it. */
    method StartAnim(now: int)
      requires Valid()
      modifies this`playTime, this`startTime, this`startAnim
      ensures Valid() && startAnim
      ensures playTime == Rem(old(playTime), duration)
      ensures startTime == now - playTime
    {
      playTime := Rem(playTime, duration);
      startTime := now - playTime;
      startAnim := true;
    }

    /** `stopAnim`: only the flag is cleared; the play time stays what the last `getFactor` wrote. */
    method StopAnim()
      requires Valid()
      modifies this`startAnim
      ensures Valid() && !startAnim
    {
      startAnim := false;
    }

    /** `reset`: stopped, with the play time back at 0. */
    method Reset()
      requires Valid()
      modifies this`startAnim, this`playTime
      ensures Valid() && !startAnim && playTime == 0
    {
      StopAnim();
      playTime := 0;
    }

    /** `setInterpolator`. */
    method SetInterpolator(interpolator: real -> real)
      requires Valid()
      modifies this`interpolator
      ensures Valid() && this.interpolator == interpolator
    {
      this.interpolator := interpolator;
    }

    /** `setDuration`, for a positive duration. */
    method SetDuration(duration: int)
      requires Valid() && duration > 0
      modifies this`duration
      ensures Valid() && this.duration == duration
    {
      this.duration := duration;
    }

    /** `setRadius`: stop, lay out again at `factor`, start; playback resumes at the reduced play time. */
    method SetRadius(factor: real, now: int)
      requires Valid()
      modifies this`startAnim, this`playTime, this`startTime, this`pointRadius, arcPoints
      ensures Valid()
      ensures pointRadius == PointRadius(LayoutRadius(viewSize, factor))
      ensures LaidOutAt(LayoutRadius(viewSize, factor))
      ensures startAnim
      ensures playTime == Rem(old(playTime), duration)
      ensures startTime == now - playTime
    {
      StopAnim();
      CalPoints(factor);
      StartAnim(now);
    }
  }
}
