/**
 * Call sequences a host makes on the progress view, and what the view's
 * contracts let it conclude about the cycle factor it will draw.
 */
module Playback {
  import opened JavaArith
  import opened Layout
  import opened Motion
  import opened CircleProgressView

  /** `startAnim` at `now`, then a frame at that same `now`: the factor is the one the old play time gave. */
  method StartKeepsPhase(c: CircleProgress, now: int) returns (factor: real)
    requires c.Valid()
    modifies c`playTime, c`startTime, c`startAnim
    ensures c.Valid() && c.startAnim
    ensures c.playTime == Rem(old(c.playTime), c.duration)
    ensures factor == Factor(old(c.playTime), c.duration)
  {
    c.StartAnim(now);
    factor := c.GetFactor(now);
    FactorOfRem(old(c.playTime), c.duration);
  }

  /**
   * A frame at `t1` while playing, a pause, and a resume with a frame at
   * `t2`: both frames show the same factor, however long the pause was.
   */
  method PauseResumeKeepsPhase(c: CircleProgress, t1: int, t2: int) returns (before: real, after: real)
    requires c.Valid() && c.startAnim
    modifies c`playTime, c`startTime, c`startAnim
    ensures c.Valid() && c.startAnim
    ensures before == after
    ensures before == Factor(t1 - old(c.startTime), c.duration)
  {
    before := c.GetFactor(t1);
    c.StopAnim();
    c.StartAnim(t2);
    after := c.GetFactor(t2);
    FactorOfRem(t1 - old(c.startTime), c.duration);
  }

  /** While stopped, reading the factor at two instants writes nothing and gives the same value. */
  method StoppedClockIsFrozen(c: CircleProgress, t1: int, t2: int) returns (f1: real, f2: real)
    requires c.Valid()
    modifies c`playTime, c`startTime, c`startAnim
    ensures c.Valid() && !c.startAnim
    ensures c.playTime == old(c.playTime)
    ensures f1 == f2 == Factor(old(c.playTime), c.duration)
  {
    c.StopAnim();
    f1 := c.GetFactor(t1);
    f2 := c.GetFactor(t2);
  }

  /** After `reset`, a frame at any instant shows factor 0 and the clock stays stopped. */
  method ResetShowsStart(c: CircleProgress, now: int) returns (factor: real)
    requires c.Valid()
    modifies c`playTime, c`startTime, c`startAnim
    ensures c.Valid() && !c.startAnim && c.playTime == 0
    ensures factor == 0.0
  {
    c.Reset();
    factor := c.GetFactor(now);
  }

  /**
   * `setRadius` at `now`, then a frame at that same `now`: the new layout is
   * drawn at the phase the old play time gave, not from the start of a cycle.
   */
  method SetRadiusKeepsPhase(c: CircleProgress, radiusFactor: real, now: int) returns (factor: real)
    requires c.Valid()
    modifies c`playTime, c`startTime, c`startAnim, c`pointRadius, c.arcPoints
    ensures c.Valid() && c.startAnim
    ensures c.LaidOutAt(LayoutRadius(c.viewSize, radiusFactor))
    ensures factor == Factor(old(c.playTime), c.duration)
  {
    c.SetRadius(radiusFactor, now);
    factor := c.GetFactor(now);
    FactorOfRem(old(c.playTime), c.duration);
  }
}
