/**
 * One reel: a circular strip of symbols and the spin routine that scrolls it.
 *
 * The routine is a Unity coroutine.  `StartSpinAt` runs it synchronously up to
 * its first `yield`; after that, every frame resumes it once, with that frame's
 * `Time.deltaTime`.  Here the suspended coroutine is a value of `Routine` that
 * holds the locals it was suspended with, `SpinStarted` and `FrameAdvanced` say
 * what one start and one frame do to the whole reel state, and the class
 * `ReelSpinner` performs them in place.  Positions are exact reals.
 */
module Reel {
  import opened Symbols
  import opened Arith
  import opened CSharp

  /** A reel's inspector settings and its strip (defaults: height 200, speed 2000, 1 s of deceleration, 3 extra loops). */
  datatype ReelConfig = ReelConfig(
    symbolSequence: seq<SlotSymbol>,
    symbolHeight: real,
    spinSpeed: real,
    decelerationTime: real,
    extraLoops: int)
  {
    /** `totalSymbols`, taken from the strip in `Awake`. */
    function TotalSymbols(): nat { |symbolSequence| }

    /** `oneReelHeight`: the height of one copy of the strip. */
    function OneReelHeight(): (height: real)
      ensures WellFormed() && TotalSymbols() > 0 ==> height > 0.0
    {
      PositiveProduct(symbolHeight, |symbolSequence| as real);
      symbolHeight * (|symbolSequence| as real)
    }

    /** A symbol has a positive height, so positions convert to slots. */
    predicate WellFormed() { symbolHeight > 0.0 }
  }

  /**
   * The symbol at stop `index`, read circularly.  An empty strip yields the
   * enum's default and reads nothing; otherwise the slot is `index` reduced
   * into [0, N), whatever the sign of `index`.
   */
  function GetSymbolAt(cfg: ReelConfig, index: int): (s: SlotSymbol)
    ensures cfg.TotalSymbols() == 0 ==> s == DefaultSymbol
    ensures cfg.TotalSymbols() > 0 ==>
      0 <= index % cfg.TotalSymbols() < cfg.TotalSymbols() &&
      s == cfg.symbolSequence[index % cfg.TotalSymbols()]
  {
    var n := cfg.TotalSymbols();
    if n == 0 then DefaultSymbol
    else
      DoubleRemIsEuclidean(index, n);
      cfg.symbolSequence[Rem(Rem(index, n) + n, n)]
  }

  /** Stops a whole number of turns apart show the same symbol. */
  lemma {:induction false} GetSymbolAtIsPeriodic(cfg: ReelConfig, index: int, k: int)
    ensures GetSymbolAt(cfg, index + k * cfg.TotalSymbols()) == GetSymbolAt(cfg, index)
  {
    if cfg.TotalSymbols() > 0 {
      ModAddMultiple(index, k, cfg.TotalSymbols());
    }
  }

  /** The reel's `Mod(x, m) = ((x % m) + m) % m` with C#'s truncating float `%`. */
  function Mod(x: real, m: real): (r: real)
    requires m > 0.0
    ensures 0.0 <= r < m
  {
    FloatRem(FloatRem(x, m) + m, m)
  }

  /** The double truncated remainder equals the floored remainder `x - m * floor(x / m)`. */
  lemma ModIsFloored(x: real, m: real)
    requires m > 0.0
    ensures Mod(x, m) == x - m * ((x / m).Floor as real)
  {
    FlooredFromTwoMultiples(x, m, FloatRem(x, m), Mod(x, m));
  }

  /** Taking `r1` and then `r` off by whole multiples of `m`, landing in `[0, m)`, leaves the floored remainder. */
  lemma FlooredFromTwoMultiples(x: real, m: real, r1: real, r: real)
    requires m > 0.0 && 0.0 <= r < m
    requires (x - r1) / m == ((x - r1) / m).Floor as real
    requires (r1 + m - r) / m == ((r1 + m - r) / m).Floor as real
    ensures r == x - m * ((x / m).Floor as real)
  {
    var a, b := (x - r1) / m, (r1 + m - r) / m;
    QuotientSign(x - r1, m);
    QuotientSign(r1 + m - r, m);
    var k := a.Floor + b.Floor - 1;
    SumOfMultiples(a, b, m, k as real);
    FractionBetween(x, m, k as real, r);
    assert (x / m).Floor == k;
  }

  /** Two whole multiples of `m` less one `m` are `a + b - 1` multiples of it. */
  lemma SumOfMultiples(a: real, b: real, m: real, c: real)
    requires c == a + b - 1.0
    ensures a * m + b * m - m == c * m
  {
  }

  /** Whole slots wrap onto whole slots: slot `k` is drawn at slot `k mod N`. */
  lemma {:induction false} ModOfWholeSlots(k: int, n: int, h: real)
    requires n > 0 && h > 0.0
    ensures Mod((k as real) * h, h * (n as real)) == ((k % n) as real) * h
  {
    var x, m := (k as real) * h, h * (n as real);
    FloorOfWholeSlots(k, n, h, x, m);
    SlotsLessTurns(k, n, k / n, h, x, m);
    ModFromFloor(x, m, k / n, ((k % n) as real) * h);
  }

  /** Knowing the floor of `x / m`, `Mod` is what is left of `x` after that many whole `m`. */
  lemma ModFromFloor(x: real, m: real, q: int, r: real)
    requires m > 0.0 && (x / m).Floor == q && r == x - m * (q as real)
    ensures Mod(x, m) == r
  {
    ModIsFloored(x, m);
    assert ((x / m).Floor as real) == q as real;
  }

  lemma {:induction false} FloorOfWholeSlots(k: int, n: int, h: real, x: real, m: real)
    requires n > 0 && h > 0.0 && x == (k as real) * h && m == h * (n as real)
    ensures (x / m).Floor == k / n
  {
    ScaledRatio(k as real, n as real, h);
    RatioFloor(k, n);
  }

  lemma SlotsLessTurns(k: int, n: int, q: int, h: real, x: real, m: real)
    requires n > 0 && q == k / n && x == (k as real) * h && m == h * (n as real)
    ensures x - m * (q as real) == ((k % n) as real) * h
  {
    assert k - q * n == k % n;
    assert ((k - q * n) as real) == (k as real) - (n as real) * (q as real);
  }

  /** `1 - (1 - t)^3`: the cubic ease-out of the deceleration phase. */
  function Ease(t: real): (e: real)
    ensures t == 0.0 ==> e == 0.0
    ensures t == 1.0 ==> e == 1.0
    ensures 0.0 <= t <= 1.0 ==> 0.0 <= e <= 1.0
  {
    var u := 1.0 - t;
    CubeBounds(u);
    1.0 - u * u * u
  }

  lemma CubeBounds(u: real)
    ensures 0.0 <= u <= 1.0 ==> 0.0 <= u * u * u <= 1.0
  {
    if 0.0 <= u <= 1.0 {
      ScaleBelow(u, u);
      ScaleBelow(u * u, u);
    }
  }

  /** The ease never runs backwards on [0, 1]. */
  lemma EaseIsMonotone(t1: real, t2: real)
    requires 0.0 <= t1 <= t2 <= 1.0
    ensures Ease(t1) <= Ease(t2)
  {
    CubeMonotone(1.0 - t2, 1.0 - t1);
  }

  /**
   * The routine's suspension point and the locals it holds there.  `Crashed` is
   * a routine that threw: on an empty strip `% totalSymbols` divides by zero
   * right after `isIdle` was cleared, so the reel never becomes idle again.
   */
  datatype Routine =
    | NotRunning
    | FastLoop(stopIndex: int, displayY: real, targetY: real, fastEndY: real)
    | DecelLoop(stopIndex: int, targetY: real, fastEndY: real, elapsed: real)
    | Crashed
  {
    predicate Spinning() { FastLoop? || DecelLoop? }
  }

  /**
   * Everything about a reel that changes: the `isIdle` flag, the routine, and
   * `heldY`, where the reel was last put by something other than a spin loop
   * (populating the strip, or the final snap).  While the routine spins, the
   * drawn position is the one its loop last wrote, given by `PositionY`.
   */
  datatype ReelState = ReelState(isIdle: bool, heldY: real, routine: Routine)

  /** A freshly populated reel: idle, snapped to the top of the strip. */
  const InitialState: ReelState := ReelState(true, 0.0, NotRunning)

  /** What the routine needs to be resumed. */
  predicate Runnable(cfg: ReelConfig, s: ReelState)
  {
    && cfg.WellFormed()
    && (s.isIdle <==> s.routine.NotRunning?)
    && (s.routine.Crashed? ==> cfg.TotalSymbols() == 0)
    && (s.routine.Spinning() ==> cfg.TotalSymbols() > 0)
    && (s.routine.DecelLoop? ==> s.routine.elapsed >= 0.0 && cfg.decelerationTime > 0.0)
  }

  /** The unwrapped position the deceleration loop draws once `elapsed` seconds have passed in it. */
  function EasedY(cfg: ReelConfig, fastEndY: real, targetY: real, elapsed: real): (y: real)
    requires cfg.decelerationTime > 0.0
    ensures elapsed <= 0.0 ==> y == fastEndY
    ensures elapsed >= cfg.decelerationTime ==> y == targetY
    ensures fastEndY <= targetY ==> fastEndY <= y <= targetY
  {
    var t := Clamp01(elapsed / cfg.decelerationTime);
    ClampedTimeEnds(elapsed, cfg.decelerationTime);
    EasedBetween(fastEndY, targetY, Ease(t));
    Lerp(fastEndY, targetY, Ease(t))
  }

  /** The clamped time fraction is 0 before the phase starts and 1 once it is over. */
  lemma ClampedTimeEnds(elapsed: real, d: real)
    requires d > 0.0
    ensures elapsed <= 0.0 ==> Clamp01(elapsed / d) == 0.0
    ensures elapsed >= d ==> Clamp01(elapsed / d) == 1.0
  {
    QuotientSign(elapsed, d);
    if elapsed >= d {
      QuotientAtLeastOne(elapsed, d);
    }
  }

  lemma EasedBetween(a: real, b: real, e: real)
    ensures a <= b ==> a <= Lerp(a, b, e) <= b
  {
    if a <= b {
      LerpWithin(a, b, e);
    }
  }

  /**
   * `reelContent.anchoredPosition.y`: while the routine spins, what its loop
   * last drew, wrapped into one copy of the strip; otherwise where the reel
   * was put.
   */
  function PositionY(cfg: ReelConfig, s: ReelState): (y: real)
    requires Runnable(cfg, s)
    ensures s.routine.Spinning() ==> 0.0 <= y < cfg.OneReelHeight()
    ensures !s.routine.Spinning() ==> y == s.heldY
  {
    match s.routine
    case FastLoop(_, displayY, _, _) => Mod(displayY, cfg.OneReelHeight())
    case DecelLoop(_, targetY, fastEndY, elapsed) =>
      Mod(EasedY(cfg, fastEndY, targetY, elapsed), cfg.OneReelHeight())
    case _ => s.heldY
  }

  /** The slot under the payline at `displayY`: C#'s `%` and then the fix for a negative result. */
  function CurrentIndex(cfg: ReelConfig, displayY: real): (cur: int)
    requires cfg.WellFormed() && cfg.TotalSymbols() > 0
    ensures 0 <= cur < cfg.TotalSymbols()
    ensures cur == FloorToInt(displayY / cfg.symbolHeight) % cfg.TotalSymbols()
  {
    var n := cfg.TotalSymbols();
    var c := Rem(FloorToInt(displayY / cfg.symbolHeight), n);
    RemFixedUpIsEuclidean(FloorToInt(displayY / cfg.symbolHeight), n);
    if c < 0 then c + n else c
  }

  /** Symbol steps to scroll: `extraLoops` whole turns plus the distance forward to the stop. */
  function Steps(cfg: ReelConfig, currentIndex: int, stopIndex: int): (steps: int)
    requires cfg.TotalSymbols() > 0
    ensures var n := cfg.TotalSymbols();
      stopIndex - currentIndex + n >= 0 ==> cfg.extraLoops * n <= steps < (cfg.extraLoops + 1) * n
    ensures (currentIndex + steps - stopIndex) % cfg.TotalSymbols() == 0
  {
    var n := cfg.TotalSymbols();
    var d := stopIndex - currentIndex + n;
    var r := Rem(d, n);
    assert (cfg.extraLoops + 1) * n == cfg.extraLoops * n + n;
    NegatedMultiple(d - r, n);
    ModAddMultiple(-(d - r), cfg.extraLoops + 1, n);
    assert currentIndex + (cfg.extraLoops * n + r) - stopIndex == -(d - r) + (cfg.extraLoops + 1) * n;
    cfg.extraLoops * n + r
  }

  lemma NegatedMultiple(a: int, n: int)
    requires n > 0 && a % n == 0
    ensures (-a) % n == 0
  {
    DivModUnique(-a, n, -(a / n), 0);
  }

  /** From slot `cur`, the step count lands on `stop` after exactly `extraLoops` turns and less than one more. */
  lemma {:induction false} StepsLandOnStop(cfg: ReelConfig, cur: int, stop: int)
    requires cfg.TotalSymbols() > 0
    requires 0 <= cur < cfg.TotalSymbols() && 0 <= stop < cfg.TotalSymbols()
    ensures var n, steps := cfg.TotalSymbols(), Steps(cfg, cur, stop);
      && cfg.extraLoops * n <= steps < (cfg.extraLoops + 1) * n
      && (cur + steps) % n == stop
  {
    var n := cfg.TotalSymbols();
    var d := stop - cur + n;
    var L := cfg.extraLoops;
    var steps := Steps(cfg, cur, stop);
    assert Rem(d, n) == d % n;
    assert (L + 1) * n == L * n + n;
    ModAddMultiple(cur + d % n, L, n);
    assert cur + steps == cur + d % n + L * n;
    if d < n {
      DivModUnique(d, n, 0, d);
      DivModUnique(stop + n, n, 1, stop);
    } else {
      DivModUnique(d, n, 1, d - n);
      DivModUnique(stop, n, 0, stop);
    }
  }

  /** The locals `SpinRoutine` computes before its first loop. */
  function SpinPlan(cfg: ReelConfig, displayY: real, stopIndex: int): (r: Routine)
    requires cfg.WellFormed() && cfg.TotalSymbols() > 0
    ensures r.FastLoop? && r.stopIndex == stopIndex && r.displayY == displayY
    ensures r.targetY - r.fastEndY == cfg.spinSpeed * cfg.decelerationTime
  {
    var currentIndex := CurrentIndex(cfg, displayY);
    var steps := Steps(cfg, currentIndex, stopIndex);
    var startY := displayY;
    var targetY := startY + (steps as real) * cfg.symbolHeight;
    var decelDist := cfg.spinSpeed * cfg.decelerationTime;
    FastLoop(stopIndex, displayY, targetY, targetY - decelDist)
  }

  /** A reel drawn exactly at slot `j` reads slot `j` back. */
  lemma CurrentIndexAtSlot(cfg: ReelConfig, j: int)
    requires cfg.WellFormed() && 0 <= j < cfg.TotalSymbols()
    ensures CurrentIndex(cfg, (j as real) * cfg.symbolHeight) == j
  {
    DivOfScaled(cfg.symbolHeight, j as real);
    assert (j as real) * cfg.symbolHeight == cfg.symbolHeight * (j as real);
    DivModUnique(j, cfg.TotalSymbols(), 0, j);
  }

  /** From slot `j` the plan's target is slot `j + steps`, unwrapped. */
  lemma SpinPlanTarget(cfg: ReelConfig, j: int, stop: int)
    requires cfg.WellFormed() && 0 <= j < cfg.TotalSymbols()
    ensures SpinPlan(cfg, (j as real) * cfg.symbolHeight, stop).targetY
         == ((j + Steps(cfg, j, stop)) as real) * cfg.symbolHeight
  {
    CurrentIndexAtSlot(cfg, j);
    ScaledSum(j, Steps(cfg, j, stop), cfg.symbolHeight);
  }

  /** A position a whole number `k` of slots down the strip wraps onto slot `k % N`. */
  lemma {:induction false} WholeSlotsWrap(cfg: ReelConfig, k: int)
    requires cfg.WellFormed() && cfg.TotalSymbols() > 0
    ensures Mod((k as real) * cfg.symbolHeight, cfg.OneReelHeight())
         == ((k % cfg.TotalSymbols()) as real) * cfg.symbolHeight
  {
    WrapAt(k, cfg.TotalSymbols(), cfg.symbolHeight, cfg.OneReelHeight());
  }

  lemma {:induction false} WrapAt(k: int, n: int, h: real, height: real)
    requires n > 0 && h > 0.0 && height == h * (n as real)
    ensures height > 0.0 && Mod((k as real) * h, height) == ((k % n) as real) * h
  {
    PositiveProduct(h, n as real);
    ModOfWholeSlots(k, n, h);
  }

  /**
   * A reel resting on slot `j` that is asked for `stop` plans to scroll a whole
   * number of symbols, `extraLoops` turns and less than one more, to a target
   * that wraps onto exactly the stop's slot.
   */
  lemma {:induction false} SpinPlanLandsOnStop(cfg: ReelConfig, j: int, stop: int)
    requires cfg.WellFormed() && cfg.TotalSymbols() > 0
    requires 0 <= j < cfg.TotalSymbols() && 0 <= stop < cfg.TotalSymbols()
    ensures cfg.extraLoops * cfg.TotalSymbols() <= Steps(cfg, j, stop) < (cfg.extraLoops + 1) * cfg.TotalSymbols()
    ensures SpinPlan(cfg, (j as real) * cfg.symbolHeight, stop).targetY
         == ((j + Steps(cfg, j, stop)) as real) * cfg.symbolHeight
    ensures Mod(SpinPlan(cfg, (j as real) * cfg.symbolHeight, stop).targetY, cfg.OneReelHeight())
         == (stop as real) * cfg.symbolHeight
  {
    StepsLandOnStop(cfg, j, stop);
    SpinPlanTarget(cfg, j, stop);
    var k := j + Steps(cfg, j, stop);
    TargetWraps(cfg, k, stop, SpinPlan(cfg, (j as real) * cfg.symbolHeight, stop).targetY);
  }

  lemma {:induction false} TargetWraps(cfg: ReelConfig, k: int, stop: int, target: real)
    requires cfg.WellFormed() && cfg.TotalSymbols() > 0
    requires k % cfg.TotalSymbols() == stop && target == (k as real) * cfg.symbolHeight
    ensures Mod(target, cfg.OneReelHeight()) == (stop as real) * cfg.symbolHeight
  {
    WholeSlotsWrap(cfg, k);
  }


  /**
   * The deceleration loop from its test on: while `elapsed` is short of the
   * deceleration time, add this frame's time, draw (`PositionY`) and yield;
   * once it is not, snap to the stop and go idle.
   */
  function Decelerate(cfg: ReelConfig, heldY: real, stop: int, targetY: real, fastEndY: real, elapsed: real, dt: real): (r: ReelState)
    ensures r.isIdle <==> elapsed >= cfg.decelerationTime
    ensures r.isIdle ==> r.routine.NotRunning? && r.heldY == (stop as real) * cfg.symbolHeight
    ensures !r.isIdle ==> r.heldY == heldY && r.routine == DecelLoop(stop, targetY, fastEndY, elapsed + dt)
  {
    if elapsed < cfg.decelerationTime then
      ReelState(false, heldY, DecelLoop(stop, targetY, fastEndY, elapsed + dt))
    else
      ReelState(true, (stop as real) * cfg.symbolHeight, NotRunning)
  }

  /**
   * The fast loop from its test on: below `fastEndY`, scroll `spinSpeed * dt`,
   * draw and yield; otherwise fall through to the deceleration loop with no
   * time elapsed.
   */
  function SpinFast(cfg: ReelConfig, heldY: real, stop: int, displayY: real, targetY: real, fastEndY: real, dt: real): (r: ReelState)
    ensures r.routine.FastLoop? <==> displayY < fastEndY
    ensures r.routine.FastLoop? ==> r.routine.displayY == displayY + cfg.spinSpeed * dt
    ensures r.isIdle ==> displayY >= fastEndY && cfg.decelerationTime <= 0.0
    ensures r.isIdle ==> r.routine.NotRunning? && r.heldY == (stop as real) * cfg.symbolHeight
    ensures !r.isIdle ==> r.heldY == heldY && r.routine.Spinning() && r.routine.stopIndex == stop
  {
    if displayY < fastEndY then
      ReelState(false, heldY, FastLoop(stop, displayY + cfg.spinSpeed * dt, targetY, fastEndY))
    else
      Decelerate(cfg, heldY, stop, targetY, fastEndY, 0.0, dt)
  }

  /** One frame: a suspended routine resumes once; an idle or crashed reel stays as it is. */
  function FrameAdvanced(cfg: ReelConfig, s: ReelState, dt: real): (r: ReelState)
    ensures !s.routine.Spinning() ==> r == s
    ensures s.routine.Spinning() ==>
      || (!r.isIdle && r.heldY == s.heldY && r.routine.Spinning() && r.routine.stopIndex == s.routine.stopIndex)
      || (r.isIdle && r.routine.NotRunning? && r.heldY == (s.routine.stopIndex as real) * cfg.symbolHeight)
  {
    match s.routine
    case NotRunning => s
    case Crashed => s
    case FastLoop(stop, y, targetY, fastEndY) => SpinFast(cfg, s.heldY, stop, y, targetY, fastEndY, dt)
    case DecelLoop(stop, targetY, fastEndY, elapsed) => Decelerate(cfg, s.heldY, stop, targetY, fastEndY, elapsed, dt)
  }

  /**
   * `StartSpinAt(stop)` in a frame of length `dt`: ignored unless the reel is
   * idle; otherwise the routine clears `isIdle`, and on an empty strip the
   * `% totalSymbols` then throws, leaving the reel stuck not idle; on a
   * non-empty strip the plan is laid and the fast loop runs to its first yield.
   */
  function SpinStarted(cfg: ReelConfig, s: ReelState, stop: int, dt: real): (r: ReelState)
    requires cfg.WellFormed()
    ensures !s.isIdle ==> r == s
    ensures s.isIdle && cfg.TotalSymbols() == 0 ==> r == ReelState(false, s.heldY, Crashed)
    ensures s.isIdle && cfg.TotalSymbols() > 0 ==>
      || (!r.isIdle && r.heldY == s.heldY && r.routine.Spinning() && r.routine.stopIndex == stop)
      || (r.isIdle && r.routine.NotRunning? && r.heldY == (stop as real) * cfg.symbolHeight)
  {
    if !s.isIdle then s
    else if cfg.TotalSymbols() == 0 then ReelState(false, s.heldY, Crashed)
    else
      var plan := SpinPlan(cfg, s.heldY, stop);
      SpinFast(cfg, s.heldY, stop, plan.displayY, plan.targetY, plan.fastEndY, dt)
  }

  /** A frame keeps the reel resumable, and a reel that is not spinning does not change. */
  lemma {:induction false} FrameKeepsRunnable(cfg: ReelConfig, s: ReelState, dt: real)
    requires Runnable(cfg, s) && dt >= 0.0
    ensures Runnable(cfg, FrameAdvanced(cfg, s, dt))
    ensures !s.routine.Spinning() ==> FrameAdvanced(cfg, s, dt) == s
  {
  }

  /**
   * Starting a spin keeps the reel resumable.  A reel that is not idle ignores
   * the request; an idle one on an empty strip is left stuck, not idle; an idle
   * one on a non-empty strip is spinning or, if there was nothing to scroll
   * and no time to decelerate, already snapped onto its stop.
   */
  lemma {:induction false} SpinStartedKeepsRunnable(cfg: ReelConfig, s: ReelState, stop: int, dt: real)
    requires Runnable(cfg, s) && dt >= 0.0
    ensures Runnable(cfg, SpinStarted(cfg, s, stop, dt))
    ensures !s.isIdle ==> SpinStarted(cfg, s, stop, dt) == s
    ensures s.isIdle && cfg.TotalSymbols() == 0 ==> SpinStarted(cfg, s, stop, dt).routine.Crashed?
    ensures s.isIdle && cfg.TotalSymbols() > 0 ==>
      var r := SpinStarted(cfg, s, stop, dt);
      r.routine.Spinning() || (r.isIdle && r.heldY == (stop as real) * cfg.symbolHeight)
  {
  }

  /** Whenever a spinning reel comes to rest, it is drawn exactly at its stop's slot. */
  lemma {:induction false} RestIsOnStop(cfg: ReelConfig, s: ReelState, dt: real)
    requires Runnable(cfg, s) && s.routine.Spinning()
    ensures var r := FrameAdvanced(cfg, s, dt);
      r.isIdle ==> Runnable(cfg, r) && PositionY(cfg, r) == (s.routine.stopIndex as real) * cfg.symbolHeight
  {
  }

  /** The deceleration phase never moves the reel backwards, and stays between `fastEndY` and the target. */
  lemma {:induction false} EasedYIsMonotone(cfg: ReelConfig, fastEndY: real, targetY: real, e1: real, e2: real)
    requires cfg.decelerationTime > 0.0 && 0.0 <= e1 <= e2 && fastEndY <= targetY
    ensures fastEndY <= EasedY(cfg, fastEndY, targetY, e1) <= EasedY(cfg, fastEndY, targetY, e2) <= targetY
  {
    var d := cfg.decelerationTime;
    DivideMonotone(e1, e2, d);
    var t1, t2 := Clamp01(e1 / d), Clamp01(e2 / d);
    EaseIsMonotone(t1, t2);
    LerpIsMonotone(fastEndY, targetY, Ease(t1), Ease(t2));
    LerpWithin(fastEndY, targetY, Ease(t1));
    LerpWithin(fastEndY, targetY, Ease(t2));
  }


  /** The frame whose time carries `elapsed` past the deceleration time draws the target, wrapped. */
  lemma {:induction false} LastEasedFrameReachesTarget(cfg: ReelConfig, heldY: real, stop: int, targetY: real, fastEndY: real, elapsed: real, dt: real)
    requires cfg.WellFormed() && cfg.TotalSymbols() > 0
    requires 0.0 <= elapsed < cfg.decelerationTime <= elapsed + dt
    ensures var r := Decelerate(cfg, heldY, stop, targetY, fastEndY, elapsed, dt);
      Runnable(cfg, r) && !r.isIdle && PositionY(cfg, r) == Mod(targetY, cfg.OneReelHeight())
  {
  }

  /** Once `elapsed` has reached the deceleration time, the next resumption snaps the reel onto its stop and ends the routine. */
  lemma {:induction false} SnapEndsDeceleration(cfg: ReelConfig, heldY: real, stop: int, targetY: real, fastEndY: real, elapsed: real, dt: real)
    requires cfg.decelerationTime <= elapsed
    ensures Decelerate(cfg, heldY, stop, targetY, fastEndY, elapsed, dt)
         == ReelState(true, (stop as real) * cfg.symbolHeight, NotRunning)
  {
  }

  /**
   * A spin started with the reel resting on slot `j` ends without a jump: the
   * last eased frame already draws the stop's slot, and the snap that follows
   * on the next frame puts the reel exactly there.
   */
  lemma {:induction false} SnapIsSeamless(cfg: ReelConfig, heldY: real, j: int, stop: int, elapsed: real, dt: real, nextDt: real)
    requires cfg.WellFormed() && 0 <= j < cfg.TotalSymbols() && 0 <= stop < cfg.TotalSymbols()
    requires 0.0 <= elapsed < cfg.decelerationTime <= elapsed + dt
    ensures var plan := SpinPlan(cfg, (j as real) * cfg.symbolHeight, stop);
      var last := Decelerate(cfg, heldY, stop, plan.targetY, plan.fastEndY, elapsed, dt);
      var snapped := FrameAdvanced(cfg, last, nextDt);
      && Runnable(cfg, last) && Runnable(cfg, snapped)
      && PositionY(cfg, last) == (stop as real) * cfg.symbolHeight
      && snapped.isIdle && PositionY(cfg, snapped) == PositionY(cfg, last)
  {
    var plan := SpinPlan(cfg, (j as real) * cfg.symbolHeight, stop);
    SpinPlanLandsOnStop(cfg, j, stop);
    LastEasedFrameReachesTarget(cfg, heldY, stop, plan.targetY, plan.fastEndY, elapsed, dt);
    SnapEndsDeceleration(cfg, heldY, stop, plan.targetY, plan.fastEndY, elapsed + dt, nextDt);
  }

  /** Reel `s` is on its way to `stop`: a running routine aims there, and at rest the reel sits there. */
  predicate HeadedFor(cfg: ReelConfig, s: ReelState, stop: int)
  {
    && Runnable(cfg, s)
    && (s.routine.Spinning() ==> s.routine.stopIndex == stop)
    && (s.isIdle ==> s.heldY == (stop as real) * cfg.symbolHeight)
  }

  /** An idle reel asked for `stop` heads for `stop` (or is stuck, on an empty strip). */
  lemma {:induction false} SpinStartedHeadsFor(cfg: ReelConfig, s: ReelState, stop: int, dt: real)
    requires Runnable(cfg, s) && s.isIdle && dt >= 0.0
    ensures HeadedFor(cfg, SpinStarted(cfg, s, stop, dt), stop)
  {
    SpinStartedKeepsRunnable(cfg, s, stop, dt);
  }

  /** Frames never change where a reel is headed, so it comes to rest only on its stop. */
  lemma {:induction false} FrameKeepsHeading(cfg: ReelConfig, s: ReelState, stop: int, dt: real)
    requires HeadedFor(cfg, s, stop) && dt >= 0.0
    ensures HeadedFor(cfg, FrameAdvanced(cfg, s, dt), stop)
  {
    FrameKeepsRunnable(cfg, s, dt);
  }

  /**
   * The passes a loop `while (x < limit) x += step;` still makes, counting the
   * pass that finds the test false.
   */
  function PassesLeft(x: real, limit: real, step: real): (c: nat)
    requires step > 0.0
    ensures c >= 1
    decreases if x >= limit then 0 else ((limit - x) / step).Floor + 1
  {
    if x >= limit then 1
    else
      PositiveQuotient(limit - x, step);
      FloorStepsDown(limit - x, step);
      assert limit - (x + step) == (limit - x) - step;
      PassesLeft(x + step, limit, step) + 1
  }

  /**
   * How many frames a reel still needs to come to rest when every frame lasts
   * `dt`: zero exactly when it is not spinning.
   */
  function FramesLeft(cfg: ReelConfig, routine: Routine, dt: real): (c: nat)
    requires dt > 0.0 && cfg.spinSpeed > 0.0
    ensures c == 0 <==> !routine.Spinning()
  {
    PositiveProduct(cfg.spinSpeed, dt);
    match routine
    case NotRunning => 0
    case Crashed => 0
    case FastLoop(_, y, _, fastEndY) =>
      PassesLeft(y, fastEndY, cfg.spinSpeed * dt) + PassesLeft(0.0, cfg.decelerationTime, dt)
    case DecelLoop(_, _, _, elapsed) => PassesLeft(elapsed, cfg.decelerationTime, dt)
  }

  /** With frames of a fixed positive length and a positive speed, every frame brings a spinning reel closer to rest. */
  lemma {:induction false} FrameBringsRestCloser(cfg: ReelConfig, s: ReelState, dt: real)
    requires s.routine.Spinning()
    requires dt > 0.0 && cfg.spinSpeed > 0.0
    ensures FramesLeft(cfg, FrameAdvanced(cfg, s, dt).routine, dt) < FramesLeft(cfg, s.routine, dt)
  {
    PositiveProduct(cfg.spinSpeed, dt);
    match s.routine
    case FastLoop(stop, y, targetY, fastEndY) =>
      if y < fastEndY {
        var v := cfg.spinSpeed * dt;
        assert FrameAdvanced(cfg, s, dt).routine == FastLoop(stop, y + v, targetY, fastEndY);
      }
    case DecelLoop(_, _, _, _) =>
  }

  /**
   * The reel component.  `positionY` is the strip's anchored y position and
   * `routine` the suspended `SpinRoutine`; the configuration is fixed once the
   * component is set up.
   */
  class ReelSpinner {
    const config: ReelConfig
    var isIdle: bool
    var positionY: real
    var routine: Routine

    /** The fields as a reel state; while the reel rests, its held position is the drawn one. */
    function State(): ReelState
      reads this
    {
      ReelState(isIdle, positionY, routine)
    }

    ghost predicate Valid()
      reads this
    {
      Runnable(config, State())
    }

    /** The fields hold state `s`: its flag, its routine, and its held position while at rest. */
    ghost predicate Holds(s: ReelState)
      reads this
    {
      && Runnable(config, s)
      && isIdle == s.isIdle
      && routine == s.routine
      && (!s.routine.Spinning() ==> positionY == s.heldY)
    }

    /** The strip is drawn where state `s` puts it. */
    ghost predicate Draws(s: ReelState)
      reads this
      requires Runnable(config, s)
    {
      positionY == PositionY(config, s)
    }

    /** The fields show state `s` completely. */
    ghost predicate Shows(s: ReelState)
      reads this
    {
      Holds(s) && Draws(s)
    }

    /** `Awake` and `PopulateReel`: an idle reel at the top of its strip. */
    constructor(config: ReelConfig)
      requires config.WellFormed()
      ensures this.config == config && State() == InitialState && Valid()
    {
      this.config := config;
      isIdle := true;
      positionY := 0.0;
      routine := NotRunning;
    }

    /** `StartSpinAt`, run up to the routine's first `yield` in a frame of length `dt`. */
    method StartSpinAt(stopIndex: int, dt: real)
      requires Valid() && dt >= 0.0
      modifies this
      ensures Valid() && Holds(SpinStarted(config, old(State()), stopIndex, dt))
      ensures old(isIdle) ==> Draws(SpinStarted(config, old(State()), stopIndex, dt))
      ensures !old(isIdle) ==> unchanged(this)
    {
      if isIdle {
        isIdle := false;
        var n := config.TotalSymbols();
        if n == 0 {
          routine := Crashed;
          return;
        }
        var displayY, targetY, fastEndY := PlanSpin(stopIndex);
        ResumeFast(stopIndex, displayY, targetY, fastEndY, dt);
      }
    }

    /** The locals `SpinRoutine` sets up before its fast loop, read from the current position. */
    method PlanSpin(stopIndex: int) returns (displayY: real, targetY: real, fastEndY: real)
      requires config.WellFormed() && config.TotalSymbols() > 0
      ensures FastLoop(stopIndex, displayY, targetY, fastEndY) == SpinPlan(config, positionY, stopIndex)
    {
      var n := config.TotalSymbols();
      displayY := positionY;
      var currentIndex := Rem(FloorToInt(displayY / config.symbolHeight), n);
      if currentIndex < 0 {
        currentIndex := currentIndex + n;
      }
      assert currentIndex == CurrentIndex(config, displayY);
      var steps := config.extraLoops * n + Rem(stopIndex - currentIndex + n, n);
      var startY := displayY;
      targetY := startY + (steps as real) * config.symbolHeight;
      var decelDist := config.spinSpeed * config.decelerationTime;
      fastEndY := targetY - decelDist;
    }

    /** One frame: resume the routine, if one is suspended. */
    method Tick(dt: real)
      requires Valid() && dt >= 0.0
      modifies this
      ensures Valid() && Shows(FrameAdvanced(config, old(State()), dt))
    {
      match routine
      case NotRunning =>
      case Crashed =>
      case FastLoop(stop, y, targetY, fastEndY) =>
        ResumeFast(stop, y, targetY, fastEndY, dt);
      case DecelLoop(stop, targetY, fastEndY, elapsed) =>
        ResumeDecel(stop, targetY, fastEndY, elapsed, dt);
    }

    /** The fast loop, entered at its test. */
    method ResumeFast(stop: int, displayY: real, targetY: real, fastEndY: real, dt: real)
      requires config.WellFormed() && config.TotalSymbols() > 0 && !isIdle && dt >= 0.0
      modifies this
      ensures Valid() && Shows(SpinFast(config, old(positionY), stop, displayY, targetY, fastEndY, dt))
    {
      if displayY < fastEndY {
        var y := displayY + config.spinSpeed * dt;
        positionY := Mod(y, config.OneReelHeight());
        routine := FastLoop(stop, y, targetY, fastEndY);
        return;
      }
      ResumeDecel(stop, targetY, fastEndY, 0.0, dt);
    }

    /** The deceleration loop, entered at its test with `elapsed` seconds behind it. */
    method ResumeDecel(stop: int, targetY: real, fastEndY: real, elapsed: real, dt: real)
      requires config.WellFormed() && config.TotalSymbols() > 0 && !isIdle && elapsed >= 0.0 && dt >= 0.0
      modifies this
      ensures Valid() && Shows(Decelerate(config, old(positionY), stop, targetY, fastEndY, elapsed, dt))
    {
      if elapsed < config.decelerationTime {
        var e := elapsed + dt;
        var t := Clamp01(e / config.decelerationTime);
        var ease := Ease(t);
        var lerpY := Lerp(fastEndY, targetY, ease);
        positionY := Mod(lerpY, config.OneReelHeight());
        routine := DecelLoop(stop, targetY, fastEndY, e);
        return;
      }
      positionY := (stop as real) * config.symbolHeight;
      isIdle := true;
      routine := NotRunning;
    }
  }
}
