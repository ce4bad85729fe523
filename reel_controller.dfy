/**
 * The game screen: three reels, the account, the spin button and the prize
 * text.  A click on the button places the bet, spins the reels to randomly
 * chosen stops, waits until all three rest, reads the symbols on the payline
 * and pays the line's prize.
 */
module Controller {
  import opened Symbols
  import opened Paytable
  import opened Reel
  import opened Account

  /**
   * The line's prize multiplier: a paying symbol three times pays its
   * three-match entry, a paying symbol exactly twice its two-match entry, and
   * anything else pays nothing.  This is exactly the payout table.
   */
  function CalculatePrizeMultiplier(a: SlotSymbol, b: SlotSymbol, c: SlotSymbol): (r: int)
    ensures PaysPerTable(a, b, c, r)
    ensures 0 <= r <= 1000
  {
    if a == b && b == c then
      var r :=
        match a
        case Seven => 1000
        case Bar => 500
        case Diamond => 250
        case Bell => 150
        case Cherry => 80
        case _ => 0;
      ThreeOfAKindPays(a, r);
      r
    else if a == b || a == c || b == c then
      var sym := if a == b || a == c then a else b;
      var r :=
        match sym
        case Seven => 100
        case Bar => 75
        case Diamond => 40
        case Bell => 30
        case Cherry => 25
        case _ => 0;
      PairPays(a, b, c, r);
      r
    else
      NoPairPaysNothing(a, b, c);
      0
  }

  /** Which reel shows which symbol does not matter: the prize is the same for every order of the line. */
  lemma {:induction false} PrizeIgnoresReelOrder(a: SlotSymbol, b: SlotSymbol, c: SlotSymbol)
    ensures CalculatePrizeMultiplier(a, b, c) == CalculatePrizeMultiplier(b, a, c)
    ensures CalculatePrizeMultiplier(a, b, c) == CalculatePrizeMultiplier(a, c, b)
    ensures CalculatePrizeMultiplier(a, b, c) == CalculatePrizeMultiplier(c, b, a)
  {
    var m := CalculatePrizeMultiplier(a, b, c);
    PaysDependsOnlyOnCounts(a, b, c, b, a, c, m);
    PrizeIsDetermined(b, a, c, m, CalculatePrizeMultiplier(b, a, c));
    PaysDependsOnlyOnCounts(a, b, c, a, c, b, m);
    PrizeIsDetermined(a, c, b, m, CalculatePrizeMultiplier(a, c, b));
    PaysDependsOnlyOnCounts(a, b, c, c, b, a, m);
    PrizeIsDetermined(c, b, a, m, CalculatePrizeMultiplier(c, b, a));
  }

  /** A line pays something exactly when some paying symbol lands on it at least twice. */
  lemma PrizeNeedsAPayingPair(a: SlotSymbol, b: SlotSymbol, c: SlotSymbol)
    ensures CalculatePrizeMultiplier(a, b, c) > 0 <==>
      exists s :: Occurrences(s, a, b, c) >= 2 && s in Paying
  {
    TablePaysOnlyPayingPairs(a, b, c, CalculatePrizeMultiplier(a, b, c));
  }

  /** The text under the reels. */
  datatype PrizeText = Blank | InsufficientFunds | YouWin(multiplier: int) | NoWin

  /** What a click on the spin button came to. */
  datatype SpinResult =
    | Rejected
    | Stuck
    | Landed(s1: SlotSymbol, s2: SlotSymbol, s3: SlotSymbol, multiplier: int)

  /**
   * A reel that has been sent to `stop` is headed there, and has crashed if its
   * strip is empty; one that has not been sent yet is at rest.
   */
  predicate OnCourse(cfg: ReelConfig, s: ReelState, started: bool, stop: int)
  {
    if started then
      HeadedFor(cfg, s, stop) && (cfg.TotalSymbols() == 0 ==> s.routine.Crashed?)
    else
      Runnable(cfg, s) && s.isIdle
  }

  /** A reel showing the state a frame produced from an on-course state is itself on course. */
  lemma {:induction false} FrameKeepsOnCourse(r: ReelSpinner, s: ReelState, started: bool, stop: int, dt: real)
    requires OnCourse(r.config, s, started, stop) && dt >= 0.0
    requires r.Holds(FrameAdvanced(r.config, s, dt))
    ensures OnCourse(r.config, r.State(), started, stop)
  {
    FrameKeepsRunnable(r.config, s, dt);
    if started {
      FrameKeepsHeading(r.config, s, stop, dt);
    }
  }

  /** A reel that was idle and has just been sent to `stop` is on course for it. */
  lemma {:induction false} StartPutsOnCourse(r: ReelSpinner, s: ReelState, stop: int, dt: real)
    requires Runnable(r.config, s) && s.isIdle && dt >= 0.0
    requires r.Holds(SpinStarted(r.config, s, stop, dt))
    ensures OnCourse(r.config, r.State(), true, stop)
  {
    SpinStartedHeadsFor(r.config, s, stop, dt);
    SpinStartedKeepsRunnable(r.config, s, stop, dt);
  }

  class ReelController {
    const reel1: ReelSpinner
    const reel2: ReelSpinner
    const reel3: ReelSpinner
    const accountManager: AccountManager
    var spinButtonInteractable: bool
    var prizeText: PrizeText

    /** Three distinct, consistent reels, which are all at rest whenever the button can be clicked. */
    ghost predicate Valid()
      reads this, reel1, reel2, reel3
    {
      && reel1 != reel2 && reel2 != reel3 && reel1 != reel3
      && reel1.Valid() && reel2.Valid() && reel3.Valid()
      && (spinButtonInteractable ==> reel1.isIdle && reel2.isIdle && reel3.isIdle)
    }

    /** `Start`: the prize text is cleared; the button starts out clickable. */
    constructor(reel1: ReelSpinner, reel2: ReelSpinner, reel3: ReelSpinner, accountManager: AccountManager)
      requires reel1 != reel2 && reel2 != reel3 && reel1 != reel3
      requires reel1.Valid() && reel2.Valid() && reel3.Valid()
      requires reel1.isIdle && reel2.isIdle && reel3.isIdle
      ensures this.reel1 == reel1 && this.reel2 == reel2 && this.reel3 == reel3
      ensures this.accountManager == accountManager
      ensures spinButtonInteractable && prizeText == Blank && Valid()
    {
      this.reel1 := reel1;
      this.reel2 := reel2;
      this.reel3 := reel3;
      this.accountManager := accountManager;
      spinButtonInteractable := true;
      prizeText := Blank;
    }
 
    /**
     * `StartSpin`, clicked while the button is enabled, and the `SpinAllReels`
     * routine it starts, followed until it finishes or can never finish.
     * `stop1`, `stop2`, `stop3` are the three `Random.Range` draws, every frame
     * lasts `dt`, and each 0.3 s stagger lasts `staggerFrames` frames.  A bet
     * that cannot be covered is refused with nothing else changed.  An empty
     * strip makes its reel's routine throw, so the wait for three idle reels
     * never ends: the bet is gone and the button stays disabled.  Otherwise
     * the reels rest on their stops, the payline shows the symbols there, and
     * a paying line is credited to the account.
     */
    method StartSpin(stop1: int, stop2: int, stop3: int, dt: real, staggerFrames: nat) returns (result: SpinResult)
      requires Valid() && spinButtonInteractable
      requires dt > 0.0
      requires reel1.config.spinSpeed > 0.0 && reel2.config.spinSpeed > 0.0 && reel3.config.spinSpeed > 0.0
      modifies this, reel1, reel2, reel3, accountManager
      ensures Valid()
      ensures old(accountManager.balance) < accountManager.betAmount ==>
        && result == Rejected && prizeText == InsufficientFunds && spinButtonInteractable
        && accountManager.balance == old(accountManager.balance)
        && reel1.State() == old(reel1.State()) && reel2.State() == old(reel2.State())
        && reel3.State() == old(reel3.State())
      ensures old(accountManager.balance) >= accountManager.betAmount && !AllStripsFilled() ==>
        && result == Stuck && prizeText == Blank && !spinButtonInteractable
        && accountManager.balance == old(accountManager.balance) - accountManager.betAmount
      ensures old(accountManager.balance) >= accountManager.betAmount && AllStripsFilled() ==>
        && result.Landed?
        && result.s1 == GetSymbolAt(reel1.config, stop1)
        && result.s2 == GetSymbolAt(reel2.config, stop2)
        && result.s3 == GetSymbolAt(reel3.config, stop3)
        && result.multiplier == CalculatePrizeMultiplier(result.s1, result.s2, result.s3)
        && prizeText == (if result.multiplier > 0 then YouWin(result.multiplier) else NoWin)
        && accountManager.balance == old(accountManager.balance) - accountManager.betAmount
             + (if result.multiplier > 0 then result.multiplier * accountManager.betAmount else 0)
        && spinButtonInteractable
        && reel1.positionY == (stop1 as real) * reel1.config.symbolHeight
        && reel2.positionY == (stop2 as real) * reel2.config.symbolHeight
        && reel3.positionY == (stop3 as real) * reel3.config.symbolHeight
    {
      var placed := accountManager.PlaceBet();
      if !placed {
        prizeText := InsufficientFunds;
        return Rejected;
      }
      spinButtonInteractable := false;
      prizeText := Blank;
      result := SpinAllReels(stop1, stop2, stop3, dt, staggerFrames);
    }

    /** Every reel has at least one symbol. */
    predicate AllStripsFilled()
      reads this
    {
      reel1.config.TotalSymbols() > 0 && reel2.config.TotalSymbols() > 0 && reel3.config.TotalSymbols() > 0
    }

    /** `SpinAllReels`, entered with the button disabled and all three reels at rest. */
    method SpinAllReels(stop1: int, stop2: int, stop3: int, dt: real, staggerFrames: nat) returns (result: SpinResult)
      requires Valid() && !spinButtonInteractable && reel1.isIdle && reel2.isIdle && reel3.isIdle
      requires dt > 0.0
      requires reel1.config.spinSpeed > 0.0 && reel2.config.spinSpeed > 0.0 && reel3.config.spinSpeed > 0.0
      modifies this, reel1, reel2, reel3, accountManager
      ensures Valid()
      ensures !AllStripsFilled() ==>
        && result == Stuck && !spinButtonInteractable && prizeText == old(prizeText)
        && accountManager.balance == old(accountManager.balance)
      ensures AllStripsFilled() ==>
        && result.Landed?
        && result.s1 == GetSymbolAt(reel1.config, stop1)
        && result.s2 == GetSymbolAt(reel2.config, stop2)
        && result.s3 == GetSymbolAt(reel3.config, stop3)
        && result.multiplier == CalculatePrizeMultiplier(result.s1, result.s2, result.s3)
        && prizeText == (if result.multiplier > 0 then YouWin(result.multiplier) else NoWin)
        && accountManager.balance == old(accountManager.balance)
             + (if result.multiplier > 0 then result.multiplier * accountManager.betAmount else 0)
        && spinButtonInteractable
        && reel1.positionY == (stop1 as real) * reel1.config.symbolHeight
        && reel2.positionY == (stop2 as real) * reel2.config.symbolHeight
        && reel3.positionY == (stop3 as real) * reel3.config.symbolHeight
    {
      var stuck := LaunchReels(stop1, stop2, stop3, dt, staggerFrames);
      if stuck {
        return Stuck;
      }
      WaitUntilIdle(stop1, stop2, stop3, dt);
      result := PayLine(stop1, stop2, stop3);
    }

    /**
     * The first part of `SpinAllReels`: the reels are started one after the
     * other, `staggerFrames` frames apart.  The wait that follows can only end
     * when no reel's routine has crashed on an empty strip.
     */
    method LaunchReels(stop1: int, stop2: int, stop3: int, dt: real, staggerFrames: nat) returns (stuck: bool)
      requires reel1 != reel2 && reel2 != reel3 && reel1 != reel3
      requires reel1.Valid() && reel2.Valid() && reel3.Valid()
      requires reel1.isIdle && reel2.isIdle && reel3.isIdle && dt > 0.0
      modifies reel1, reel2, reel3
      ensures reel1.Valid() && reel2.Valid() && reel3.Valid()
      ensures stuck <==> !AllStripsFilled()
      ensures OnCourse(reel1.config, reel1.State(), true, stop1)
      ensures OnCourse(reel2.config, reel2.State(), true, stop2)
      ensures OnCourse(reel3.config, reel3.State(), true, stop3)
    {
      StartReel(reel1, stop1, dt);
      RunFrames(staggerFrames, dt, true, false, false, stop1, stop2, stop3);
      StartReel(reel2, stop2, dt);
      RunFrames(staggerFrames, dt, true, true, false, stop1, stop2, stop3);
      StartReel(reel3, stop3, dt);
      stuck := reel1.routine.Crashed? || reel2.routine.Crashed? || reel3.routine.Crashed?;
    }

    /** The last part of `SpinAllReels`: the payline is read, priced and paid, and the button re-enabled. */
    method PayLine(stop1: int, stop2: int, stop3: int) returns (result: SpinResult)
      requires AllStripsFilled() && reel1.isIdle && reel2.isIdle && reel3.isIdle
      modifies this, accountManager
      ensures result.Landed?
      ensures result.s1 == GetSymbolAt(reel1.config, stop1)
      ensures result.s2 == GetSymbolAt(reel2.config, stop2)
      ensures result.s3 == GetSymbolAt(reel3.config, stop3)
      ensures result.multiplier == CalculatePrizeMultiplier(result.s1, result.s2, result.s3)
      ensures prizeText == (if result.multiplier > 0 then YouWin(result.multiplier) else NoWin)
      ensures accountManager.balance == old(accountManager.balance)
             + (if result.multiplier > 0 then result.multiplier * accountManager.betAmount else 0)
      ensures spinButtonInteractable
    {
      var s1 := GetSymbolAt(reel1.config, stop1);
      var s2 := GetSymbolAt(reel2.config, stop2);
      var s3 := GetSymbolAt(reel3.config, stop3);
      var multiplier := CalculatePrizeMultiplier(s1, s2, s3);
      if multiplier > 0 {
        prizeText := YouWin(multiplier);
        accountManager.AddWin(multiplier);
      } else {
        prizeText := NoWin;
      }
      spinButtonInteractable := true;
      result := Landed(s1, s2, s3, multiplier);
    }

    /** `reel.StartSpinAt(stop)` on an idle reel sends it on course for `stop`. */
    static method StartReel(reel: ReelSpinner, stop: int, dt: real)
      requires reel.Valid() && reel.isIdle && dt >= 0.0
      modifies reel
      ensures reel.Valid() && OnCourse(reel.config, reel.State(), true, stop)
      ensures reel.routine.Crashed? <==> reel.config.TotalSymbols() == 0
    {
      ghost var s := reel.State();
      reel.StartSpinAt(stop, dt);
      StartPutsOnCourse(reel, s, stop, dt);
      SpinStartedKeepsRunnable(reel.config, s, stop, dt);
    }

    /** One frame: each reel's routine, if it has one, resumes once. */
    method Frame(dt: real)
      requires reel1 != reel2 && reel2 != reel3 && reel1 != reel3
      requires reel1.Valid() && reel2.Valid() && reel3.Valid() && dt > 0.0
      modifies reel1, reel2, reel3
      ensures reel1.Valid() && reel2.Valid() && reel3.Valid()
      ensures reel1.Holds(FrameAdvanced(reel1.config, old(reel1.State()), dt))
      ensures reel2.Holds(FrameAdvanced(reel2.config, old(reel2.State()), dt))
      ensures reel3.Holds(FrameAdvanced(reel3.config, old(reel3.State()), dt))
    {
      reel1.Tick(dt);
      reel2.Tick(dt);
      reel3.Tick(dt);
    }

    /** `frames` frames go by with the reels on course. */
    method RunFrames(frames: nat, dt: real, started1: bool, started2: bool, started3: bool, stop1: int, stop2: int, stop3: int)
      requires reel1 != reel2 && reel2 != reel3 && reel1 != reel3
      requires reel1.Valid() && reel2.Valid() && reel3.Valid() && dt > 0.0
      requires OnCourse(reel1.config, reel1.State(), started1, stop1)
      requires OnCourse(reel2.config, reel2.State(), started2, stop2)
      requires OnCourse(reel3.config, reel3.State(), started3, stop3)
      modifies reel1, reel2, reel3
      ensures reel1.Valid() && reel2.Valid() && reel3.Valid()
      ensures OnCourse(reel1.config, reel1.State(), started1, stop1)
      ensures OnCourse(reel2.config, reel2.State(), started2, stop2)
      ensures OnCourse(reel3.config, reel3.State(), started3, stop3)
    {
      var frame := 0;
      while frame < frames
        invariant reel1.Valid() && reel2.Valid() && reel3.Valid()
        invariant OnCourse(reel1.config, reel1.State(), started1, stop1)
        invariant OnCourse(reel2.config, reel2.State(), started2, stop2)
        invariant OnCourse(reel3.config, reel3.State(), started3, stop3)
      {
        ghost var r1, r2, r3 := reel1.State(), reel2.State(), reel3.State();
        Frame(dt);
        FrameKeepsOnCourse(reel1, r1, started1, stop1, dt);
        FrameKeepsOnCourse(reel2, r2, started2, stop2, dt);
        FrameKeepsOnCourse(reel3, r3, started3, stop3, dt);
        frame := frame + 1;
      }
    }

    /** `WaitUntil` all three reels are idle: frames go by until they are. */
    method WaitUntilIdle(stop1: int, stop2: int, stop3: int, dt: real)
      requires reel1 != reel2 && reel2 != reel3 && reel1 != reel3
      requires reel1.Valid() && reel2.Valid() && reel3.Valid() && dt > 0.0
      requires reel1.config.spinSpeed > 0.0 && reel2.config.spinSpeed > 0.0 && reel3.config.spinSpeed > 0.0
      requires OnCourse(reel1.config, reel1.State(), true, stop1) && !reel1.routine.Crashed?
      requires OnCourse(reel2.config, reel2.State(), true, stop2) && !reel2.routine.Crashed?
      requires OnCourse(reel3.config, reel3.State(), true, stop3) && !reel3.routine.Crashed?
      modifies reel1, reel2, reel3
      ensures reel1.Valid() && reel2.Valid() && reel3.Valid()
      ensures reel1.isIdle && reel1.positionY == (stop1 as real) * reel1.config.symbolHeight
      ensures reel2.isIdle && reel2.positionY == (stop2 as real) * reel2.config.symbolHeight
      ensures reel3.isIdle && reel3.positionY == (stop3 as real) * reel3.config.symbolHeight
    {
      while !(reel1.isIdle && reel2.isIdle && reel3.isIdle)
        invariant reel1.Valid() && reel2.Valid() && reel3.Valid()
        invariant OnCourse(reel1.config, reel1.State(), true, stop1) && !reel1.routine.Crashed?
        invariant OnCourse(reel2.config, reel2.State(), true, stop2) && !reel2.routine.Crashed?
        invariant OnCourse(reel3.config, reel3.State(), true, stop3) && !reel3.routine.Crashed?
        decreases FramesLeft(reel1.config, reel1.routine, dt) + FramesLeft(reel2.config, reel2.routine, dt)
                + FramesLeft(reel3.config, reel3.routine, dt)
      {
        ghost var r1, r2, r3 := reel1.State(), reel2.State(), reel3.State();
        Frame(dt);
        FrameNearsLineRest(reel1, reel2, reel3, r1, r2, r3, stop1, stop2, stop3, dt);
      }
    }
  }

  /**
   * A frame keeps a reel that is on course and has not crashed so, and brings
   * it closer to rest unless it already rests.
   */
  lemma {:induction false} FrameNearsRest(r: ReelSpinner, s: ReelState, stop: int, dt: real)
    requires OnCourse(r.config, s, true, stop) && !s.routine.Crashed?
    requires dt > 0.0 && r.config.spinSpeed > 0.0
    requires r.Holds(FrameAdvanced(r.config, s, dt))
    ensures OnCourse(r.config, r.State(), true, stop) && !r.routine.Crashed?
    ensures FramesLeft(r.config, r.routine, dt) <= FramesLeft(r.config, s.routine, dt)
    ensures !s.isIdle ==> FramesLeft(r.config, r.routine, dt) < FramesLeft(r.config, s.routine, dt)
  {
    FrameKeepsOnCourse(r, s, true, stop, dt);
    ProgressOrRest(r.config, s, dt);
  }

  /**
   * While some reel still spins, a frame brings the three reels, taken
   * together, closer to rest: the wait for all three to be idle ends.
   */
  lemma {:induction false} FrameNearsLineRest(r1: ReelSpinner, r2: ReelSpinner, r3: ReelSpinner,
                                              s1: ReelState, s2: ReelState, s3: ReelState,
                                              stop1: int, stop2: int, stop3: int, dt: real)
    requires dt > 0.0 && r1.config.spinSpeed > 0.0 && r2.config.spinSpeed > 0.0 && r3.config.spinSpeed > 0.0
    requires OnCourse(r1.config, s1, true, stop1) && !s1.routine.Crashed? && r1.Holds(FrameAdvanced(r1.config, s1, dt))
    requires OnCourse(r2.config, s2, true, stop2) && !s2.routine.Crashed? && r2.Holds(FrameAdvanced(r2.config, s2, dt))
    requires OnCourse(r3.config, s3, true, stop3) && !s3.routine.Crashed? && r3.Holds(FrameAdvanced(r3.config, s3, dt))
    requires !(s1.isIdle && s2.isIdle && s3.isIdle)
    ensures OnCourse(r1.config, r1.State(), true, stop1) && !r1.routine.Crashed?
    ensures OnCourse(r2.config, r2.State(), true, stop2) && !r2.routine.Crashed?
    ensures OnCourse(r3.config, r3.State(), true, stop3) && !r3.routine.Crashed?
    ensures FramesLeft(r1.config, r1.routine, dt) + FramesLeft(r2.config, r2.routine, dt) + FramesLeft(r3.config, r3.routine, dt)
      < FramesLeft(r1.config, s1.routine, dt) + FramesLeft(r2.config, s2.routine, dt) + FramesLeft(r3.config, s3.routine, dt)
  {
    FrameNearsRest(r1, s1, stop1, dt);
    FrameNearsRest(r2, s2, stop2, dt);
    FrameNearsRest(r3, s3, stop3, dt);
  }

  /** A frame brings a spinning reel closer to rest and leaves a resting one where it is. */
  lemma ProgressOrRest(cfg: ReelConfig, s: ReelState, dt: real)
    requires Runnable(cfg, s) && dt > 0.0 && cfg.spinSpeed > 0.0
    ensures s.routine.Spinning() ==> FramesLeft(cfg, FrameAdvanced(cfg, s, dt).routine, dt) < FramesLeft(cfg, s.routine, dt)
    ensures !s.routine.Spinning() ==> FrameAdvanced(cfg, s, dt) == s
  {
    if s.routine.Spinning() {
      FrameBringsRestCloser(cfg, s, dt);
    }
  }
}
