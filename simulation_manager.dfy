/**
 * The batched Monte-Carlo run that estimates the machine's return: every
 * trial draws three stops, prices the line they show and adds the return to
 * running sums; after every batch the running totals, the mean return, its
 * variance and the displayed `rtp` are reported.  The random stops are an
 * input sequence of draws, and doubles are exact reals.
 */
module Simulation {
  import opened Symbols
  import opened Paytable
  import opened Reel
  import opened Controller
  import opened Arith

  /**
   * The simulation's own copy of the prize rule, written out a second time
   * with the same branches as the game's.  It obeys the same payout table.
   */
  function GetPrizeMultiplier(a: SlotSymbol, b: SlotSymbol, c: SlotSymbol): (r: int)
    ensures PaysPerTable(a, b, c, r)
    ensures 0 <= r <= 1000
  {
    if a == b && b == c then
      var r :=
        match a
        case Seven => 1000
        case Bar => 500
        case Diamond => 250
        case Bell => 150
        case Cherry => 80
        case _ => 0;
      ThreeOfAKindPays(a, r);
      r
    else if a == b || a == c || b == c then
      var sym := if a == b || a == c then a else b;
      var r :=
        match sym
        case Seven => 100
        case Bar => 75
        case Diamond => 40
        case Bell => 30
        case Cherry => 25
        case _ => 0;
      PairPays(a, b, c, r);
      r
    else
      NoPairPaysNothing(a, b, c);
      0
  }

  /** The simulation prices every line exactly as the game does. */
  lemma {:induction false} PrizeRulesAgree(a: SlotSymbol, b: SlotSymbol, c: SlotSymbol)
    ensures GetPrizeMultiplier(a, b, c) == CalculatePrizeMultiplier(a, b, c)
  {
    PrizeIsDetermined(a, b, c, GetPrizeMultiplier(a, b, c), CalculatePrizeMultiplier(a, b, c));
  }

  /** The simulation's rule, too, does not depend on which reel shows which symbol. */
  lemma GetPrizeMultiplierIgnoresOrder(a: SlotSymbol, b: SlotSymbol, c: SlotSymbol)
    ensures GetPrizeMultiplier(a, b, c) == GetPrizeMultiplier(b, a, c)
    ensures GetPrizeMultiplier(a, b, c) == GetPrizeMultiplier(a, c, b)
    ensures GetPrizeMultiplier(a, b, c) == GetPrizeMultiplier(c, b, a)
  {
    PrizeRulesAgree(a, b, c);
    PrizeRulesAgree(b, a, c);
    PrizeRulesAgree(a, c, b);
    PrizeRulesAgree(c, b, a);
    PrizeIgnoresReelOrder(a, b, c);
  }

  /** The three reels the simulation reads; only their strips matter here. */
  datatype Reels = Reels(reel1: ReelConfig, reel2: ReelConfig, reel3: ReelConfig)
  {
    predicate AllFilled()
    {
      reel1.TotalSymbols() > 0 && reel2.TotalSymbols() > 0 && reel3.TotalSymbols() > 0
    }
  }

  /** One trial's three `Random.Range` stops. */
  datatype Draw = Draw(stop1: int, stop2: int, stop3: int)

  /** The four running sums. */
  datatype Sums = Sums(sumReturns: real, sumSquares: real, totalBet: real, totalPayout: real)

  const NoSums := Sums(0.0, 0.0, 0.0, 0.0)

  /** What the results text shows after a batch; the standard error and the confidence interval are left out. */
  datatype Report = Report(spinsDone: int, totalBet: real, totalPayout: real, mean: real, variance: real, rtp: real)

  /** A stop drawn in `[0, n)` shows the symbol at that very position of the strip. */
  lemma DrawnStopShowsItsSymbol(cfg: ReelConfig, stop: int)
    requires 0 <= stop < cfg.TotalSymbols()
    ensures GetSymbolAt(cfg, stop) == cfg.symbolSequence[stop]
  {
    DivModUnique(stop, cfg.TotalSymbols(), 0, stop);
  }

  /** The multiplier of the line a draw shows. */
  function LineMultiplier(reels: Reels, d: Draw): (m: int)
    ensures 0 <= m <= 1000
    ensures PaysPerTable(GetSymbolAt(reels.reel1, d.stop1), GetSymbolAt(reels.reel2, d.stop2),
                         GetSymbolAt(reels.reel3, d.stop3), m)
  {
    GetPrizeMultiplier(GetSymbolAt(reels.reel1, d.stop1), GetSymbolAt(reels.reel2, d.stop2),
                       GetSymbolAt(reels.reel3, d.stop3))
  }

  /** One trial returning `bet * m`: the bet is placed, and the return and its square are added. */
  function Trial(t: Sums, bet: real, m: int): (u: Sums)
    ensures u.totalBet - t.totalBet == bet
    ensures u.totalPayout - t.totalPayout == u.sumReturns - t.sumReturns == bet * (m as real)
    ensures u.sumSquares - t.sumSquares == (u.sumReturns - t.sumReturns) * (u.sumReturns - t.sumReturns)
    ensures bet >= 0.0 && m >= 0 ==>
      t.sumReturns <= u.sumReturns && t.sumSquares <= u.sumSquares && t.totalBet <= u.totalBet && t.totalPayout <= u.totalPayout
  {
    var ret := bet * (m as real);
    NonNegativeReturn(bet, m);
    SquareNonNegative(ret);
    Sums(t.sumReturns + ret, t.sumSquares + ret * ret, t.totalBet + bet, t.totalPayout + ret)
  }

  lemma NonNegativeReturn(bet: real, m: int)
    ensures bet >= 0.0 && m >= 0 ==> bet * (m as real) >= 0.0
  {
    if bet >= 0.0 && m >= 0 {
      ProductNonNegative(bet, m as real);
    }
  }

  /** The multipliers of the lines the draws show, in order. */
  function Prices(reels: Reels, draws: seq<Draw>): seq<int>
  {
    if draws == [] then [] else Prices(reels, draws[..|draws| - 1]) + [LineMultiplier(reels, draws[|draws| - 1])]
  }

  /** The sums after the first `n` trials, trial `i` paying `prices[i]` times the bet. */
  function SumsOf(bet: real, prices: seq<int>, n: nat): (t: Sums)
    requires n <= |prices|
    ensures t.totalBet == (n as real) * bet
    ensures t.totalPayout == t.sumReturns
  {
    if n == 0 then NoSums
    else
      ScaledSum(n - 1, 1, bet);
      Trial(SumsOf(bet, prices, n - 1), bet, prices[n - 1])
  }

  lemma {:induction false} PricesLength(reels: Reels, draws: seq<Draw>)
    ensures |Prices(reels, draws)| == |draws|
  {
    if draws != [] {
      PricesLength(reels, draws[..|draws| - 1]);
    }
  }

  /** `prices[i]` is the multiplier of the line draw `i` shows. */
  ghost predicate Priced(reels: Reels, draws: seq<Draw>, prices: seq<int>)
  {
    |prices| == |draws| && forall i {:trigger draws[i]} :: 0 <= i < |draws| ==> prices[i] == LineMultiplier(reels, draws[i])
  }

  /** `Prices` prices every draw. */
  lemma {:induction false} PricesArePriced(reels: Reels, draws: seq<Draw>)
    ensures Priced(reels, draws, Prices(reels, draws))
  {
    PricesLength(reels, draws);
    if draws != [] {
      var front := draws[..|draws| - 1];
      PricesArePriced(reels, front);
      forall i | 0 <= i < |draws| - 1
        ensures Prices(reels, draws)[i] == LineMultiplier(reels, draws[i])
      {
        assert draws[i] == front[i];
      }
    }
  }

  /** The report after `spinsDone` trials with sums `t`; `rtp` is the mean return times 100. */
  function ReportOf(t: Sums, spinsDone: int): (r: Report)
    requires spinsDone > 0
    ensures r.spinsDone == spinsDone && r.totalBet == t.totalBet && r.totalPayout == t.totalPayout
    ensures r.mean * (spinsDone as real) == t.sumReturns
    ensures r.variance + r.mean * r.mean == t.sumSquares / (spinsDone as real)
    ensures r.rtp == 100.0 * r.mean
  {
    QuotientSign(t.sumReturns, spinsDone as real);
    var mean := t.sumReturns / (spinsDone as real);
    Report(spinsDone, t.totalBet, t.totalPayout, mean, t.sumSquares / (spinsDone as real) - mean * mean, mean * 100.0)
  }

  /** `ceil(targetSpins / batchSize)`: how many batches a run makes. */
  function BatchCount(targetSpins: int, batchSize: int): (count: int)
    requires batchSize > 0
    ensures count >= 0
    ensures targetSpins > 0 ==> (count - 1) * batchSize < targetSpins <= count * batchSize
  {
    var q, r := (targetSpins + batchSize - 1) / batchSize, (targetSpins + batchSize - 1) % batchSize;
    assert targetSpins + batchSize - 1 == q * batchSize + r;
    assert (q - 1) * batchSize == q * batchSize - batchSize;
    if targetSpins <= 0 then 0 else (targetSpins + batchSize - 1) / batchSize
  }

  /** How many trials are done once batch `k` (from 0) is over. */
  function BatchEnd(k: int, targetSpins: int, batchSize: int): (n: int)
    ensures n <= targetSpins && n <= (k + 1) * batchSize
    ensures n == targetSpins || n == (k + 1) * batchSize
  {
    if (k + 1) * batchSize < targetSpins then (k + 1) * batchSize else targetSpins
  }

  /**
   * `RunSimulationCoroutine(targetSpins)`, followed to its end, with `draws[i]`
   * the stops of trial `i`.  With an empty strip nothing runs.  Otherwise
   * exactly `targetSpins` trials run, in `ceil(targetSpins / batchSize)`
   * batches, and batch `k` reports the sums of the first
   * `min((k + 1) * batchSize, targetSpins)` trials.
   */
  method RunSimulation(reels: Reels, targetSpins: int, batchSize: int, betPerSpin: real, draws: seq<Draw>,
                       ghost prices: seq<int>)
    returns (sums: Sums, spinsDone: int, reports: seq<Report>)
    requires Priced(reels, draws, prices)
    requires batchSize > 0 || targetSpins <= 0 || !reels.AllFilled()
    requires reels.AllFilled() ==> targetSpins <= |draws|
    ensures !reels.AllFilled() ==> sums == NoSums && spinsDone == 0 && reports == []
    ensures reels.AllFilled() ==>
      && spinsDone == (if targetSpins > 0 then targetSpins else 0)
      && sums == SumsOf(betPerSpin, prices, spinsDone)
      && (targetSpins > 0 ==> |reports| == BatchCount(targetSpins, batchSize))
      && (targetSpins <= 0 ==> reports == [])
      && Reported(betPerSpin, prices, targetSpins, batchSize, reports)
  {
    sums, spinsDone, reports := NoSums, 0, [];
    var n1, n2, n3 := reels.reel1.TotalSymbols(), reels.reel2.TotalSymbols(), reels.reel3.TotalSymbols();
    if n1 == 0 || n2 == 0 || n3 == 0 {
      return;
    }

    while spinsDone < targetSpins
      invariant 0 <= spinsDone <= |draws|
      invariant reports == [] ==> spinsDone == 0
      invariant reports != [] ==> batchSize > 0 && 0 < spinsDone <= targetSpins
      invariant reports != [] ==> spinsDone == BatchEnd(|reports| - 1, targetSpins, batchSize)
      invariant |reports| > 1 ==> BatchEnd(|reports| - 2, targetSpins, batchSize) < targetSpins
      invariant sums == SumsOf(betPerSpin, prices, spinsDone)
      invariant Reported(betPerSpin, prices, targetSpins, batchSize, reports)
      decreases targetSpins - spinsDone
    {
      var batch := if batchSize < targetSpins - spinsDone then batchSize else targetSpins - spinsDone;
      sums := RunBatch(reels, betPerSpin, draws, prices, spinsDone, batch, sums);
      NextBatchEnds(|reports|, spinsDone, targetSpins, batchSize);
      spinsDone := spinsDone + batch;

      var report := BatchReport(sums, spinsDone);
      ReportAppended(betPerSpin, prices, targetSpins, batchSize, reports, report);
      reports := reports + [report];
    }
    if targetSpins > 0 {
      LastBatchIsCount(|reports|, targetSpins, batchSize);
    }
  }

  /** Batch `k` of `reports` shows the sums of the first `BatchEnd(k)` trials, for every `k`. */
  ghost predicate Reported(bet: real, prices: seq<int>, targetSpins: int, batchSize: int, reports: seq<Report>)
  {
    forall k :: 0 <= k < |reports| ==>
      var n := BatchEnd(k, targetSpins, batchSize);
      0 < n <= |prices| && reports[k] == ReportOf(SumsOf(bet, prices, n), n)
  }

  /** A report of the sums of the first `BatchEnd(|reports|)` trials extends a run of reports. */
  lemma ReportAppended(bet: real, prices: seq<int>, targetSpins: int, batchSize: int,
                       reports: seq<Report>, report: Report)
    requires Reported(bet, prices, targetSpins, batchSize, reports)
    requires 0 < BatchEnd(|reports|, targetSpins, batchSize) <= |prices|
    requires report == ReportOf(SumsOf(bet, prices, BatchEnd(|reports|, targetSpins, batchSize)),
                                BatchEnd(|reports|, targetSpins, batchSize))
    ensures Reported(bet, prices, targetSpins, batchSize, reports + [report])
  {
  }

  /** The results text after a batch: mean return, variance of the return and `rtp`, from the running sums. */
  method BatchReport(sums: Sums, spinsDone: int) returns (report: Report)
    requires spinsDone > 0
    ensures report == ReportOf(sums, spinsDone)
  {
    var mean := sums.sumReturns / (spinsDone as real);
    var variance := (sums.sumSquares / (spinsDone as real)) - (mean * mean);
    var rtp := mean * 100.0;
    report := Report(spinsDone, sums.totalBet, sums.totalPayout, mean, variance, rtp);
  }

  /**
   * One batch of `RunSimulationCoroutine`: trials `spinsDone` to
   * `spinsDone + batch - 1` are drawn, priced and added to the sums.
   */
  method RunBatch(reels: Reels, betPerSpin: real, draws: seq<Draw>, ghost prices: seq<int>,
                  spinsDone: nat, batch: int, before: Sums)
    returns (after: Sums)
    requires Priced(reels, draws, prices)
    requires 0 <= batch && spinsDone + batch <= |draws|
    requires before == SumsOf(betPerSpin, prices, spinsDone)
    ensures after == SumsOf(betPerSpin, prices, spinsDone + batch)
  {
    var sumReturns, sumSquares, totalBet, totalPayout := before.sumReturns, before.sumSquares, before.totalBet, before.totalPayout;
    for i := 0 to batch
      invariant Sums(sumReturns, sumSquares, totalBet, totalPayout) == SumsOf(betPerSpin, prices, spinsDone + i)
    {
      var mult := PriceLine(reels, draws, prices, spinsDone + i);
      sumReturns, sumSquares, totalBet, totalPayout := AddTrial(sumReturns, sumSquares, totalBet, totalPayout, betPerSpin, mult);
    }
    after := Sums(sumReturns, sumSquares, totalBet, totalPayout);
  }

  /** The three symbols draw `k` shows, priced by the simulation's prize rule. */
  method PriceLine(reels: Reels, draws: seq<Draw>, ghost prices: seq<int>, k: nat) returns (mult: int)
    requires Priced(reels, draws, prices) && k < |draws|
    ensures mult == prices[k]
  {
    var d := draws[k];
    var c1 := GetSymbolAt(reels.reel1, d.stop1);
    var c2 := GetSymbolAt(reels.reel2, d.stop2);
    var c3 := GetSymbolAt(reels.reel3, d.stop3);
    mult := GetPrizeMultiplier(c1, c2, c3);
  }

  /** The bet is added to the total bet; the return `bet * mult` to the payout and the returns, its square to the squares. */
  method AddTrial(sumReturns: real, sumSquares: real, totalBet: real, totalPayout: real, betPerSpin: real, mult: int)
    returns (sumReturns': real, sumSquares': real, totalBet': real, totalPayout': real)
    ensures Sums(sumReturns', sumSquares', totalBet', totalPayout')
         == Trial(Sums(sumReturns, sumSquares, totalBet, totalPayout), betPerSpin, mult)
  {
    totalBet' := totalBet + betPerSpin;
    var ret := betPerSpin * (mult as real);
    totalPayout' := totalPayout + ret;
    sumReturns' := sumReturns + ret;
    sumSquares' := sumSquares + ret * ret;
  }

  /** The batch after the one that ended at `spinsDone` ends `min(batchSize, targetSpins - spinsDone)` trials later. */
  lemma NextBatchEnds(r: int, spinsDone: int, targetSpins: int, batchSize: int)
    requires batchSize > 0 && 0 <= spinsDone < targetSpins && r >= 0
    requires r == 0 ==> spinsDone == 0
    requires r > 0 ==> spinsDone == BatchEnd(r - 1, targetSpins, batchSize)
    ensures spinsDone + (if batchSize < targetSpins - spinsDone then batchSize else targetSpins - spinsDone)
         == BatchEnd(r, targetSpins, batchSize)
  {
    assert spinsDone == r * batchSize;
    assert (r + 1) * batchSize == r * batchSize + batchSize;
  }

  /** When the loop has just reached `targetSpins`, the number of batches run is `ceil(targetSpins / batchSize)`. */
  lemma LastBatchIsCount(r: int, targetSpins: int, batchSize: int)
    requires batchSize > 0 && targetSpins > 0 && r > 0
    requires BatchEnd(r - 1, targetSpins, batchSize) == targetSpins
    requires r > 1 ==> BatchEnd(r - 2, targetSpins, batchSize) < targetSpins
    ensures r == BatchCount(targetSpins, batchSize)
  {
    var rem := targetSpins - 1 - (r - 1) * batchSize;
    assert targetSpins + batchSize - 1 == r * batchSize + rem;
    DivModUnique(targetSpins + batchSize - 1, batchSize, r, rem);
  }

  /** Every price is a multiplier of the payout table, between 0 and 1000. */
  lemma PricesInRange(reels: Reels, draws: seq<Draw>, prices: seq<int>)
    requires Priced(reels, draws, prices)
    ensures forall i :: 0 <= i < |prices| ==> 0 <= prices[i] <= 1000
  {
    forall i | 0 <= i < |prices|
      ensures 0 <= prices[i] <= 1000
    {
      assert prices[i] == LineMultiplier(reels, draws[i]);
    }
  }

  /** With a non-negative bet, none of the four sums ever decreases. */
  lemma {:induction false} SumsGrow(bet: real, prices: seq<int>, n: nat, m: nat)
    requires bet >= 0.0 && n <= m <= |prices|
    requires forall i :: 0 <= i < |prices| ==> prices[i] >= 0
    ensures SumsOf(bet, prices, n).sumReturns <= SumsOf(bet, prices, m).sumReturns
    ensures SumsOf(bet, prices, n).sumSquares <= SumsOf(bet, prices, m).sumSquares
    ensures SumsOf(bet, prices, n).totalBet <= SumsOf(bet, prices, m).totalBet
    ensures SumsOf(bet, prices, n).totalPayout <= SumsOf(bet, prices, m).totalPayout
  {
    if n < m {
      SumsGrow(bet, prices, n, m - 1);
    }
  }

  /** With a non-negative bet, the payout lies between 0 and 1000 times the total bet. */
  lemma {:induction false} PayoutBounded(bet: real, prices: seq<int>, n: nat)
    requires bet >= 0.0 && n <= |prices|
    requires forall i :: 0 <= i < |prices| ==> 0 <= prices[i] <= 1000
    ensures PayoutWithin(SumsOf(bet, prices, n))
  {
    if n > 0 {
      PayoutBounded(bet, prices, n - 1);
      PayoutStep(SumsOf(bet, prices, n - 1), bet, prices[n - 1]);
    }
  }

  /** The payout lies between 0 and 1000 times the amount bet. */
  ghost predicate PayoutWithin(t: Sums)
  {
    0.0 <= t.totalPayout <= 1000.0 * t.totalBet
  }

  /** A trial paying between 0 and 1000 bets keeps the payout between 0 and 1000 times the amount bet. */
  lemma PayoutStep(t: Sums, bet: real, m: int)
    requires bet >= 0.0 && 0 <= m <= 1000 && PayoutWithin(t)
    ensures PayoutWithin(Trial(t, bet, m))
  {
    var u, x := Trial(t, bet, m), bet * (m as real);
    ProductNonNegative(bet, m as real);
    ScaledMonotone(bet, m as real, 1000.0);
    assert u.totalPayout == t.totalPayout + x && x <= 1000.0 * bet;
    assert 1000.0 * u.totalBet == 1000.0 * t.totalBet + 1000.0 * bet;
  }

  /** The squared sum of the returns is at most `n` times the sum of their squares. */
  lemma {:induction false} ReturnsSquaredBound(bet: real, prices: seq<int>, n: nat)
    requires n <= |prices|
    ensures MomentsBounded(SumsOf(bet, prices, n), n)
  {
    if n > 0 {
      ReturnsSquaredBound(bet, prices, n - 1);
      MomentStep(bet, prices, n);
    }
  }

  /** The sum `s` and the sum of squares `q` of `n` returns satisfy `s * s <= n * q`, and `q >= 0`. */
  ghost predicate MomentsBounded(t: Sums, n: nat)
  {
    t.sumSquares >= 0.0 && t.sumReturns * t.sumReturns <= (n as real) * t.sumSquares
  }

  /** A trial keeps the bound of `ReturnsSquaredBound` from `n - 1` to `n` trials. */
  lemma MomentStep(bet: real, prices: seq<int>, n: nat)
    requires 0 < n <= |prices|
    requires MomentsBounded(SumsOf(bet, prices, n - 1), n - 1)
    ensures MomentsBounded(SumsOf(bet, prices, n), n)
  {
    assert n == 1 ==> SumsOf(bet, prices, n - 1) == NoSums;
    MomentTrial(SumsOf(bet, prices, n - 1), bet, prices[n - 1], n - 1);
  }

  /** A trial after `k` trials keeps the bound of `ReturnsSquaredBound`. */
  lemma MomentTrial(t: Sums, bet: real, m: int, k: nat)
    requires MomentsBounded(t, k) && (k == 0 ==> t.sumReturns == 0.0)
    ensures MomentsBounded(Trial(t, bet, m), k + 1)
  {
    var u := Trial(t, bet, m);
    SquareStep(t.sumReturns, t.sumSquares, k as real, bet * (m as real), u.sumReturns, u.sumSquares);
  }

  /** One more return `x` keeps the sum `s` and the sum of squares `q` of `k` returns within `s * s <= k * q`. */
  lemma SquareStep(s: real, q: real, k: real, x: real, s': real, q': real)
    requires k >= 0.0 && q >= 0.0 && s * s <= k * q && (k == 0.0 ==> s == 0.0)
    requires s' == s + x && q' == q + x * x
    ensures q' >= 0.0
    ensures s' * s' <= (k + 1.0) * q'
  {
    SquareNonNegative(x);
    assert s' * s' == s * s + 2.0 * (s * x) + x * x;
    assert (k + 1.0) * q' == k * q + q + k * (x * x) + x * x;
    if k > 0.0 {
      CrossTermBound(s, q, k, x);
    }
  }

  /** The reported variance is never negative. */
  lemma ReportedVarianceNonNegative(bet: real, prices: seq<int>, n: nat)
    requires 0 < n <= |prices|
    ensures ReportOf(SumsOf(bet, prices, n), n).variance >= 0.0
  {
    ReturnsSquaredBound(bet, prices, n);
    VarianceNonNegative(SumsOf(bet, prices, n), n);
  }

  lemma VarianceNonNegative(t: Sums, n: nat)
    requires n > 0 && MomentsBounded(t, n)
    ensures ReportOf(t, n).variance >= 0.0
  {
    var k := n as real;
    MomentsGiveVariance(t.sumReturns, t.sumSquares, k, t.sumReturns / k, t.sumSquares / k);
  }

  lemma MomentsGiveVariance(s: real, q: real, k: real, mean: real, meanSquare: real)
    requires k > 0.0 && s * s <= k * q && mean == s / k && meanSquare == q / k
    ensures meanSquare - mean * mean >= 0.0
  {
    QuotientSign(s, k);
    QuotientSign(q, k);
    assert k * (q - mean * s) == k * q - (mean * k) * s;
    PositiveFactor(k, q - mean * s);
    assert k * (meanSquare - mean * mean) == meanSquare * k - (mean * k) * mean;
    PositiveFactor(k, meanSquare - mean * mean);
  }

  /** The payout as a percentage of the amount bet. */
  function PercentReturned(t: Sums): real
    requires t.totalBet != 0.0
  {
    100.0 * t.totalPayout / t.totalBet
  }

  /**
   * The reported `rtp` is the mean return times 100, not divided by the bet:
   * it is the bet times the percentage returned, so the two agree exactly when
   * the bet is 1 or nothing was paid.
   */
  lemma RtpIsBetTimesPercent(bet: real, prices: seq<int>, n: nat)
    requires 0 < n <= |prices| && bet != 0.0
    ensures SumsOf(bet, prices, n).totalBet != 0.0
    ensures ReportOf(SumsOf(bet, prices, n), n).rtp == bet * PercentReturned(SumsOf(bet, prices, n))
    ensures ReportOf(SumsOf(bet, prices, n), n).rtp == PercentReturned(SumsOf(bet, prices, n))
        <==> bet == 1.0 || SumsOf(bet, prices, n).totalPayout == 0.0
  {
    var t := SumsOf(bet, prices, n);
    RatioPerBet(t.sumReturns, n as real, bet, t.totalBet);
    assert ReportOf(t, n).rtp == (t.sumReturns / (n as real)) * 100.0;
    assert PercentReturned(t) == 100.0 * t.sumReturns / t.totalBet;
  }

  lemma RatioPerBet(p: real, k: real, bet: real, total: real)
    requires k > 0.0 && bet != 0.0 && total == k * bet
    ensures total != 0.0
    ensures (p / k) * 100.0 == bet * (100.0 * p / total)
    ensures (p / k) * 100.0 == 100.0 * p / total <==> bet == 1.0 || p == 0.0
  {
    assert total != 0.0;
    var r := 100.0 * p / total;
    assert r * total == 100.0 * p;
    assert (p / k) * k == p;
    assert bet * r * k == 100.0 * p;
    assert (p / k) * 100.0 == bet * r;
    assert bet * r - r == (bet - 1.0) * r;
    assert r == 0.0 <==> p == 0.0;
    if bet != 1.0 && r != 0.0 {
      NonZeroProduct(bet - 1.0, r);
    }
  }

}
