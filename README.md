# Three-reel slot machine, modelled in Dafny

This project models the game logic of a Unity three-reel slot machine and proves properties of that model. It covers four pieces:

- **The reel.** A reel is a circular strip of symbols (`Reel.ReelSpinner`). It has a circular symbol lookup and a wrap-around position helper built on C#'s truncating `%`. It also has the spin routine. The routine first computes how many symbol steps to scroll. It then scrolls at constant speed, decelerates along a cubic ease-out, and finally snaps exactly onto the stop.
- **The account** (`Account.AccountManager`). It keeps a balance, takes a fixed bet per spin only when the balance covers it, and credits `multiplier * betAmount` on a win.
- **The game screen** (`Controller.ReelController`). Clicking the spin button does the following:
  - places the bet and disables the button;
  - starts the three reels at their stops, staggered;
  - waits frame by frame until all three are idle;
  - prices the payline;
  - credits a positive prize, sets the prize text, and re-enables the button.
- **The return simulation** (`Simulation`). A batched Monte-Carlo run draws three stops per trial and prices the line with its own copy of the prize rule. It keeps four running sums. After every batch it reports the mean, the variance and `rtp`.

The prize rule works as follows. Three of a kind pays from one table (Seven 1000, Bar 500, Diamond 250, Bell 150, Cherry 80). Exactly two of a kind pays from a second table, keyed by the shared symbol (100, 75, 40, 30, 25). Every other line pays 0, and so do the four filler symbols. `Paytable` states this table once, as the predicate `PaysPerTable`. Both prize functions are proved to obey it, and hence to agree with each other on every line.

Modelling choices:

- C#'s `%` truncates toward zero. It is written out explicitly: `CSharp.Rem` on `int` and `CSharp.FloatRem` on `float`. Dafny's own `%` is Euclidean.
- `float` and `double` are exact reals. `int` is unbounded.
- A Unity coroutine becomes a value of `Reel.Routine`, which holds the locals at its suspension point. `StartSpinAt` runs the routine up to its first `yield`. Each frame then resumes it once with that frame's `dt`.
- `Random.Range` draws are method inputs: the three stops of a spin, or the sequence of draws of a simulation.

The doc comment above `CalculatePrizeMultiplier` (Assets/Scripts/ReelController.cs:77-80) says two of a kind is ignored. The code pays it (lines 97-110). The model follows the code.

## Model

| member | source | states |
|---|---|---|
| Account.AccountManager.constructor | Assets/Scripts/AccountManager.cs:18-23 | The balance starts at the starting balance. |
| Account.AccountManager.PlaceBet | Assets/Scripts/AccountManager.cs:29-37 | The new balance and the result are `BetPlaced` of the old balance. |
| Account.BetPlaced | Assets/Scripts/AccountManager.cs:31-36 | The bet is placed iff `balance >= bet`. If placed, the balance drops by exactly the bet and, with a non-negative bet, stays in `[0, balance]`. If refused, it is unchanged. |
| Account.AccountManager.AddWin | Assets/Scripts/AccountManager.cs:43-48 | The new balance is `WinAdded` of the old one. |
| Account.WinAdded | Assets/Scripts/AccountManager.cs:45-46 | The balance grows by exactly `multiplier * bet`, and never drops when both are non-negative. |
| Account.Session | Assets/Scripts/AccountManager.cs:29-48 | With a non-negative bet and non-negative wins, `n` spins leave the balance at least `balance - n * bet`. |
| Account.BalanceStaysNonNegative | Assets/Scripts/AccountManager.cs:29-48 | With a non-negative bet and non-negative wins, a non-negative balance stays non-negative over any session of bets and wins. |
| CSharp.Rem | Assets/Scripts/ReelSpinner.cs:95 | C#'s int `%`: the result's magnitude is below the divisor's, its sign is the dividend's, and it differs from the dividend by a multiple of the divisor. |
| CSharp.RemFixedUpIsEuclidean | Assets/Scripts/ReelSpinner.cs:95-96 | `%` followed by adding `N` when negative yields the Euclidean remainder. |
| CSharp.DoubleRemIsEuclidean | Assets/Scripts/ReelSpinner.cs:143 | `((i % N) + N) % N` is the Euclidean remainder of `i`. |
| CSharp.Trunc | Assets/Scripts/ReelSpinner.cs:133 | Truncation toward zero: the floor for non-negative values, the ceiling for negative ones. |
| CSharp.TruncatedRemainderBounds | Assets/Scripts/ReelSpinner.cs:133 | The truncated float remainder lies strictly within `(-m, m)` and carries the dividend's sign. |
| CSharp.FloatRem | Assets/Scripts/ReelSpinner.cs:133 | C#'s float `%` lies within `(-m, m)`, carries the dividend's sign, and differs from the dividend by a whole multiple of `m`. |
| CSharp.FloorToInt | Assets/Scripts/ReelSpinner.cs:95 | The result is the greatest integer not above its argument. |
| CSharp.Clamp01 | Assets/Scripts/ReelSpinner.cs:119 | The result lies in `[0, 1]`, is the identity on `[0, 1]`, and clamps below 0 to 0 and above 1 to 1. |
| CSharp.Lerp | Assets/Scripts/ReelSpinner.cs:121 | `t <= 0` gives `a`, `t >= 1` gives `b`, and on `[0, 1]` the result is `a + (b - a) * t`. |
| CSharp.LerpWithin | Assets/Scripts/ReelSpinner.cs:121 | For `a <= b` the interpolation stays in `[a, b]`. |
| CSharp.LerpIsMonotone | Assets/Scripts/ReelSpinner.cs:121 | For `a <= b` the interpolation is non-decreasing in `t` over all reals, clamping included. |
| Reel.ReelConfig.OneReelHeight | Assets/Scripts/ReelSpinner.cs:39-40 | A non-empty strip with a positive symbol height has a positive height. |
| Reel.GetSymbolAt | Assets/Scripts/ReelSpinner.cs:136-145 | An empty strip gives the enum default (Seven) without indexing. Otherwise the result is `symbolSequence[index mod N]`, with the slot in `[0, N)` for every integer index, negatives included. |
| Reel.GetSymbolAtIsPeriodic | Assets/Scripts/ReelSpinner.cs:143-144 | `GetSymbolAt(i + k*N) == GetSymbolAt(i)` for every integer `k`. |
| Reel.Mod | Assets/Scripts/ReelSpinner.cs:133 | `((x % m) + m) % m`, with C#'s float `%`, lies in `[0, m)`. |
| Reel.ModIsFloored | Assets/Scripts/ReelSpinner.cs:133 | `Mod(x, m)` equals the floored remainder `x - m*floor(x/m)`. |
| Reel.FlooredFromTwoMultiples | Assets/Scripts/ReelSpinner.cs:133 | Two whole-multiple reductions of `x` by `m` that end in `[0, m)` leave exactly `x - m*floor(x/m)`. |
| Reel.ModOfWholeSlots | Assets/Scripts/ReelSpinner.cs:133 | A position of `k` whole slots wraps onto slot `k mod N`. |
| Reel.Ease | Assets/Scripts/ReelSpinner.cs:120 | The cubic ease-out maps 0 to 0 and 1 to 1, and maps `[0, 1]` into `[0, 1]`. |
| Reel.EaseIsMonotone | Assets/Scripts/ReelSpinner.cs:120 | The ease is non-decreasing on `[0, 1]`. |
| Reel.PositionY | Assets/Scripts/ReelSpinner.cs:106-128 | While the routine spins, the drawn position lies in `[0, oneReelHeight)`. Otherwise it is where the reel was put. |
| Reel.CurrentIndex | Assets/Scripts/ReelSpinner.cs:95-96 | After the fix for a negative remainder, `currentIndex` lies in `[0, N)` and equals `floor(displayY / symbolHeight) mod N`. |
| Reel.Steps | Assets/Scripts/ReelSpinner.cs:97 | `steps` is `extraLoops` whole turns plus less than one more whenever `stopIndex - currentIndex + N >= 0`, and `currentIndex + steps` is always congruent to `stopIndex` mod `N`. |
| Reel.StepsLandOnStop | Assets/Scripts/ReelSpinner.cs:97 | For a stop in `[0, N)`, `extraLoops*N <= steps < (extraLoops+1)*N` and `(currentIndex + steps) mod N == stopIndex`. |
| Reel.SpinPlan | Assets/Scripts/ReelSpinner.cs:92-103 | The plan starts the fast loop at `displayY`, aimed at `stopIndex`, with `targetY - fastEndY == spinSpeed * decelerationTime`. |
| Reel.CurrentIndexAtSlot | Assets/Scripts/ReelSpinner.cs:95-96 | A reel resting exactly on slot `j` reads `currentIndex == j`. |
| Reel.SpinPlanTarget | Assets/Scripts/ReelSpinner.cs:100-101 | From slot `j`, `targetY == startY + steps * symbolHeight`, that is, slot `j + steps`. |
| Reel.SpinPlanLandsOnStop | Assets/Scripts/ReelSpinner.cs:95-101 | From a resting slot, the step count is `extraLoops` turns plus less than one turn, and the target wraps exactly onto the stop's slot. |
| Reel.FrameKeepsRunnable | Assets/Scripts/ReelSpinner.cs:105-129 | A frame keeps the routine resumable (`isIdle` iff no routine runs) and leaves a reel that is not spinning unchanged. |
| Reel.SpinStartedKeepsRunnable | Assets/Scripts/ReelSpinner.cs:81-89 | A reel that is not idle ignores a start. On an empty strip an idle reel is left crashed and not idle. Otherwise it spins, or has already snapped onto its stop. |
| Reel.RestIsOnStop | Assets/Scripts/ReelSpinner.cs:128-129 | Whenever a spinning reel becomes idle, it is drawn at exactly `stopIndex * symbolHeight`. |
| Reel.EasedY | Assets/Scripts/ReelSpinner.cs:119-121 | The eased position is `fastEndY` before any time has elapsed and `targetY` once the deceleration time has elapsed, and stays between them when `fastEndY <= targetY`. |
| Reel.ClampedTimeEnds | Assets/Scripts/ReelSpinner.cs:119 | `Clamp01(elapsed / decelerationTime)` is 0 while no time has elapsed and 1 once the deceleration time has elapsed. |
| Reel.EasedYIsMonotone | Assets/Scripts/ReelSpinner.cs:114-125 | During deceleration the unwrapped position never moves backwards and stays between `fastEndY` and `targetY`. |
| Reel.LastEasedFrameReachesTarget | Assets/Scripts/ReelSpinner.cs:116-124 | The frame that carries `elapsed` past the deceleration time draws the wrapped target, still not idle. |
| Reel.SnapEndsDeceleration | Assets/Scripts/ReelSpinner.cs:116-129 | With the deceleration time used up, the next resumption snaps to `stopIndex * symbolHeight` and sets `isIdle`. |
| Reel.SnapIsSeamless | Assets/Scripts/ReelSpinner.cs:95-129 | For a spin from a resting slot, the last eased frame already shows the stop's slot, and the snap keeps the reel exactly there. |
| Reel.SpinStartedHeadsFor | Assets/Scripts/ReelSpinner.cs:81-103 | An idle reel asked for `stop` aims at `stop`. |
| Reel.FrameKeepsHeading | Assets/Scripts/ReelSpinner.cs:105-129 | Frames never change the aimed-at stop, so the reel only comes to rest on it. |
| Reel.SpinFast | Assets/Scripts/ReelSpinner.cs:106-112 | The fast loop runs another frame iff `displayY < fastEndY`, advancing `displayY` by `spinSpeed * dt`. Otherwise it enters deceleration, which can only end at once (snapped onto `stop * symbolHeight`) when the deceleration time is not positive. The stop is kept throughout. |
| Reel.Decelerate | Assets/Scripts/ReelSpinner.cs:115-129 | The reel becomes idle iff the deceleration time has elapsed, then snapped onto `stop * symbolHeight` with no routine. Otherwise the loop continues with `elapsed + dt`. |
| Reel.FrameAdvanced | Assets/Scripts/ReelSpinner.cs:105-129 | A reel that is not spinning is unchanged. A spinning one either keeps spinning toward the same stop, not idle, or becomes idle at exactly `stopIndex * symbolHeight`. |
| Reel.SpinStarted | Assets/Scripts/ReelSpinner.cs:81-103 | A reel that is not idle ignores the start. An idle reel with an empty strip crashes, not idle. An idle reel with a filled strip spins toward `stop`, or is already idle at `stop * symbolHeight`. |
| Reel.PassesLeft | Assets/Scripts/ReelSpinner.cs:106-108 | The count of remaining passes of a `while (x < limit) x += step` loop is at least 1. |
| Reel.FramesLeft | Assets/Scripts/ReelSpinner.cs:106-125 | The frames left to rest are zero exactly when the reel is not spinning. |
| Reel.FrameBringsRestCloser | Assets/Scripts/ReelSpinner.cs:106-125 | With a fixed `dt > 0` and `spinSpeed > 0`, every frame strictly decreases a spinning reel's frames left. |
| Reel.ReelSpinner.constructor | Assets/Scripts/ReelSpinner.cs:37-41 | A new reel is idle, at position 0, with no routine. |
| Reel.ReelSpinner.StartSpinAt | Assets/Scripts/ReelSpinner.cs:81-111 | The fields become `SpinStarted` of the old state. An idle reel draws the first frame. A reel that is not idle does not change at all. |
| Reel.ReelSpinner.PlanSpin | Assets/Scripts/ReelSpinner.cs:92-103 | The locals it computes are exactly `SpinPlan` at the current position. |
| Reel.ReelSpinner.Tick | Assets/Scripts/ReelSpinner.cs:105-129 | One frame: the fields show `FrameAdvanced` of the old state, position included. |
| Reel.ReelSpinner.ResumeFast | Assets/Scripts/ReelSpinner.cs:106-112 | The fast loop from its test: the fields show `SpinFast` of the locals. |
| Reel.ReelSpinner.ResumeDecel | Assets/Scripts/ReelSpinner.cs:115-129 | The deceleration loop from its test: the fields show `Decelerate` of the locals, which ends in the snap. |
| Paytable.PayingHasPositiveEntries | Assets/Scripts/ReelController.cs:86-109 | A symbol's table entries are positive exactly for the five paying symbols. |
| Paytable.TablesAreTotal | Assets/Scripts/ReelController.cs:86-109 | Both tables cover all nine symbols, with `0 <= pair <= three <= 1000`. |
| Paytable.Occurrences | Assets/Scripts/ReelController.cs:84-98 | A symbol lands at most three times on a line. |
| Paytable.ThreeOfAKindPays | Assets/Scripts/ReelController.cs:84-95 | Three of a kind paying its three-match entry obeys the table. |
| Paytable.PairPays | Assets/Scripts/ReelController.cs:98-100 | The source's choice of `a` when `a` is in the pair and `b` otherwise is the symbol the pair shares, so its two-match entry obeys the table. |
| Paytable.NoPairPaysNothing | Assets/Scripts/ReelController.cs:112 | Three different symbols paying 0 obeys the table. |
| Paytable.PrizeIsDetermined | Assets/Scripts/ReelController.cs:81-113 | The table fixes the prize of every line. |
| Paytable.PaysDependsOnlyOnCounts | Assets/Scripts/ReelController.cs:81-113 | The table depends only on how often each symbol landed. |
| Paytable.TablePaysOnlyPayingPairs | Assets/Scripts/ReelController.cs:81-113 | By the table, a line pays iff a paying symbol lands at least twice. |
| Paytable.NoRepeat | Assets/Scripts/ReelController.cs:98 | With three different symbols no symbol lands twice. |
| Paytable.RepeatedSymbolDecides | Assets/Scripts/ReelController.cs:98-109 | A symbol landing at least twice is the only one that does, and the line pays iff it is a paying symbol. |
| Controller.CalculatePrizeMultiplier | Assets/Scripts/ReelController.cs:81-113 | The result is the table's prize for the line (three-match table, pair table by the shared symbol, else 0) and lies in `[0, 1000]`. |
| Controller.PrizeIgnoresReelOrder | Assets/Scripts/ReelController.cs:81-113 | Swapping any two reels leaves the prize unchanged. |
| Controller.PrizeNeedsAPayingPair | Assets/Scripts/ReelController.cs:81-113 | A line pays iff a paying symbol lands on it at least twice. |
| Controller.FrameKeepsOnCourse | Assets/Scripts/ReelController.cs:47-55 | A reel on course for its stop stays on course through a frame. |
| Controller.StartPutsOnCourse | Assets/Scripts/ReelController.cs:48-52 | An idle reel that has just been started is on course for its stop. |
| Controller.ReelController.StartReel | Assets/Scripts/ReelController.cs:48-52 | Starting an idle reel puts it on course for its stop, and it crashes iff its strip is empty. |
| Controller.ReelController.constructor | Assets/Scripts/ReelController.cs:20-25 | The prize text is cleared and the button is clickable. |
| Controller.ReelController.StartSpin | Assets/Scripts/ReelController.cs:27-38 | A bet that cannot be covered is refused: "Insufficient funds!", button still enabled, balance and reels unchanged. Otherwise the bet is taken and the outcome is as in `SpinAllReels`. |
| Controller.ReelController.SpinAllReels | Assets/Scripts/ReelController.cs:40-75 | On filled strips, each reel rests at `stop * symbolHeight`. The payline symbols are `GetSymbolAt` of the stops and the multiplier is `CalculatePrizeMultiplier` of them. The balance grows by `multiplier * bet` exactly when the multiplier is positive, the text says "You win" or "No Win", and the button is re-enabled. An empty strip leaves the routine stuck, with the button disabled and nothing paid. |
| Controller.ReelController.LaunchReels | Assets/Scripts/ReelController.cs:47-52 | After the staggered starts every reel is on course for its stop, and the wait can end iff every strip is filled. |
| Controller.ReelController.PayLine | Assets/Scripts/ReelController.cs:57-74 | Once all three reels are idle, the symbols are read at the chosen stops and priced. `AddWin` runs exactly when the multiplier is positive, the text is set accordingly, and the button is re-enabled. |
| Controller.ReelController.Frame | Assets/Scripts/ReelController.cs:49-55 | A frame resumes each of the three reels once. |
| Controller.ReelController.RunFrames | Assets/Scripts/ReelController.cs:49-51 | The stagger frames keep every reel on course. |
| Controller.ReelController.WaitUntilIdle | Assets/Scripts/ReelController.cs:55 | The wait terminates with all three reels idle, each at exactly `stop * symbolHeight`. |
| Controller.FrameNearsRest | Assets/Scripts/ReelController.cs:55 | A frame keeps a reel on course and strictly reduces its frames left unless it is idle. |
| Controller.FrameNearsLineRest | Assets/Scripts/ReelController.cs:55 | While some reel spins, a frame strictly reduces the three reels' total frames left. |
| Controller.ProgressOrRest | Assets/Scripts/ReelSpinner.cs:106-129 | A frame brings a spinning reel closer to rest and leaves a resting one unchanged. |
| Simulation.GetPrizeMultiplier | Assets/Scripts/SimulationManager.cs:117-146 | The result is the table's prize for the line and lies in `[0, 1000]`. |
| Simulation.PrizeRulesAgree | Assets/Scripts/SimulationManager.cs:119 | `GetPrizeMultiplier` equals `CalculatePrizeMultiplier` on every line, as the comment claims. |
| Simulation.GetPrizeMultiplierIgnoresOrder | Assets/Scripts/SimulationManager.cs:117-146 | Swapping any two reels leaves the simulation's prize unchanged. |
| Simulation.DrawnStopShowsItsSymbol | Assets/Scripts/SimulationManager.cs:82-88 | A stop drawn in `[0, N)` indexes the strip in range, at exactly that position. |
| Simulation.LineMultiplier | Assets/Scripts/SimulationManager.cs:86-89 | A draw's line multiplier is the table's prize for the three symbols it shows, in `[0, 1000]`. |
| Simulation.PricesArePriced | Assets/Scripts/SimulationManager.cs:82-89 | Every draw gets the multiplier of the line it shows. |
| Simulation.RunSimulation | Assets/Scripts/SimulationManager.cs:68-109 | An empty reel means no trial and zero sums. Otherwise exactly `max(targetSpins, 0)` trials run, and the sums are those of the first `spinsDone` draws. There are `ceil(targetSpins / batchSize)` reports, and report `k` shows the sums after `min((k+1)*batchSize, targetSpins)` trials. |
| Simulation.Trial | Assets/Scripts/SimulationManager.cs:80-93 | One trial adds the bet to `totalBet`, the return `bet * mult` to `totalPayout` and `sumReturns`, and that return's square to `sumSquares`. With a non-negative bet and multiplier none of the sums decreases. |
| Simulation.SumsOf | Assets/Scripts/SimulationManager.cs:75-95 | After `n` trials, `totalBet == n * betPerSpin` and `totalPayout == sumReturns`. |
| Simulation.BatchCount | Assets/Scripts/SimulationManager.cs:75-95 | The count of batches is non-negative and, for `targetSpins > 0`, is the least `c` with `targetSpins <= c * batchSize`. |
| Simulation.BatchEnd | Assets/Scripts/SimulationManager.cs:77-95 | Batch `k` ends at whichever of `targetSpins` and `(k+1) * batchSize` is smaller. |
| Simulation.ReportOf | Assets/Scripts/SimulationManager.cs:98-102 | The report copies `spinsDone`, `totalBet` and `totalPayout`, its mean times `spinsDone` is `sumReturns`, `variance + mean^2 == sumSquares / spinsDone`, and `rtp == 100 * mean`. |
| Simulation.RunBatch | Assets/Scripts/SimulationManager.cs:77-94 | A batch of `batch` trials extends the sums from `spinsDone` to `spinsDone + batch` trials. |
| Simulation.PriceLine | Assets/Scripts/SimulationManager.cs:82-89 | The multiplier computed for trial `k` is the price of draw `k`. |
| Simulation.AddTrial | Assets/Scripts/SimulationManager.cs:80-93 | One trial adds the bet, the return `bet * mult` (twice) and its square to the four sums. |
| Simulation.BatchReport | Assets/Scripts/SimulationManager.cs:98-102 | The report is the mean, `sumSquares/n - mean^2` and `rtp = mean * 100` of the sums. |
| Simulation.NextBatchEnds | Assets/Scripts/SimulationManager.cs:77-95 | Each batch is `min(batchSize, targetSpins - spinsDone)` long and ends at `min((k+1)*batchSize, targetSpins)`. |
| Simulation.LastBatchIsCount | Assets/Scripts/SimulationManager.cs:75-95 | The loop runs exactly `ceil(targetSpins / batchSize)` batches. |
| Simulation.PricesInRange | Assets/Scripts/SimulationManager.cs:89 | Every trial's multiplier lies in `[0, 1000]`. |
| Simulation.SumsGrow | Assets/Scripts/SimulationManager.cs:80-93 | With a non-negative bet, none of the four sums ever decreases. |
| Simulation.PayoutBounded | Assets/Scripts/SimulationManager.cs:89-91 | With a non-negative bet and every multiplier in `[0, 1000]`, `0 <= totalPayout <= 1000 * totalBet` after any number of trials. |
| Simulation.PayoutStep | Assets/Scripts/SimulationManager.cs:89-91 | One trial with a multiplier in `[0, 1000]` keeps `0 <= totalPayout <= 1000 * totalBet`. |
| Simulation.ReturnsSquaredBound | Assets/Scripts/SimulationManager.cs:92-93 | After `n` trials, `sumReturns^2 <= n * sumSquares` (Cauchy-Schwarz). |
| Simulation.ReportedVarianceNonNegative | Assets/Scripts/SimulationManager.cs:98-100 | The reported variance is never negative, so the square root taken of it is defined. |
| Simulation.RtpIsBetTimesPercent | Assets/Scripts/SimulationManager.cs:102 | `rtp` is `betPerSpin` times the payout percentage, and equals that percentage iff the bet is 1 or nothing was paid. |

## Left out

- Presentation is not modelled: the balance, prize and result texts' string formatting, `UpdateUI`, the input colour reset and `Invoke`. The prize text is kept as the datatype `PrizeText`, and the simulation's texts as the `Report` value.
- `PopulateReel`, the sprite mapping and the `RectTransform` sizing are rendering. Only the start position 0 they leave behind is modelled.
- `OnRunCustomClicked` with `int.TryParse`, the `reenableButton` flag and `runCustomButton` are the simulation's UI input layer.
- `Random.Range` is not modelled. The spin's three stops and the simulation's draw sequence are inputs. The simulation additionally takes a ghost list of the draws' prices, which `PricesArePriced` shows is always available.
- `Math.Sqrt` is not modelled, nor the standard error, the 95% confidence interval or the final `Debug.Log` line. They are floating-point output; the variance under the square root is proved non-negative.
- `float` and `double` are exact reals: rounding, `Mathf.Pow`'s approximation and NaN are not modelled.
- Integer overflow is not modelled: C#'s 32-bit `int` in `balance`, `multiplier * betAmount`, `extraLoops * totalSymbols` and `steps` is unbounded here.
- Unity scheduling is not modelled beyond frames. Every frame lasts the same `dt`, and each 0.3 s `WaitForSeconds` stagger lasts `staggerFrames` frames.
- `Controller.ReelController.StartSpin`: requires `dt > 0` and `spinSpeed > 0` so that the wait for idle reels provably ends. With a zero speed the fast loop never advances.
- `Controller.ReelController.StartSpin`: requires the button to be clickable, as only a click reaches it.
- `Controller.ReelController.SpinAllReels`: on an empty strip the routine is left waiting forever, reported as `Stuck`. The frames that would keep moving the other reels after that are not followed.
- `Simulation.RunSimulation`: requires `batchSize > 0` only when there is anything to run, that is, when every strip is filled and `targetSpins > 0`. With `batchSize == 0` the source's loop never ends and each report divides by `spinsDone == 0`. With `batchSize < 0` every batch makes `spinsDone` more negative, so each report divides by a negative count and the loop never ends either.
- `Simulation.RunSimulation`: the draws are not required to lie in `[0, N)`. Any stop is read through `GetSymbolAt`'s wrap-around, and `DrawnStopShowsItsSymbol` covers the in-range case.
- The three reels are distinct components. Wiring the same `ReelSpinner` into two slots, so that starting one starts the other, is not modelled.
- The reel settings (`symbolHeight`, `spinSpeed`, `decelerationTime`, `extraLoops`, the strip) are fixed once the component is set up. Changes made in the inspector at run time are not modelled, and the symbol height is required to be positive.
- `Simulation.RtpIsBetTimesPercent`: `rtp` is kept as written, as the mean return times 100, not divided by `betPerSpin`. The lemma states how far that is from the percentage returned.
