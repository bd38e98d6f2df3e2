# Highstock ZigZag and RSI indicators in Dafny

This project models the `getValues` functions of two Highstock technical
indicators, and proves properties of them.

- **ZigZag** (`zigzag.src.js`) takes timestamps `xVal`, OHLC-style rows
  `yVal` and the parameters `lowIndex`, `highIndex` and `deviation`. It
  returns `false` or a sparse series of pivots. The first pivot is row 0's
  high or low. Every later pivot is a candidate extremum, emitted once the
  price turns away from it by `deviation` percent. The series closes on the
  pending candidate, unless the last pivot is already at the final timestamp.
- **RSI** (`rsi.src.js`) takes `period` and `decimals`. It returns `false`,
  or one value in `[0, 100]` per index from `period` on. Each value comes from
  Wilder-smoothed averages of the gains and losses of the close prices. The
  `toFixed(a, n)` helper (`parseFloat(a.toFixed(n))`) rounds each change,
  each average and each RSI value; the seed sums, the weighted sums and the
  ratio of the averages are not rounded.

Files:

- `indicators.dfy` (module `Indicators`): the output series
  `{values, xData, yData}`, with three index-aligned views, and `false` as
  `None`.
- `rounding.dfy` (module `Rounding`): `toFixed` on real numbers. It rounds
  half away from zero to `n` digits. From 10^21 in magnitude on, ECMAScript's
  `Number.prototype.toFixed` stops rounding and prints the number itself.
- `rsi.dfy` (module `Rsi`): the RSI specification functions, the lemmas about
  them, and the imperative `getValues`.
- `zigzag.dfy` (module `ZigZag`): the same for ZigZag.

The specification of each indicator is a set of functions:

- ZigZag: `Seed`, `Step`, `Track`, `WithTail`, `Pivots` and `ZigZag`.
- RSI: `SeedSums`, `Averages`, `RsiPoint`, `Points` and `Rsi`.

Each source `getValues` is also written as a `method` with the source's own
loops and local variables. Its postcondition is that it returns what the
specification function gives. The method is split where the source has one
loop or one loop body, and for ZigZag's tail rule. For ZigZag these are
`Seeding`, `Row`, `Tracking` and `Tail`; for RSI they are `Seeding` and `Row`.
`GetValues` runs them in the source's order and keeps the source's guard
inline.

Inputs are modelled as follows:

- Rows are `seq<real>`.
- A field that is `undefined` in the source is an index outside the row.
- The source's `isArray(yVal[0])` test is `|yVal| > 0`.
- The `WellFormed` predicates hold what the model assumes and the code relies
  on without checking:
  - one row per timestamp;
  - the fields read are present in every row after the first (the first row
    is checked);
  - for RSI, `period >= 2`.

Where the code differs from a naive reading of the indicator (strictly
increasing pivots, exclusive extension or reversal, an exempt tail, falling
prices giving 0), the model follows the code:

- **ZigZag timestamps only never decrease.** They are not strictly
  increasing. One row can be emitted as a trough and then again as the
  closing pivot, at the same timestamp (`ZigZag.RepeatedTimestamp`).
- **Extension and reversal can both happen in one step.** A row can extend
  the candidate and also reverse from it. The code tests the reversal against
  the candidate it has just extended (`ZigZag.ExtendThenReverse`).
- **The tail pivot is not exempt from the deviation floor.** The tail-appended
  pivot keeps it as well (`ZigZag.OutputSwings`).
- **Falling closes do not always give RSI 0.** When the rounded changes
  vanish, avgLoss is 0, and the avgLoss test comes first, so the value is 100
  (`Rsi.SmallDropsGiveHundred`, `Rsi.FallingGivesZeroOrHundred`).

## Model

| member | source | states |
|---|---|---|
| Indicators.Push | 3rdparty/highstock/indicators/rsi.src.js:157-159 | pushing one point onto the three arrays keeps them aligned; each grows by one, keeps every earlier entry, and ends in the pushed pair, timestamp and value |
| Rounding.ToFixed | 3rdparty/highstock/indicators/rsi.src.js:34-36 | rounding never changes the sign of a number |
| Rounding.ToFixedMonotone | 3rdparty/highstock/indicators/rsi.src.js:34-36 | rounding preserves order, including across the 10^21 cut-off where toFixed stops rounding |
| Rounding.ToFixedZero | 3rdparty/highstock/indicators/rsi.src.js:34-36 | 0 rounds to 0 for every number of digits |
| Rounding.ToFixedHundred | 3rdparty/highstock/indicators/rsi.src.js:34-36 | 100 rounds to 100 for every number of digits |
| Rounding.ToFixedOdd | 3rdparty/highstock/indicators/rsi.src.js:34-36 | rounding is symmetric about zero (ties go away from zero) |
| Rounding.ToFixedError | 3rdparty/highstock/indicators/rsi.src.js:34-36 | below 10^21 in magnitude, the rounded value is within half a unit in the last kept digit of the argument |
| Rounding.ToFixedIdempotent | 3rdparty/highstock/indicators/rsi.src.js:34-36 | rounding a rounded value again changes nothing |
| Rsi.Fails | 3rdparty/highstock/indicators/rsi.src.js:94-100 | the guard: fewer timestamps than `period`, no first row, or a first row without exactly four fields; `Rsi.GetValues` returns `false` exactly when it holds |
| Rsi.ClosesPresent | 3rdparty/highstock/indicators/rsi.src.js:94-100 | past the guard, every row has a close field and there are at least `period` rows |
| Rsi.Change | 3rdparty/highstock/indicators/rsi.src.js:104-107 | the rounded close-to-close change keeps the direction of the move: non-negative when the close does not fall, non-positive when it does not rise |
| Rsi.GainOf | 3rdparty/highstock/indicators/rsi.src.js:109-113 | the gain taken from a change is never negative |
| Rsi.LossOf | 3rdparty/highstock/indicators/rsi.src.js:109-113 | the loss taken from a change (its absolute value when not positive) is never negative |
| Rsi.SplitOfChange | 3rdparty/highstock/indicators/rsi.src.js:109-113 | gain minus loss is the change, and gain plus loss is its absolute value |
| Rsi.SeedSums | 3rdparty/highstock/indicators/rsi.src.js:102-116 | the accumulated seed gain and loss are never negative |
| Rsi.SeedSumsSplit | 3rdparty/highstock/indicators/rsi.src.js:102-116 | seed gain minus seed loss is the sum of the rounded changes; their sum is the total absolute movement |
| Rsi.SeedAverage | 3rdparty/highstock/indicators/rsi.src.js:118-120 | the seed average of a non-negative sum is non-negative |
| Rsi.SeedAverageZero | 3rdparty/highstock/indicators/rsi.src.js:118-120 | a zero seed sum gives a zero seed average |
| Rsi.Smooth | 3rdparty/highstock/indicators/rsi.src.js:133-141 | a smoothing step of a non-negative average with a non-negative input stays non-negative |
| Rsi.SmoothZero | 3rdparty/highstock/indicators/rsi.src.js:133-141 | smoothing a zero average with a zero input gives zero |
| Rsi.Averages | 3rdparty/highstock/indicators/rsi.src.js:118-141 | avgGain and avgLoss stay non-negative at every index from period - 1 on |
| Rsi.Strength | 3rdparty/highstock/indicators/rsi.src.js:150-154 | for a non-negative avgGain and a positive avgLoss, 100 - 100/(1 + avgGain/avgLoss) lies in [0, 100) |
| Rsi.StrengthInside | 3rdparty/highstock/indicators/rsi.src.js:150-154 | with both averages positive, 100 - 100/(1 + avgGain/avgLoss) lies strictly between 0 and 100 |
| Rsi.RsiPoint | 3rdparty/highstock/indicators/rsi.src.js:142-155 | the emitted value (100 on zero avgLoss, else 0 on zero avgGain, else the rounded formula) lies in [0, 100] |
| Rsi.Points | 3rdparty/highstock/indicators/rsi.src.js:122-160 | the loop's output up to index n is aligned and has n - period points |
| Rsi.PointsAt | 3rdparty/highstock/indicators/rsi.src.js:122-160 | output point k has timestamp xVal[period + k] and the value of index period + k's averages |
| Rsi.Rsi | 3rdparty/highstock/indicators/rsi.src.js:77-167 | what `getValues` returns: `false` exactly when the guard fires, otherwise aligned arrays with one point per index from `period` on; `RsiOutput` and `RsiPoints` state each point |
| Rsi.RsiOutput | 3rdparty/highstock/indicators/rsi.src.js:122-166 | output point k: timestamp xVal[period + k]; value 100 if avgLoss is 0, else 0 if avgGain is 0, else the rounded formula; within [0, 100]; length len - period |
| Rsi.RsiPoints | 3rdparty/highstock/indicators/rsi.src.js:122-166 | the whole output is aligned, has len - period points, each stamped with its input timestamp and within [0, 100] |
| Rsi.SeedLossZero | 3rdparty/highstock/indicators/rsi.src.js:102-116 | closes that never fall give a zero seed loss |
| Rsi.SeedGainZero | 3rdparty/highstock/indicators/rsi.src.js:102-116 | closes that never rise give a zero seed gain |
| Rsi.RisingHasNoLoss | 3rdparty/highstock/indicators/rsi.src.js:118-141 | closes that never fall keep avgLoss at 0 at every index |
| Rsi.FallingHasNoGain | 3rdparty/highstock/indicators/rsi.src.js:118-141 | closes that never rise keep avgGain at 0 at every index |
| Rsi.RisingGivesHundred | 3rdparty/highstock/indicators/rsi.src.js:142-146 | closes that never fall give 100 at every output point |
| Rsi.FallingGivesZeroOrHundred | 3rdparty/highstock/indicators/rsi.src.js:142-149 | closes that never rise give 0 where avgLoss is non-zero and 100 where it is zero (the zero-avgLoss test comes first) |
| Rsi.SmallDropsGiveHundred | 3rdparty/highstock/indicators/rsi.src.js:104-146 | a strictly falling series whose drops round to zero yields 100, not 0 |
| Rsi.Seeding | 3rdparty/highstock/indicators/rsi.src.js:102-120 | the seed while loop and the two seed averages give exactly the averages at index period - 1 |
| Rsi.Row | 3rdparty/highstock/indicators/rsi.src.js:122-155 | one loop iteration turns index i - 1's averages into index i's and computes that index's RSI value |
| Rsi.GetValues | 3rdparty/highstock/indicators/rsi.src.js:77-167 | returns the specified output; `false` exactly when the guard fires; otherwise aligned, of length len - period, each point stamped xVal[period + k] and within [0, 100] |
| ZigZag.Fails | 3rdparty/highstock/indicators/zigzag.src.js:119-131 | the guard: at most one timestamp, or a first row without the low or the high field; `ZigZag.GetValues` returns `false` exactly when it holds |
| ZigZag.PastGuard | 3rdparty/highstock/indicators/zigzag.src.js:119-131 | past the guard there are at least two rows and every row has both fields |
| ZigZag.FirstBreak | 3rdparty/highstock/indicators/zigzag.src.js:137-167 | the first row from `from` on whose low falls to high0*(1-d) or whose high rises to low0*(1+d); none before it; none at all when absent |
| ZigZag.FirstBreakIs | 3rdparty/highstock/indicators/zigzag.src.js:137-167 | a breakpoint with none before it is the one the seeding scan finds |
| ZigZag.Seed | 3rdparty/highstock/indicators/zigzag.src.js:139-166 | the scan state at breakpoint j, with the low test first; `SeedPlaced`, `SeedRoles`, `SeedSwinging` and `FirstPivot` state its properties |
| ZigZag.Extended | 3rdparty/highstock/indicators/zigzag.src.js:171-189 | going up, a low at or below the candidate replaces it (ties included) and otherwise the candidate stays; going down, a high at or above it does; the candidate never moves back toward the last pivot |
| ZigZag.Reverses | 3rdparty/highstock/indicators/zigzag.src.js:178-195 | the reversal test of row i against the already extended candidate; `StepSwinging` and `ExtendThenReverse` state its consequences |
| ZigZag.Step | 3rdparty/highstock/indicators/zigzag.src.js:170-205 | one iteration of the second loop; `StepPlaced`, `StepRoles` and `StepSwinging` state the invariants it keeps |
| ZigZag.Track | 3rdparty/highstock/indicators/zigzag.src.js:170-206 | the second loop over rows lo .. hi-1; `TrackPlaced`, `TrackRoles`, `TrackSwinging`, `TrackGrows` and `CandidateMonotone` state its properties |
| ZigZag.WithTail | 3rdparty/highstock/indicators/zigzag.src.js:208-219 | the tail rule on a scan state; `TailRule` states it on the final pivots |
| ZigZag.Pivots | 3rdparty/highstock/indicators/zigzag.src.js:137-219 | all pivots of a ready input; `PivotsEmpty`, `PivotsSwing`, `PivotsAt` and `PivotsFields` state its properties |
| ZigZag.ZigZag | 3rdparty/highstock/indicators/zigzag.src.js:96-225 | what `getValues` returns: `false` exactly when the guard fires, otherwise three aligned arrays; `OutputSwings`, `OutputRows`, `OutputOrdered` and `EmptyWithoutBreakpoint` state its content |
| ZigZag.SeriesOf | 3rdparty/highstock/indicators/zigzag.src.js:197-219 | the pushed arrays are aligned and list the pivots' timestamps and values in order |
| ZigZag.SeedPlaced | 3rdparty/highstock/indicators/zigzag.src.js:139-166 | after seeding, the first pivot is row 0's and the candidate row j's |
| ZigZag.SeedRoles | 3rdparty/highstock/indicators/zigzag.src.js:139-166 | after seeding, the first pivot is row 0's high when the low test fired, else its low; the candidate is row j's opposite field |
| ZigZag.SeedSwinging | 3rdparty/highstock/indicators/zigzag.src.js:139-166 | after seeding, the candidate is beyond the first pivot by the deviation factor |
| ZigZag.StepPlaced | 3rdparty/highstock/indicators/zigzag.src.js:170-205 | one tracking step keeps the pivots at input rows, in row order, and the candidate at a row up to i |
| ZigZag.StepRoles | 3rdparty/highstock/indicators/zigzag.src.js:170-205 | one tracking step keeps every pivot the high or the low of its row by alternating role, and the candidate the opposite field |
| ZigZag.StepSwinging | 3rdparty/highstock/indicators/zigzag.src.js:170-205 | one tracking step keeps consecutive pivots, and the last pivot and the candidate, apart by the deviation factor |
| ZigZag.TrackPlaced | 3rdparty/highstock/indicators/zigzag.src.js:170-206 | the tracking loop preserves the placement invariant |
| ZigZag.TrackRoles | 3rdparty/highstock/indicators/zigzag.src.js:170-206 | the tracking loop preserves the alternating-role invariant |
| ZigZag.TrackSwinging | 3rdparty/highstock/indicators/zigzag.src.js:170-206 | the tracking loop preserves the deviation-floor invariant |
| ZigZag.TrackInvariants | 3rdparty/highstock/indicators/zigzag.src.js:137-206 | all three invariants hold when the tracking loop ends |
| ZigZag.PivotsEmpty | 3rdparty/highstock/indicators/zigzag.src.js:137-219 | no pivot is emitted exactly when no row from 1 on is a breakpoint |
| ZigZag.EmptyWithoutBreakpoint | 3rdparty/highstock/indicators/zigzag.src.js:137-224 | past the guard the result is three empty arrays (not `false`) exactly when no row from 1 on is a breakpoint |
| ZigZag.FirstPivot | 3rdparty/highstock/indicators/zigzag.src.js:139-166 | the first output point is at xVal[0], with row 0's high if the breakpoint's low test fired, else row 0's low; later pivots come from rows at or after the breakpoint |
| ZigZag.PivotsSwing | 3rdparty/highstock/indicators/zigzag.src.js:170-219 | the final pivot values alternate and move by at least the deviation, the tail included |
| ZigZag.PivotsAt | 3rdparty/highstock/indicators/zigzag.src.js:137-219 | the final pivots come from input rows, the first from row 0 and the others from rows 1 or later, in row order |
| ZigZag.PivotsFields | 3rdparty/highstock/indicators/zigzag.src.js:137-219 | each final pivot is its row's high or low, by alternating role |
| ZigZag.OutputSwings | 3rdparty/highstock/indicators/zigzag.src.js:96-225 | after a high the next value is at most it times (1 - d); after a low, at least it times (1 + d); the tail point included |
| ZigZag.OutputRows | 3rdparty/highstock/indicators/zigzag.src.js:96-225 | each output point is the timestamp and high or low (by alternating role) of an input row; rows start at 0 and never decrease |
| ZigZag.OutputOrdered | 3rdparty/highstock/indicators/zigzag.src.js:96-225 | with increasing input timestamps, output timestamps never decrease |
| ZigZag.TailRule | 3rdparty/highstock/indicators/zigzag.src.js:208-219 | the candidate is appended exactly when the last pivot's timestamp is before the last input timestamp; with increasing timestamps, exactly when that pivot is not from the last row |
| ZigZag.CandidateMonotone | 3rdparty/highstock/indicators/zigzag.src.js:171-189 | while nothing is emitted the direction stays and the candidate only moves down when going up, only up when going down |
| ZigZag.CandidateRunningLow | 3rdparty/highstock/indicators/zigzag.src.js:171-176 | while nothing is emitted going up, the candidate is the minimum of the starting candidate and every low seen, taken from the last row that reaches it |
| ZigZag.CandidateRunningHigh | 3rdparty/highstock/indicators/zigzag.src.js:184-189 | while nothing is emitted going down, the candidate is the maximum of the starting candidate and every high seen, taken from the last row that reaches it |
| ZigZag.TrackGrows | 3rdparty/highstock/indicators/zigzag.src.js:197-205 | the tracking loop only appends pivots and never changes earlier ones |
| ZigZag.ExtendThenReverse | 3rdparty/highstock/indicators/zigzag.src.js:171-205 | a row that extends the candidate going up and whose high clears the new low by the deviation emits that low at once and starts a high candidate |
| ZigZag.RepeatedTimestamp | 3rdparty/highstock/indicators/zigzag.src.js:139-219 | a three-row input with increasing timestamps whose output repeats timestamp 1 |
| ZigZag.Seeding | 3rdparty/highstock/indicators/zigzag.src.js:133-167 | the first loop stops at the first breakpoint; it pushes the seed pivot and sets the candidate and direction; without a breakpoint it pushes nothing |
| ZigZag.Row | 3rdparty/highstock/indicators/zigzag.src.js:171-205 | one iteration of the second loop leaves the arrays, candidate and direction of the next tracking state |
| ZigZag.Tracking | 3rdparty/highstock/indicators/zigzag.src.js:169-206 | the second loop from the breakpoint on ends in the state of the whole tracking scan |
| ZigZag.Tail | 3rdparty/highstock/indicators/zigzag.src.js:208-219 | the tail rule pushes the pending candidate exactly when the last pushed pivot's timestamp is before the last input timestamp |
| ZigZag.GetValues | 3rdparty/highstock/indicators/zigzag.src.js:96-225 | returns the specified output; `false` exactly when the guard fires; otherwise three aligned arrays |

## Left out

- Registration with the chart library is not modelled: `seriesType`, option defaults, `nameComponents`, `nameBase` and the UMD wrapper. These are configuration, not computation.
- Numbers are real numbers, not IEEE-754 doubles. Binary rounding of the products, quotients and sums is not modelled, and neither are NaN and Infinity.
- Rounding.ToFixed: does not model the RangeError that `toFixed` throws for more than 100 digits. It accepts any number of digits.
- Rounding.ToFixed: does not model the binary representation of the argument. A decimal tie such as 1.005 rounds up here, but a double may round it down.
- Inputs the `WellFormed` predicates exclude are not modelled:
  - timestamp and row arrays of different lengths;
  - rows after the first that lack the fields read (the source would compare `undefined`);
  - a missing `yData`. With two or more timestamps and no rows, ZigZag passes its guard and then reads `yVal[0]`.
  - an RSI `period` below 2, where the seed averages divide by zero;
  - scalar (close-only) rows. They are not in the model's row type.
- ZigZag.GetValues: the variables `j` and `directionUp` are `undefined` when no breakpoint exists. In the model the tracking loop is then skipped, which the source gets from `undefined < yValLen` being false.
- ZigZag.GetValues, Rsi.GetValues: each source `getValues` is one function; its loops, loop bodies and ZigZag's tail rule are separate methods here with the same computations. The seeding loop's `j = i++; i = yValLen` exit is a `return`, the `yIndex = false` flag is an `Option`, and RSI's `Row` computes through `Smooth` and `Strength`.
