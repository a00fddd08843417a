# Harmonic pattern scanner — Dafny model

This project models the analytical core of `harmonic_scanner.py`, a
scanner that looks for XABCD harmonic patterns (Bat, Gartley, Crab,
Butterfly, each in a bull and a bear variant) in the bar series of many
trading pairs.

For every coin, the scanner:

1. finds the swing highs and swing lows of the series with
   `argrelextrema` (`peak_detect`);
2. merges them into one peak table sorted by time;
3. takes the last four swings as X, A, B, C and the final bar's low as a
   synthetic D;
4. computes the four legs XA, AB, BC, CD;
5. runs eight matchers on those legs.

Each matcher first checks the signs of the legs (an "M" for bull, a "W"
for bear). It then checks the leg ratios against Fibonacci bands widened
by 0.1. On a match it reports the pair name with "/USDT" removed, a
potential reversal zone (PRZ), a stop loss and three targets. The scan
collects the matches per pattern in coin order. A coin whose peak
detection raises is skipped. The run's signal total is the sum of the
list lengths, and the scan summary picks a status tier from that total.

Modules, in dependency order:

- `Wrappers` — `Option` and `Result`.
- `Prices` — `abs` and `round(x, 4)` (ties to even) over exact reals.
- `Text` — `list_to_string` and removing every "/USDT" from a string.
- `Swings` — `argrelextrema` in its default `clip` mode, the peak table
  and `peak_detect`.
- `Patterns` — the eight patterns as constant `Template` values, and one
  generic `Match` they all share.
- `Matchers` — the eight source matchers written out one by one, each
  proved equal to `Match` on its template.
- `Scan` — `scan_harmonic_patterns` as an imperative method proved
  against a specification function, plus the signal total and the
  summary tiers.

Where the documented intent and the code differ, the model follows the
code:

- `argrelextrema` clips out-of-range neighbours to the ends of the array.
  So the first and the last bar compare with themselves and can never be
  swings under a strict comparator (`Swings.ClippedIffWindow`).
- The three targets are measured from C (`current_pat[3]`), not from D.
- The bear Butterfly stop is the PRZ times 0.98, which lies below a bear
  entry (`Patterns.StopSide`). Bear Crab uses 1.02.
- D's price is the final bar's low for both bull and bear patterns.
- Each matcher also requires |CD| to be at least a fixed multiple of |XA|:
  0.7 for Bat, 0.6 for Gartley, 1.3 for Crab and 1.2 for Butterfly. The
  matchers' descriptions do not mention this minimum. With every ratio at
  the middle of its described band, CD falls short of it, so no pattern
  matches (`Patterns.NominalMidpointsRejected`).
- The AB and BC band checks are strict. The two CD checks, the minimum of
  XA and the upper CD/BC edge, are inclusive (`Patterns.AbBcEdgesRejected`,
  `Patterns.CdEdgesAccepted`).
- The lower CD/BC edge (`CD_range[0]`) is computed but never checked
  (`Patterns.CdLowerEdgeUnused`).
- X, A, B and C are only non-decreasing in time, not strictly increasing.
  One bar can be both a swing high and a swing low, which puts two rows
  with the same time into the peak table (`Swings.PeakDetectAnchors`).

## Model

| member | source | states |
|---|---|---|
| Text.JoinAppend | harmonic_scanner.py:358-360 | `list_to_string` of a concatenation is the concatenation of the two strings |
| Text.JoinLength | harmonic_scanner.py:358-360 | the joined string's length is the sum of the parts' lengths |
| Text.RemoveAll | harmonic_scanner.py:457 | removing "/USDT" never lengthens the string |
| Text.RemoveAllNoOccurrence | harmonic_scanner.py:457 | a string with no occurrence of the pattern is returned unchanged |
| Text.RemoveAllKeepsPrefix | harmonic_scanner.py:457 | a prefix without the pattern's first character is kept and the removal continues after it |
| Text.PairNameStripsQuote | harmonic_scanner.py:457 | the pair label of `[BASE + "/USDT"]` is `BASE` when BASE has no '/' |
| Prices.Round4 | harmonic_scanner.py:443-447 | `round(x, 4)` lies within 0.00005 of x |
| Prices.Round4Monotone | harmonic_scanner.py:445-447 | rounding preserves the order of two prices |
| Prices.Round4OnGrid | harmonic_scanner.py:443-447 | a price with at most four decimals is left unchanged by rounding |
| Swings.ClippedIffWindow | harmonic_scanner.py:384-385 | the clip-mode comparison holds exactly when an inner bar strictly beats every in-bounds bar within `order` on both sides; edge bars never qualify |
| Swings.SwingsSeparated | harmonic_scanner.py:384-385 | no other bar within `order` of a swing high (low) is a swing high (low) |
| Swings.ExtremaFrom | harmonic_scanner.py:384-385 | the reported indices are exactly the swings, in strictly ascending order |
| Swings.SwingList | harmonic_scanner.py:387-397 | the peak table is sorted by time and has at most two rows per bar |
| Swings.InsertSorted | harmonic_scanner.py:397 | inserting a swing into a time-ordered table keeps it time-ordered (with `Swings.InsertBounded` and `Swings.ConsSorted`) |
| Swings.SortByTimeSorted | harmonic_scanner.py:397 | `sort_values(by=['datetime'])` yields a table in time order |
| Swings.SortByTime | harmonic_scanner.py:397 | sorting keeps the same multiset of swings |
| Swings.SwingListSameElements | harmonic_scanner.py:387-397 | sorting keeps exactly the merged swing highs and lows |
| Swings.SwingListSound | harmonic_scanner.py:384-397 | every row of the peak table is a swing high or a swing low of the series |
| Swings.SwingListComplete | harmonic_scanner.py:384-397 | every swing high and swing low of the series is a row of the peak table |
| Swings.Unique | harmonic_scanner.py:416 | `unique()` keeps exactly the values of the column, each once, in order of first appearance |
| Swings.LegsOf | harmonic_scanner.py:410-413 | the legs chain X to A to B to C to D and sum to D − X |
| Swings.PeaksOf | harmonic_scanner.py:397-418 | the returned record holds the table and symbols unchanged, takes X, A, B, C from the table's last four rows and D from the final bar's time and low, has the four legs of those anchors, and `start`/`end` are the least and greatest of the five times |
| Swings.LastFourOrdered | harmonic_scanner.py:403-404 | the last four rows of a time-ordered table are in time order and end with its last row |
| Swings.BoundsOfOrdered | harmonic_scanner.py:406-407 | over five times in ascending order, `min` is the first and `max` the last |
| Swings.PeaksOfWindow | harmonic_scanner.py:403-407 | with a time-ordered table whose last row precedes the final bar, C precedes D, `start` is X's time and `end` is D's time |
| Swings.PeakDetect | harmonic_scanner.py:366-418 | fails with an invalid-order error exactly when order < 1, with an empty-series error exactly when order ≥ 1 and there are no bars (`min` of an empty array at 406), and with an index error exactly when there are bars but the peak table has fewer than four rows |
| Swings.PeakDetectAnchors | harmonic_scanner.py:397-418 | on success X, A, B, C are the last four table rows in time order, each a genuine swing and no earlier row is later than X; D is the final bar's time and low; moves and symbols come from these anchors and bars |
| Swings.SwingBeforeLastBar | harmonic_scanner.py:384-404 | in a chronological series every swing is strictly earlier than the final bar |
| Swings.PeakDetectWindow | harmonic_scanner.py:403-407 | in a chronological series C precedes D, `start` is X's time and `end` is D's time |
| Patterns.TemplateOf | harmonic_scanner.py:424-713 | each pattern's template has that pattern's direction |
| Patterns.MatchNeedsShape | harmonic_scanner.py:437 | a bull match implies an M leg vector (+,−,+,−) and a bear match implies a W (−,+,−,+) |
| Patterns.ZeroLegMatchesNothing | harmonic_scanner.py:437 | a zero leg matches no pattern |
| Patterns.OffShapeMatchesNothing | harmonic_scanner.py:437 | legs that form neither an M nor a W match no pattern |
| Patterns.BullBearExclusive | harmonic_scanner.py:424-713 | the bull and bear variants of a shape never both match |
| Patterns.NegatedWithinBands | harmonic_scanner.py:449-454 | the ratio screen reads only leg magnitudes, so negated legs pass it when the original legs do |
| Patterns.MirrorScreens | harmonic_scanner.py:437-454 | for a bull and a bear template with the same checked edges, both bear screens pass exactly when both bull screens pass on the negated legs |
| Patterns.MirrorSymmetry | harmonic_scanner.py:424-713 | the bear variant accepts some legs exactly when the bull variant accepts their negation |
| Patterns.AbBcEdgesOutside | harmonic_scanner.py:449-451 | leg magnitudes with AB or BC exactly on a widened band edge fail the ratio screen, whose AB and BC checks are strict |
| Patterns.AbBcEdgesRejected | harmonic_scanner.py:449-457 | so any template rejects such legs |
| Patterns.CdEdgesInside | harmonic_scanner.py:449-454 | with AB and BC inside their bands, a CD exactly at the minimum multiple of XA or at the widened upper multiple of BC passes the ratio screen, whose CD checks are inclusive |
| Patterns.CdEdgesAccepted | harmonic_scanner.py:449-457 | so such legs with the template's signs are accepted |
| Patterns.RatiosFitReadsCheckedEdges | harmonic_scanner.py:439-454 | the ratio screen reads only the AB and BC edges, the upper CD/BC edge and the CD/XA minimum |
| Patterns.WithinBandsReadsCheckedEdges | harmonic_scanner.py:439-454 | the same for the screen applied to a leg vector |
| Patterns.CdLowerEdgeUnused | harmonic_scanner.py:441 | changing the lower CD/BC band edge changes neither the accept decision nor the returned levels |
| Patterns.StopRules | harmonic_scanner.py:424-713 | the stop is X for Bat and Gartley, PRZ×1.02 for bear Crab only, and PRZ×0.98 for the other Crab and Butterfly variants |
| Patterns.TargetLevelsOrdered | harmonic_scanner.py:445-447 | moving C by 0.618, 0.5 and 0.382 of a positive distance gives levels that rise (bull) or fall (bear), strictly before rounding and weakly after |
| Patterns.LevelsTargetsOrdered | harmonic_scanner.py:445-447 | with a non-zero CD leg the three rounded targets are ordered: rising for bull, falling for bear |
| Patterns.TargetsOrdered | harmonic_scanner.py:437-457 | the targets of every match rise from TP1 to TP3 for bull patterns and fall for bear ones |
| Patterns.StopSide | harmonic_scanner.py:590-696 | for a positive PRZ the unrounded stop is above it only for bear Crab, below it for the other Crab and Butterfly variants |
| Patterns.EveryTemplateCanMatch | harmonic_scanner.py:424-713 | each of the eight templates accepts some leg vector |
| Patterns.NominalMidpointsRejected | harmonic_scanner.py:424-713 | with the template's signs and every ratio at the middle of its described band, abs(CD) is below the minimum multiple of abs(XA), and the template rejects the legs |
| Patterns.ExampleIsOnlyBullGartley | harmonic_scanner.py:497-530 | X=100, A=150, B=119.1, C=139.1, D=107.1 is a bull Gartley with PRZ 110.7, stop 100, targets 119.324/123.1/126.876, and no other pattern |
| Matchers.BullBatAgrees | harmonic_scanner.py:424-461 | `bull_bat` equals the generic matcher on the bull Bat template |
| Matchers.BearBatAgrees | harmonic_scanner.py:464-494 | `bear_bat` equals the generic matcher on the bear Bat template |
| Matchers.BullGartleyAgrees | harmonic_scanner.py:497-534 | `bull_gartley` equals the generic matcher on the bull Gartley template |
| Matchers.BearGartleyAgrees | harmonic_scanner.py:537-567 | `bear_gartley` equals the generic matcher on the bear Gartley template |
| Matchers.BullCrabAgrees | harmonic_scanner.py:570-607 | `bull_crab` equals the generic matcher on the bull Crab template |
| Matchers.BearCrabAgrees | harmonic_scanner.py:610-640 | `bear_crab` equals the generic matcher on the bear Crab template |
| Matchers.BullButterflyAgrees | harmonic_scanner.py:643-680 | `bull_butterfly` equals the generic matcher on the bull Butterfly template |
| Matchers.BearButterflyAgrees | harmonic_scanner.py:683-713 | `bear_butterfly` equals the generic matcher on the bear Butterfly template |
| Matchers.TemplatesAgreeWithSource | harmonic_scanner.py:424-713 | every source matcher equals the generic matcher on its template |
| Scan.PatternOrderComplete | harmonic_scanner.py:738-747 | the pattern table lists each of the eight patterns exactly once |
| Scan.CoinBars | harmonic_scanner.py:756 | a coin's rows are exactly the data rows with that symbol |
| Scan.CoinBarsAppend | harmonic_scanner.py:756 | the filter keeps row order and duplicates: filtering a concatenation concatenates the filtered parts |
| Scan.UniqueOfConstant | harmonic_scanner.py:416 | a non-empty column holding one value has that value as its only unique entry |
| Scan.CoinSymbols | harmonic_scanner.py:756-758 | the symbol list peak detection reports for one coin's rows is that coin alone |
| Scan.CoinSignals | harmonic_scanner.py:754-784 | a coin contributes at most one signal per pattern |
| Scan.SumLengthsUpdate | harmonic_scanner.py:766-774 | replacing one list changes the total by the change in its length |
| Scan.CollectedStep | harmonic_scanner.py:754-786 | scanning one more coin appends exactly that coin's contribution to a pattern's list |
| Scan.CoinScanned | harmonic_scanner.py:754-786 | if every list held the earlier coins' signals and each gains this coin's signal for its pattern, every list holds the signals of the coins so far |
| Scan.ScanComplete | harmonic_scanner.py:749-795 | lists holding every pattern's signals over all coins are exactly the scan's result |
| Scan.MatchedBySource | harmonic_scanner.py:761-764 | the registered matcher's result, as a list of at most one, is the generic match of that pattern |
| Scan.RunMatcher | harmonic_scanner.py:761-762 | calling `pattern_functions[k]` returns the pattern's match, if any |
| Scan.RecordStep | harmonic_scanner.py:761-774 | after the matcher at table position j has run, the patterns up to j have their match appended and the later ones are unchanged |
| Scan.RecordMatches | harmonic_scanner.py:761-774 | each pattern's list gets that pattern's match appended, and the counter stays the sum of list lengths |
| Scan.ScanCoin | harmonic_scanner.py:754-786 | one coin's iteration appends the coin's signal for every pattern, nothing when peak detection fails, and keeps the counter equal to the sum of list lengths |
| Scan.ScanHarmonicPatterns | harmonic_scanner.py:719-795 | the returned dictionary is the per-pattern, coin-ordered list of matches, and the counter equals the sum of the list lengths |
| Scan.ScanResultsKeys | harmonic_scanner.py:749 | the result has all eight keys, all empty when there is no data |
| Scan.CollectedAppend | harmonic_scanner.py:754 | the signals of two consecutive coin groups are concatenated in coin order |
| Scan.FailingCoinSkipped | harmonic_scanner.py:784-786 | a coin whose peak detection fails adds nothing and later coins are still scanned |
| Scan.CollectedSound | harmonic_scanner.py:754-774 | every signal in a collected list comes from the contribution of one of the scanned coins |
| Scan.CollectedComplete | harmonic_scanner.py:754-774 | every signal in a scanned coin's contribution appears in the collected list |
| Scan.ListedSignalMatched | harmonic_scanner.py:754-774 | a signal in a coin's contribution is that pattern's match on the coin's detected peaks, labelled with the coin's pair name |
| Scan.SignalProvenance | harmonic_scanner.py:719-795 | every listed signal is its pattern's match on one coin's detected peaks, labelled with that coin's pair name |
| Scan.ContributionListed | harmonic_scanner.py:734-774 | every signal a scanned coin contributes to a pattern is in that pattern's list |
| Scan.MatchedSignalListed | harmonic_scanner.py:719-795 | conversely, every pattern's match on the peaks detected for one of the coins is listed under that pattern |
| Scan.CollectedLength | harmonic_scanner.py:754-774 | a pattern's list has at most one entry per coin |
| Scan.SumLengthsBound | harmonic_scanner.py:829 | a sum of list lengths is at most the number of lists times the longest length |
| Scan.SignalCountBound | harmonic_scanner.py:829 | the signal total is at most eight per coin |
| Scan.SummaryTierMonotone | harmonic_scanner.py:229-240 | more signals never give a lower summary tier |

## Left out

- Data collection through the exchange client, the Discord messages, the
  risk/reward figures of a signal message, logging, sleeps, the scheduler
  and the command line are not part of this model.
- `peak_detect` also returns the High and Low columns, which the scan
  ignores. The model returns the anchors, times, legs, peak table and
  symbols.
- Prices are exact reals. Floating-point rounding of the ratio and band
  arithmetic, NaN and infinities are not modelled. `round(x, 4)` is exact
  round-half-even at four decimals.
- Swings.SwingList: `sort_values` uses an unstable quicksort. The model
  uses a stable insertion sort, so the order of two swings with the same
  time is not the source's.
- The results dictionary is keyed by a pattern datatype instead of the
  display labels. The key order is the table order `PatternOrder`.
- Scan.ScanHarmonicPatterns: an exception raised while sending a
  notification would abort the remaining patterns of that coin. Without
  notifications this cannot happen, so the model does not capture it.
- Scan.SummaryTierMonotone: the status colours and texts of the summary
  message are not modelled, only which of the four tiers applies.
