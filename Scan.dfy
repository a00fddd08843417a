/** `scan_harmonic_patterns`: for every coin in the data, detect peaks once,
    run the eight matchers in table order and append each match under its
    pattern; a coin whose peak detection raises is skipped. Plus the
    signal total of `run_scan` and the summary tiers of
    `send_scan_summary`. */
module Scan {
  import opened Wrappers
  import opened Text
  import opened Swings
  import opened Patterns
  import opened Matchers

  /** The keys of `pattern_functions`, in the order the scan tries them. */
  const PatternOrder: seq<PatternKind> := [
    PatternKind(Bat, Bull), PatternKind(Bat, Bear),
    PatternKind(Gartley, Bull), PatternKind(Gartley, Bear),
    PatternKind(Crab, Bull), PatternKind(Crab, Bear),
    PatternKind(Butterfly, Bull), PatternKind(Butterfly, Bear)]

  /** The table lists each of the eight patterns exactly once. */
  lemma PatternOrderComplete()
    ensures |PatternOrder| == 8
    ensures forall k: PatternKind :: k in PatternOrder
    ensures forall i, j :: 0 <= i < j < |PatternOrder| ==> PatternOrder[i] != PatternOrder[j]
  {
    forall k: PatternKind ensures k in PatternOrder {
      match k
      case PatternKind(Bat, Bull) => assert PatternOrder[0] == k;
      case PatternKind(Bat, Bear) => assert PatternOrder[1] == k;
      case PatternKind(Gartley, Bull) => assert PatternOrder[2] == k;
      case PatternKind(Gartley, Bear) => assert PatternOrder[3] == k;
      case PatternKind(Crab, Bull) => assert PatternOrder[4] == k;
      case PatternKind(Crab, Bear) => assert PatternOrder[5] == k;
      case PatternKind(Butterfly, Bull) => assert PatternOrder[6] == k;
      case PatternKind(Butterfly, Bear) => assert PatternOrder[7] == k;
    }
  }

  // ---------------------------------------------------------------------
  // Splitting the data by coin
  // ---------------------------------------------------------------------

  /** `data['Symbol'].unique().tolist()`. */
  function Coins(data: seq<Bar>): seq<string>
  {
    Unique(SymbolColumn(data))
  }

  /** `data[data['Symbol'] == coin]`: that coin's bars, in their order. */
  function CoinBars(data: seq<Bar>, coin: string): (r: seq<Bar>)
    ensures forall b :: b in r ==> b in data && b.symbol == coin
    ensures forall b :: b in data && b.symbol == coin ==> b in r
  {
    if data == [] then []
    else (if data[0].symbol == coin then [data[0]] else []) + CoinBars(data[1..], coin)
  }

  /** The filter keeps the rows' order and duplicates: filtering a
      concatenation concatenates the filtered parts. */
  lemma {:induction false} CoinBarsAppend(a: seq<Bar>, b: seq<Bar>, coin: string)
    ensures CoinBars(a + b, coin) == CoinBars(a, coin) + CoinBars(b, coin)
    decreases |a|
  {
    if a != [] {
      assert (a + b)[1..] == a[1..] + b;
      CoinBarsAppend(a[1..], b, coin);
    } else {
      assert a + b == b;
    }
  }

  /** A non-empty list whose entries are all `c` has `[c]` as its unique
      values. */
  lemma {:induction false} UniqueOfConstant(s: seq<string>, c: string)
    requires s != []
    requires forall x :: x in s ==> x == c
    ensures Unique(s) == [c]
    decreases |s|
  {
    var init := s[..|s| - 1];
    assert s[|s| - 1] in s;
    if init == [] {
      assert Unique(init) == [];
    } else {
      forall x | x in init ensures x == c {
        var i :| 0 <= i < |init| && init[i] == x;
        assert s[i] in s;
      }
      UniqueOfConstant(init, c);
    }
  }

  /** The symbol list `peak_detect` reports for one coin's bars is that
      coin alone, so its signals are labelled `PairName([coin])`. */
  lemma CoinSymbols(data: seq<Bar>, coin: string)
    requires coin in Coins(data)
    ensures Symbols(CoinBars(data, coin)) == [coin]
  {
    var bars := CoinBars(data, coin);
    var i :| 0 <= i < |data| && SymbolColumn(data)[i] == coin;
    assert data[i] in bars;
    var col := SymbolColumn(bars);
    assert col[..] != [] by {
      assert |bars| > 0;
    }
    forall x | x in col ensures x == coin {
      var j :| 0 <= j < |col| && col[j] == x;
      assert bars[j] in bars;
    }
    UniqueOfConstant(col, coin);
  }

  // ---------------------------------------------------------------------
  // The specification of the scan
  // ---------------------------------------------------------------------

  /** The signal one coin contributes under pattern `k`: none when peak
      detection raises or the matcher rejects. */
  function CoinSignals(data: seq<Bar>, order: int, coin: string, k: PatternKind): (r: seq<Signal>)
    ensures |r| <= 1
  {
    match PeakDetect(CoinBars(data, coin), order)
    case Err(_) => []
    case Ok(pk) => Matched(k, pk)
  }

  /** The match of pattern `k` on detected peaks, as a list of at most one. */
  function Matched(k: PatternKind, pk: Peaks): (r: seq<Signal>)
    ensures |r| <= 1
  {
    match Match(TemplateOf(k), pk.moves, pk.symbol, pk.anchors)
    case Some(s) => [s]
    case None => []
  }

  /** Pattern `k`'s contribution of each coin. */
  function SignalsOf(data: seq<Bar>, order: int, k: PatternKind): string -> seq<Signal>
  {
    coin => CoinSignals(data, order, coin, k)
  }

  /** One pattern's list after the given coins: each coin's contribution,
      in coin order. */
  function Collected(signals: string -> seq<Signal>, coins: seq<string>): seq<Signal>
  {
    if coins == [] then []
    else Collected(signals, coins[..|coins| - 1]) + signals(coins[|coins| - 1])
  }

  /** The `results` dictionary the scan returns. */
  function ScanResults(data: seq<Bar>, order: int): map<PatternKind, seq<Signal>>
  {
    map k | k in PatternOrder :: Collected(SignalsOf(data, order, k), Coins(data))
  }

  function SumLengths(m: map<PatternKind, seq<Signal>>, ks: seq<PatternKind>): nat
    requires forall k :: k in ks ==> k in m
  {
    if ks == [] then 0 else |m[ks[0]]| + SumLengths(m, ks[1..])
  }

  /** `sum(len(v) for v in harmonic_results.values())`. */
  function HarmonicCount(results: map<PatternKind, seq<Signal>>): nat
    requires forall k :: k in PatternOrder ==> k in results
  {
    SumLengths(results, PatternOrder)
  }

  /** Replacing one key's list changes the sum by the difference in length,
      when the key occurs at most once among those summed. */
  lemma {:induction false} SumLengthsUpdate(m: map<PatternKind, seq<Signal>>, ks: seq<PatternKind>,
                                            k: PatternKind, v: seq<Signal>)
    requires forall q :: q in ks ==> q in m
    requires k in m
    requires forall i, j :: 0 <= i < j < |ks| ==> ks[i] != ks[j]
    ensures SumLengths(m[k := v], ks) + (if k in ks then |m[k]| else 0)
         == SumLengths(m, ks) + (if k in ks then |v| else 0)
  {
    if ks != [] {
      SumLengthsUpdate(m, ks[1..], k, v);
      if ks[0] == k {
        forall j | 0 <= j < |ks[1..]| ensures ks[1..][j] != k {
          assert ks[1..][j] == ks[j + 1];
        }
      } else {
        assert k in ks <==> k in ks[1..];
      }
    }
  }

  lemma CollectedStep(signals: string -> seq<Signal>, coins: seq<string>, idx: int)
    requires 0 <= idx < |coins|
    ensures Collected(signals, coins[..idx + 1]) == Collected(signals, coins[..idx]) + signals(coins[idx])
  {
    assert coins[..idx + 1][..idx] == coins[..idx];
    assert coins[..idx + 1][idx] == coins[idx];
  }

  /** The lists after scanning one more coin: each pattern's list gains
      that coin's signal for the pattern, if any. */
  lemma CoinScanned(data: seq<Bar>, order: int, coins: seq<string>, idx: int,
                    before: map<PatternKind, seq<Signal>>, after: map<PatternKind, seq<Signal>>)
    requires 0 <= idx < |coins|
    requires forall k: PatternKind :: k in before && k in after
    requires forall k: PatternKind :: before[k] == Collected(SignalsOf(data, order, k), coins[..idx])
    requires forall k: PatternKind :: after[k] == before[k] + CoinSignals(data, order, coins[idx], k)
    ensures forall k: PatternKind :: after[k] == Collected(SignalsOf(data, order, k), coins[..idx + 1])
  {
    forall k: PatternKind ensures after[k] == Collected(SignalsOf(data, order, k), coins[..idx + 1]) {
      CollectedStep(SignalsOf(data, order, k), coins, idx);
    }
  }

  // ---------------------------------------------------------------------
  // The scan loop
  // ---------------------------------------------------------------------

  /** What the registered matcher returns is what `Matched` lists. */
  lemma MatchedBySource(k: PatternKind, pk: Peaks)
    ensures var r := SourceMatcher(k, pk.moves, pk.symbol, pk.anchors);
      Matched(k, pk) == if r.Some? then [r.value] else []
  {
    TemplatesAgreeWithSource(k, pk.moves, pk.symbol, pk.anchors);
  }

  /** Lists that hold every pattern's signals over all coins are the scan's
      result. */
  lemma ScanComplete(data: seq<Bar>, order: int, results: map<PatternKind, seq<Signal>>)
    requires forall k: PatternKind :: k in results
    requires forall k: PatternKind :: results[k] == Collected(SignalsOf(data, order, k), Coins(data))
    ensures results == ScanResults(data, order)
  {
    PatternOrderComplete();
  }

  /** One step of the inner loop over the distinct keys `ks`: key `ks[j]`
      has had its signal appended and no other list has changed. */
  lemma RecordStep(ks: seq<PatternKind>, results: map<PatternKind, seq<Signal>>, pk: Peaks, j: int,
                   prev: map<PatternKind, seq<Signal>>, updated: map<PatternKind, seq<Signal>>)
    requires 0 <= j < |ks|
    requires forall s, t :: 0 <= s < t < |ks| ==> ks[s] != ks[t]
    requires forall t :: 0 <= t < |ks| ==> ks[t] in results && ks[t] in prev && ks[t] in updated
    requires forall t :: 0 <= t < j ==> prev[ks[t]] == results[ks[t]] + Matched(ks[t], pk)
    requires forall t :: j <= t < |ks| ==> prev[ks[t]] == results[ks[t]]
    requires updated[ks[j]] == prev[ks[j]] + Matched(ks[j], pk)
    requires forall k :: k in prev && k != ks[j] ==> k in updated && updated[k] == prev[k]
    ensures forall t :: 0 <= t < j + 1 ==> updated[ks[t]] == results[ks[t]] + Matched(ks[t], pk)
    ensures forall t :: j + 1 <= t < |ks| ==> updated[ks[t]] == results[ks[t]]
  {
  }

  /** `pattern_functions[k](...)`: the registered matcher of pattern `k`
      applied to the coin's peaks. */
  method RunMatcher(k: PatternKind, pk: Peaks) returns (result: Option<Signal>)
    ensures Matched(k, pk) == if result.Some? then [result.value] else []
  {
    result := SourceMatcher(k, pk.moves, pk.symbol, pk.anchors);
    MatchedBySource(k, pk);
  }

  /** The inner loop of `scan_harmonic_patterns` for one coin: each of the
      eight matchers, in table order, appends its signal (if any) to its
      pattern's list and bumps the counter. */
  method RecordMatches(results: map<PatternKind, seq<Signal>>, signalCount: nat, pk: Peaks)
    returns (updated: map<PatternKind, seq<Signal>>, count: nat)
    requires forall k: PatternKind :: k in results
    requires signalCount == HarmonicCount(results)
    ensures forall k: PatternKind :: k in updated
    ensures forall k: PatternKind :: updated[k] == results[k] + Matched(k, pk)
    ensures count == HarmonicCount(updated)
  {
    PatternOrderComplete();
    updated, count := results, signalCount;
    for j := 0 to |PatternOrder|
      invariant forall k: PatternKind :: k in updated
      invariant forall t :: 0 <= t < j ==>
        updated[PatternOrder[t]] == results[PatternOrder[t]] + Matched(PatternOrder[t], pk)
      invariant forall t :: j <= t < |PatternOrder| ==> updated[PatternOrder[t]] == results[PatternOrder[t]]
      invariant count == HarmonicCount(updated)
    {
      var k := PatternOrder[j];
      ghost var prev := updated;
      var result := RunMatcher(k, pk);
      if result.Some? {
        SumLengthsUpdate(updated, PatternOrder, k, updated[k] + [result.value]);
        updated := updated[k := updated[k] + [result.value]];
        count := count + 1;
      } else {
        assert prev[k] + Matched(k, pk) == prev[k];
      }
      RecordStep(PatternOrder, results, pk, j, prev, updated);
    }
    forall k: PatternKind ensures updated[k] == results[k] + Matched(k, pk) {
      assert k in PatternOrder;
      var t :| 0 <= t < |PatternOrder| && PatternOrder[t] == k;
    }
  }

  /** The body of the per-coin loop: the coin's rows, its peaks and, when
      peak detection succeeds, the eight matchers; a coin whose peak
      detection raises leaves the lists and the counter as they were. */
  method ScanCoin(data: seq<Bar>, order: int, coin: string,
                  results: map<PatternKind, seq<Signal>>, signalCount: nat)
    returns (updated: map<PatternKind, seq<Signal>>, count: nat)
    requires forall k: PatternKind :: k in results
    requires signalCount == HarmonicCount(results)
    ensures forall k: PatternKind :: k in updated
    ensures forall k: PatternKind :: updated[k] == results[k] + CoinSignals(data, order, coin, k)
    ensures count == HarmonicCount(updated)
  {
    updated, count := results, signalCount;
    var peaks := PeakDetect(CoinBars(data, coin), order);
    if peaks.Ok? {
      updated, count := RecordMatches(results, signalCount, peaks.value);
    }
  }

  /** The per-coin loop of `scan_harmonic_patterns` with its signal counter.
      Notifications, logging and progress reports are not modelled. */
  method ScanHarmonicPatterns(data: seq<Bar>, order: int) returns (results: map<PatternKind, seq<Signal>>, signalCount: nat)
    ensures results == ScanResults(data, order)
    ensures signalCount == HarmonicCount(results)
  {
    PatternOrderComplete();
    var coins := Coins(data);
    results := map k | k in PatternOrder :: [];
    signalCount := 0;
    SumLengthsBound(results, PatternOrder, 0);
    assert coins[..0] == [];
    for idx := 0 to |coins|
      invariant forall k: PatternKind :: k in results
      invariant forall k: PatternKind :: results[k] == Collected(SignalsOf(data, order, k), coins[..idx])
      invariant signalCount == HarmonicCount(results)
    {
      ghost var before := results;
      results, signalCount := ScanCoin(data, order, coins[idx], results, signalCount);
      CoinScanned(data, order, coins, idx, before, results);
    }
    assert coins[..|coins|] == coins;
    ScanComplete(data, order, results);
  }

  // ---------------------------------------------------------------------
  // Properties of the result
  // ---------------------------------------------------------------------

  /** The result has exactly the eight pattern keys, and with no data every
      list is empty. */
  lemma ScanResultsKeys(data: seq<Bar>, order: int)
    ensures forall k: PatternKind :: k in ScanResults(data, order)
    ensures data == [] ==> forall k :: k in ScanResults(data, order) ==> ScanResults(data, order)[k] == []
  {
    PatternOrderComplete();
    if data == [] {
      assert Coins(data) == [];
    }
  }

  /** The lists grow coin by coin: the signals of a longer coin list are
      those of its first part followed by those of the rest. */
  lemma {:induction false} CollectedAppend(signals: string -> seq<Signal>, a: seq<string>, b: seq<string>)
    ensures Collected(signals, a + b) == Collected(signals, a) + Collected(signals, b)
    decreases |b|
  {
    if b == [] {
      assert a + b == a;
    } else {
      var b' := b[..|b| - 1];
      assert (a + b)[..|a + b| - 1] == a + b';
      assert (a + b)[|a + b| - 1] == b[|b| - 1];
      CollectedAppend(signals, a, b');
    }
  }

  /** A coin whose peak detection raises contributes nothing, and the coins
      after it are still scanned. */
  lemma FailingCoinSkipped(data: seq<Bar>, order: int, before: seq<string>, coin: string,
                           after: seq<string>, k: PatternKind)
    requires PeakDetect(CoinBars(data, coin), order).Err?
    ensures var signals := SignalsOf(data, order, k);
      Collected(signals, before + [coin] + after) == Collected(signals, before + after)
  {
    var signals := SignalsOf(data, order, k);
    assert Collected(signals, [coin]) == [] by {
      assert [coin][..0] == [];
      assert signals(coin) == [];
    }
    CollectedAppend(signals, before, [coin]);
    CollectedAppend(signals, before + [coin], after);
    CollectedAppend(signals, before, after);
  }

  /** Every listed signal comes from one of the coins ... */
  lemma {:induction false} CollectedSound(signals: string -> seq<Signal>, coins: seq<string>, s: Signal)
    requires s in Collected(signals, coins)
    ensures exists i :: 0 <= i < |coins| && s in signals(coins[i])
    decreases |coins|
  {
    var init := coins[..|coins| - 1];
    if s in Collected(signals, init) {
      CollectedSound(signals, init, s);
      var i :| 0 <= i < |init| && s in signals(init[i]);
      assert coins[i] == init[i];
    } else {
      assert s in signals(coins[|coins| - 1]);
    }
  }

  /** ... and every coin's signals are listed. */
  lemma {:induction false} CollectedComplete(signals: string -> seq<Signal>, coins: seq<string>, i: int, s: Signal)
    requires 0 <= i < |coins| && s in signals(coins[i])
    ensures s in Collected(signals, coins)
    decreases |coins|
  {
    var init := coins[..|coins| - 1];
    if i < |coins| - 1 {
      assert init[i] == coins[i];
      CollectedComplete(signals, init, i, s);
    }
  }

  /** `s` is pattern `k`'s match on the peaks detected for `coin`,
      labelled with that coin's pair name. */
  predicate MatchedOn(data: seq<Bar>, order: int, k: PatternKind, s: Signal, coin: string)
  {
    && coin in Coins(data)
    && PeakDetect(CoinBars(data, coin), order).Ok?
    && var pk := PeakDetect(CoinBars(data, coin), order).value;
       Match(TemplateOf(k), pk.moves, pk.symbol, pk.anchors) == Some(s)
       && s.symbol == PairName([coin])
  }

  /** What a listed signal is: the pattern's match on the anchors and legs
      that peak detection found for one of the coins, labelled with that
      coin's pair name. */
  lemma SignalProvenance(data: seq<Bar>, order: int, k: PatternKind, s: Signal)
    requires k in ScanResults(data, order) && s in ScanResults(data, order)[k]
    ensures exists coin :: MatchedOn(data, order, k, s, coin)
  {
    var coins := Coins(data);
    CollectedSound(SignalsOf(data, order, k), coins, s);
    var i :| 0 <= i < |coins| && s in SignalsOf(data, order, k)(coins[i]);
    ListedSignalMatched(data, order, k, s, coins[i]);
  }

  /** Conversely, every pattern's match on the peaks detected for one of
      the coins is listed under that pattern. */
  lemma MatchedSignalListed(data: seq<Bar>, order: int, k: PatternKind, s: Signal, coin: string)
    requires MatchedOn(data, order, k, s, coin)
    ensures k in ScanResults(data, order) && s in ScanResults(data, order)[k]
  {
    MatchedContributes(data, order, k, s, coin);
    ContributionListed(data, order, k, s, coin);
  }

  /** Every signal a coin contributes to a pattern is listed under it. */
  lemma ContributionListed(data: seq<Bar>, order: int, k: PatternKind, s: Signal, coin: string)
    requires coin in Coins(data) && s in SignalsOf(data, order, k)(coin)
    ensures k in ScanResults(data, order) && s in ScanResults(data, order)[k]
  {
    PatternOrderComplete();
    CollectedHasCoin(SignalsOf(data, order, k), Coins(data), coin, s);
  }

  /** A coin's match is that coin's contribution to the pattern's list. */
  lemma MatchedContributes(data: seq<Bar>, order: int, k: PatternKind, s: Signal, coin: string)
    requires MatchedOn(data, order, k, s, coin)
    ensures coin in Coins(data) && s in SignalsOf(data, order, k)(coin)
  {
  }

  /** A signal of any listed coin is collected. */
  lemma CollectedHasCoin(signals: string -> seq<Signal>, coins: seq<string>, coin: string, s: Signal)
    requires coin in coins && s in signals(coin)
    ensures s in Collected(signals, coins)
  {
    var i :| 0 <= i < |coins| && coins[i] == coin;
    CollectedComplete(signals, coins, i, s);
  }

  /** A signal a coin contributes is its match, under its pair name. */
  lemma ListedSignalMatched(data: seq<Bar>, order: int, k: PatternKind, s: Signal, coin: string)
    requires coin in Coins(data)
    requires s in CoinSignals(data, order, coin, k)
    ensures MatchedOn(data, order, k, s, coin)
  {
    CoinSymbols(data, coin);
    var pk := PeakDetect(CoinBars(data, coin), order).value;
    MatchIsLevels(TemplateOf(k), pk.moves, pk.symbol, pk.anchors);
  }

  /** A pattern's list has at most one entry per coin. */
  lemma {:induction false} CollectedLength(signals: string -> seq<Signal>, coins: seq<string>)
    requires forall coin :: |signals(coin)| <= 1
    ensures |Collected(signals, coins)| <= |coins|
    decreases |coins|
  {
    if coins != [] {
      CollectedLength(signals, coins[..|coins| - 1]);
    }
  }

  lemma {:induction false} SumLengthsBound(m: map<PatternKind, seq<Signal>>, ks: seq<PatternKind>, bound: nat)
    requires forall k :: k in ks ==> k in m && |m[k]| <= bound
    ensures SumLengths(m, ks) <= |ks| * bound
  {
    if ks != [] {
      SumLengthsBound(m, ks[1..], bound);
    }
  }

  /** Each coin yields at most one signal per pattern, so at most eight. */
  lemma SignalCountBound(data: seq<Bar>, order: int)
    ensures HarmonicCount(ScanResults(data, order)) <= 8 * |Coins(data)|
  {
    var r := ScanResults(data, order);
    forall k | k in PatternOrder ensures |r[k]| <= |Coins(data)| {
      CollectedLength(SignalsOf(data, order, k), Coins(data));
    }
    SumLengthsBound(r, PatternOrder, |Coins(data)|);
  }

  // ---------------------------------------------------------------------
  // The summary tier
  // ---------------------------------------------------------------------

  /** The status line of the scan summary, by number of signals. */
  datatype Tier = NoSignals | FewSignals | ActiveMarket | ManyOpportunities

  function SummaryTier(count: int): Tier
  {
    if count == 0 then NoSignals
    else if count <= 3 then FewSignals
    else if count <= 10 then ActiveMarket
    else ManyOpportunities
  }

  function TierRank(t: Tier): nat
  {
    match t
    case NoSignals => 0
    case FewSignals => 1
    case ActiveMarket => 2
    case ManyOpportunities => 3
  }

  /** More signals never give a lower tier. */
  lemma SummaryTierMonotone(a: nat, b: nat)
    requires a <= b
    ensures TierRank(SummaryTier(a)) <= TierRank(SummaryTier(b))
  {
  }
}
