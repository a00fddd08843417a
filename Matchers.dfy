/** The eight matchers as the source writes them, one function each with
    its constants inline, and the name-to-function table the scan walks.
    They are the reference against which the template-driven matcher of
    module Patterns is checked. */
module Matchers {
  import opened Wrappers
  import opened Prices
  import opened Text
  import opened Swings
  import opened Patterns

  function BullBat(m: Legs, symbol: seq<string>, pat: Anchors): Option<Signal>
  {
    var errAllowed := 0.1;
    var mPat := m.xa > 0.0 && m.ab < 0.0 && m.bc > 0.0 && m.cd < 0.0;
    var abRange := ((0.382 - errAllowed) * Abs(m.xa), (0.5 + errAllowed) * Abs(m.xa));
    var bcRange := ((0.382 - errAllowed) * Abs(m.ab), (0.886 + errAllowed) * Abs(m.ab));
    var cdRange := ((1.618 - errAllowed) * Abs(m.bc), (2.618 + errAllowed) * Abs(m.bc));
    var prz := Round4(pat.a.price - 0.886 * Abs(m.xa));
    var sl := Round4(pat.x.price);
    var tp1 := Round4(pat.c.price - 0.618 * Abs(m.cd));
    var tp2 := Round4(pat.c.price - 0.5 * Abs(m.cd));
    var tp3 := Round4(pat.c.price - 0.382 * Abs(m.cd));
    var batPat :=
      && abRange.0 < Abs(m.ab) < abRange.1
      && bcRange.0 < Abs(m.bc) < bcRange.1
      && Abs(m.cd) >= 0.7 * Abs(m.xa)
      && Abs(m.cd) <= cdRange.1;
    if mPat && batPat then Some(Signal(PairName(symbol), prz, sl, tp1, tp2, tp3)) else None
  }

  function BearBat(m: Legs, symbol: seq<string>, pat: Anchors): Option<Signal>
  {
    var errAllowed := 0.1;
    var wPat := m.xa < 0.0 && m.ab > 0.0 && m.bc < 0.0 && m.cd > 0.0;
    var abRange := ((0.382 - errAllowed) * Abs(m.xa), (0.5 + errAllowed) * Abs(m.xa));
    var bcRange := ((0.382 - errAllowed) * Abs(m.ab), (0.886 + errAllowed) * Abs(m.ab));
    var cdRange := ((1.618 - errAllowed) * Abs(m.bc), (2.618 + errAllowed) * Abs(m.bc));
    var prz := Round4(pat.a.price + 0.886 * Abs(m.xa));
    var sl := Round4(pat.x.price);
    var tp1 := Round4(pat.c.price + 0.618 * Abs(m.cd));
    var tp2 := Round4(pat.c.price + 0.5 * Abs(m.cd));
    var tp3 := Round4(pat.c.price + 0.382 * Abs(m.cd));
    var batPat :=
      && abRange.0 < Abs(m.ab) < abRange.1
      && bcRange.0 < Abs(m.bc) < bcRange.1
      && Abs(m.cd) >= 0.7 * Abs(m.xa)
      && Abs(m.cd) <= cdRange.1;
    if wPat && batPat then Some(Signal(PairName(symbol), prz, sl, tp1, tp2, tp3)) else None
  }

  function BullGartley(m: Legs, symbol: seq<string>, pat: Anchors): Option<Signal>
  {
    var errAllowed := 0.1;
    var mPat := m.xa > 0.0 && m.ab < 0.0 && m.bc > 0.0 && m.cd < 0.0;
    var abRange := ((0.618 - errAllowed) * Abs(m.xa), (0.618 + errAllowed) * Abs(m.xa));
    var bcRange := ((0.382 - errAllowed) * Abs(m.ab), (0.886 + errAllowed) * Abs(m.ab));
    var cdRange := ((1.272 - errAllowed) * Abs(m.bc), (1.618 + errAllowed) * Abs(m.bc));
    var prz := Round4(pat.a.price - 0.786 * Abs(m.xa));
    var sl := Round4(pat.x.price);
    var tp1 := Round4(pat.c.price - 0.618 * Abs(m.cd));
    var tp2 := Round4(pat.c.price - 0.5 * Abs(m.cd));
    var tp3 := Round4(pat.c.price - 0.382 * Abs(m.cd));
    var gartleyPat :=
      && abRange.0 < Abs(m.ab) < abRange.1
      && bcRange.0 < Abs(m.bc) < bcRange.1
      && Abs(m.cd) >= 0.6 * Abs(m.xa)
      && Abs(m.cd) <= cdRange.1;
    if mPat && gartleyPat then Some(Signal(PairName(symbol), prz, sl, tp1, tp2, tp3)) else None
  }

  function BearGartley(m: Legs, symbol: seq<string>, pat: Anchors): Option<Signal>
  {
    var errAllowed := 0.1;
    var wPat := m.xa < 0.0 && m.ab > 0.0 && m.bc < 0.0 && m.cd > 0.0;
    var abRange := ((0.618 - errAllowed) * Abs(m.xa), (0.618 + errAllowed) * Abs(m.xa));
    var bcRange := ((0.382 - errAllowed) * Abs(m.ab), (0.886 + errAllowed) * Abs(m.ab));
    var cdRange := ((1.272 - errAllowed) * Abs(m.bc), (1.618 + errAllowed) * Abs(m.bc));
    var prz := Round4(pat.a.price + 0.786 * Abs(m.xa));
    var sl := Round4(pat.x.price);
    var tp1 := Round4(pat.c.price + 0.618 * Abs(m.cd));
    var tp2 := Round4(pat.c.price + 0.5 * Abs(m.cd));
    var tp3 := Round4(pat.c.price + 0.382 * Abs(m.cd));
    var gartleyPat :=
      && abRange.0 < Abs(m.ab) < abRange.1
      && bcRange.0 < Abs(m.bc) < bcRange.1
      && Abs(m.cd) >= 0.6 * Abs(m.xa)
      && Abs(m.cd) <= cdRange.1;
    if wPat && gartleyPat then Some(Signal(PairName(symbol), prz, sl, tp1, tp2, tp3)) else None
  }

  function BullCrab(m: Legs, symbol: seq<string>, pat: Anchors): Option<Signal>
  {
    var errAllowed := 0.1;
    var mPat := m.xa > 0.0 && m.ab < 0.0 && m.bc > 0.0 && m.cd < 0.0;
    var abRange := ((0.382 - errAllowed) * Abs(m.xa), (0.618 + errAllowed) * Abs(m.xa));
    var bcRange := ((0.382 - errAllowed) * Abs(m.ab), (0.886 + errAllowed) * Abs(m.ab));
    var cdRange := ((2.618 - errAllowed) * Abs(m.bc), (3.618 + errAllowed) * Abs(m.bc));
    var prz := Round4(pat.a.price - 1.618 * Abs(m.xa));
    var sl := prz * 0.98;
    var tp1 := Round4(pat.c.price - 0.618 * Abs(m.cd));
    var tp2 := Round4(pat.c.price - 0.5 * Abs(m.cd));
    var tp3 := Round4(pat.c.price - 0.382 * Abs(m.cd));
    var crabPat :=
      && abRange.0 < Abs(m.ab) < abRange.1
      && bcRange.0 < Abs(m.bc) < bcRange.1
      && Abs(m.cd) >= 1.3 * Abs(m.xa)
      && Abs(m.cd) <= cdRange.1;
    if mPat && crabPat then Some(Signal(PairName(symbol), prz, sl, tp1, tp2, tp3)) else None
  }

  function BearCrab(m: Legs, symbol: seq<string>, pat: Anchors): Option<Signal>
  {
    var errAllowed := 0.1;
    var wPat := m.xa < 0.0 && m.ab > 0.0 && m.bc < 0.0 && m.cd > 0.0;
    var abRange := ((0.382 - errAllowed) * Abs(m.xa), (0.618 + errAllowed) * Abs(m.xa));
    var bcRange := ((0.382 - errAllowed) * Abs(m.ab), (0.886 + errAllowed) * Abs(m.ab));
    var cdRange := ((2.618 - errAllowed) * Abs(m.bc), (3.618 + errAllowed) * Abs(m.bc));
    var prz := Round4(pat.a.price + 1.618 * Abs(m.xa));
    var sl := prz * 1.02;
    var tp1 := Round4(pat.c.price + 0.618 * Abs(m.cd));
    var tp2 := Round4(pat.c.price + 0.5 * Abs(m.cd));
    var tp3 := Round4(pat.c.price + 0.382 * Abs(m.cd));
    var crabPat :=
      && abRange.0 < Abs(m.ab) < abRange.1
      && bcRange.0 < Abs(m.bc) < bcRange.1
      && Abs(m.cd) >= 1.3 * Abs(m.xa)
      && Abs(m.cd) <= cdRange.1;
    if wPat && crabPat then Some(Signal(PairName(symbol), prz, sl, tp1, tp2, tp3)) else None
  }

  function BullButterfly(m: Legs, symbol: seq<string>, pat: Anchors): Option<Signal>
  {
    var errAllowed := 0.1;
    var mPat := m.xa > 0.0 && m.ab < 0.0 && m.bc > 0.0 && m.cd < 0.0;
    var abRange := ((0.786 - errAllowed) * Abs(m.xa), (0.786 + errAllowed) * Abs(m.xa));
    var bcRange := ((0.382 - errAllowed) * Abs(m.ab), (0.886 + errAllowed) * Abs(m.ab));
    var cdRange := ((1.618 - errAllowed) * Abs(m.bc), (2.618 + errAllowed) * Abs(m.bc));
    var prz := Round4(pat.a.price - 1.27 * Abs(m.xa));
    var sl := prz * 0.98;
    var tp1 := Round4(pat.c.price - 0.618 * Abs(m.cd));
    var tp2 := Round4(pat.c.price - 0.5 * Abs(m.cd));
    var tp3 := Round4(pat.c.price - 0.382 * Abs(m.cd));
    var butterflyPat :=
      && abRange.0 < Abs(m.ab) < abRange.1
      && bcRange.0 < Abs(m.bc) < bcRange.1
      && Abs(m.cd) >= 1.2 * Abs(m.xa)
      && Abs(m.cd) <= cdRange.1;
    if mPat && butterflyPat then Some(Signal(PairName(symbol), prz, sl, tp1, tp2, tp3)) else None
  }

  function BearButterfly(m: Legs, symbol: seq<string>, pat: Anchors): Option<Signal>
  {
    var errAllowed := 0.1;
    var wPat := m.xa < 0.0 && m.ab > 0.0 && m.bc < 0.0 && m.cd > 0.0;
    var abRange := ((0.786 - errAllowed) * Abs(m.xa), (0.786 + errAllowed) * Abs(m.xa));
    var bcRange := ((0.382 - errAllowed) * Abs(m.ab), (0.886 + errAllowed) * Abs(m.ab));
    var cdRange := ((1.618 - errAllowed) * Abs(m.bc), (2.618 + errAllowed) * Abs(m.bc));
    var prz := Round4(pat.a.price + 1.27 * Abs(m.xa));
    var sl := prz * 0.98;
    var tp1 := Round4(pat.c.price + 0.618 * Abs(m.cd));
    var tp2 := Round4(pat.c.price + 0.5 * Abs(m.cd));
    var tp3 := Round4(pat.c.price + 0.382 * Abs(m.cd));
    var butterflyPat :=
      && abRange.0 < Abs(m.ab) < abRange.1
      && bcRange.0 < Abs(m.bc) < bcRange.1
      && Abs(m.cd) >= 1.2 * Abs(m.xa)
      && Abs(m.cd) <= cdRange.1;
    if wPat && butterflyPat then Some(Signal(PairName(symbol), prz, sl, tp1, tp2, tp3)) else None
  }

  /** The `pattern_functions` table: the matcher registered for each kind. */
  function SourceMatcher(k: PatternKind, m: Legs, symbol: seq<string>, pat: Anchors): Option<Signal>
  {
    match k
    case PatternKind(Bat, Bull) => BullBat(m, symbol, pat)
    case PatternKind(Bat, Bear) => BearBat(m, symbol, pat)
    case PatternKind(Gartley, Bull) => BullGartley(m, symbol, pat)
    case PatternKind(Gartley, Bear) => BearGartley(m, symbol, pat)
    case PatternKind(Crab, Bull) => BullCrab(m, symbol, pat)
    case PatternKind(Crab, Bear) => BearCrab(m, symbol, pat)
    case PatternKind(Butterfly, Bull) => BullButterfly(m, symbol, pat)
    case PatternKind(Butterfly, Bear) => BearButterfly(m, symbol, pat)
  }

  lemma BullBatAgrees(m: Legs, symbol: seq<string>, pat: Anchors)
    ensures BullBat(m, symbol, pat) == Match(TemplateOf(PatternKind(Bat, Bull)), m, symbol, pat)
  {
    var t := TemplateOf(PatternKind(Bat, Bull));
    assert HasShape(t.dir, m) && WithinBands(t, m) ==> BullBat(m, symbol, pat) == Some(Levels(t, m, symbol, pat));
  }

  lemma BearBatAgrees(m: Legs, symbol: seq<string>, pat: Anchors)
    ensures BearBat(m, symbol, pat) == Match(TemplateOf(PatternKind(Bat, Bear)), m, symbol, pat)
  {
    var t := TemplateOf(PatternKind(Bat, Bear));
    assert HasShape(t.dir, m) && WithinBands(t, m) ==> BearBat(m, symbol, pat) == Some(Levels(t, m, symbol, pat));
  }

  lemma BullGartleyAgrees(m: Legs, symbol: seq<string>, pat: Anchors)
    ensures BullGartley(m, symbol, pat) == Match(TemplateOf(PatternKind(Gartley, Bull)), m, symbol, pat)
  {
    var t := TemplateOf(PatternKind(Gartley, Bull));
    assert HasShape(t.dir, m) && WithinBands(t, m) ==> BullGartley(m, symbol, pat) == Some(Levels(t, m, symbol, pat));
  }

  lemma BearGartleyAgrees(m: Legs, symbol: seq<string>, pat: Anchors)
    ensures BearGartley(m, symbol, pat) == Match(TemplateOf(PatternKind(Gartley, Bear)), m, symbol, pat)
  {
    var t := TemplateOf(PatternKind(Gartley, Bear));
    assert HasShape(t.dir, m) && WithinBands(t, m) ==> BearGartley(m, symbol, pat) == Some(Levels(t, m, symbol, pat));
  }

  lemma BullCrabAgrees(m: Legs, symbol: seq<string>, pat: Anchors)
    ensures BullCrab(m, symbol, pat) == Match(TemplateOf(PatternKind(Crab, Bull)), m, symbol, pat)
  {
    var t := TemplateOf(PatternKind(Crab, Bull));
    assert HasShape(t.dir, m) && WithinBands(t, m) ==> BullCrab(m, symbol, pat) == Some(Levels(t, m, symbol, pat));
  }

  lemma BearCrabAgrees(m: Legs, symbol: seq<string>, pat: Anchors)
    ensures BearCrab(m, symbol, pat) == Match(TemplateOf(PatternKind(Crab, Bear)), m, symbol, pat)
  {
    var t := TemplateOf(PatternKind(Crab, Bear));
    assert HasShape(t.dir, m) && WithinBands(t, m) ==> BearCrab(m, symbol, pat) == Some(Levels(t, m, symbol, pat));
  }

  lemma BullButterflyAgrees(m: Legs, symbol: seq<string>, pat: Anchors)
    ensures BullButterfly(m, symbol, pat) == Match(TemplateOf(PatternKind(Butterfly, Bull)), m, symbol, pat)
  {
    var t := TemplateOf(PatternKind(Butterfly, Bull));
    assert HasShape(t.dir, m) && WithinBands(t, m) ==> BullButterfly(m, symbol, pat) == Some(Levels(t, m, symbol, pat));
  }

  lemma BearButterflyAgrees(m: Legs, symbol: seq<string>, pat: Anchors)
    ensures BearButterfly(m, symbol, pat) == Match(TemplateOf(PatternKind(Butterfly, Bear)), m, symbol, pat)
  {
    var t := TemplateOf(PatternKind(Butterfly, Bear));
    assert HasShape(t.dir, m) && WithinBands(t, m) ==> BearButterfly(m, symbol, pat) == Some(Levels(t, m, symbol, pat));
  }

  /** Each hand-written matcher is the shared matcher run on its template. */
  lemma TemplatesAgreeWithSource(k: PatternKind, m: Legs, symbol: seq<string>, pat: Anchors)
    ensures SourceMatcher(k, m, symbol, pat) == Match(TemplateOf(k), m, symbol, pat)
  {
    match k
    case PatternKind(Bat, Bull) => BullBatAgrees(m, symbol, pat);
    case PatternKind(Bat, Bear) => BearBatAgrees(m, symbol, pat);
    case PatternKind(Gartley, Bull) => BullGartleyAgrees(m, symbol, pat);
    case PatternKind(Gartley, Bear) => BearGartleyAgrees(m, symbol, pat);
    case PatternKind(Crab, Bull) => BullCrabAgrees(m, symbol, pat);
    case PatternKind(Crab, Bear) => BearCrabAgrees(m, symbol, pat);
    case PatternKind(Butterfly, Bull) => BullButterflyAgrees(m, symbol, pat);
    case PatternKind(Butterfly, Bear) => BearButterflyAgrees(m, symbol, pat);
  }
}
