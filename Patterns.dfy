/** The eight XABCD harmonic patterns as data (one template per pattern)
    and the single matcher they share: a sign screen on the four legs,
    ratio bands on their magnitudes, and the trade levels of a match. */
module Patterns {
  import opened Wrappers
  import opened Prices
  import opened Text
  import opened Swings

  datatype Shape = Bat | Gartley | Crab | Butterfly

  /** Bull patterns look for an "M" leg vector (+,-,+,-), bear ones for a
      "W" (-,+,-,+). */
  datatype Direction = Bull | Bear

  datatype PatternKind = PatternKind(shape: Shape, dir: Direction)

  /** Bat and Gartley put the stop at X (rounded); Crab and Butterfly at a
      multiple of the rounded PRZ, left unrounded. */
  datatype StopRule = AtX | PrzTimes(factor: real)

  /** The constants of one matcher: the nominal Fibonacci bands of AB/XA,
      BC/AB and CD/BC (of the last only the upper edge is ever checked),
      the minimum of CD/XA, the PRZ retracement of XA and the stop rule. */
  datatype Template = Template(
    dir: Direction,
    abLow: real, abHigh: real,
    bcLow: real, bcHigh: real,
    cdLow: real, cdHigh: real,
    cdMinOfXa: real,
    przRatio: real,
    stop: StopRule)

  /** `err_allowed`: every band edge is widened by this much. */
  const Tolerance: real := 0.1

  /** The fractions of |CD| by which the three targets are moved from C. */
  const Target1: real := 0.618
  const Target2: real := 0.5
  const Target3: real := 0.382

  function TemplateOf(k: PatternKind): (t: Template)
    ensures t.dir == k.dir
  {
    match k.shape
    case Bat => Template(k.dir, 0.382, 0.5, 0.382, 0.886, 1.618, 2.618, 0.7, 0.886, AtX)
    case Gartley => Template(k.dir, 0.618, 0.618, 0.382, 0.886, 1.272, 1.618, 0.6, 0.786, AtX)
    case Crab =>
      Template(k.dir, 0.382, 0.618, 0.382, 0.886, 2.618, 3.618, 1.3, 1.618,
               PrzTimes(if k.dir == Bull then 0.98 else 1.02))
    case Butterfly => Template(k.dir, 0.786, 0.786, 0.382, 0.886, 1.618, 2.618, 1.2, 1.27, PrzTimes(0.98))
  }

  /** What a matcher returns on success: the pair name without "/USDT",
      the potential reversal zone, the stop loss and three targets. */
  datatype Signal = Signal(symbol: string, prz: real, sl: real, tp1: real, tp2: real, tp3: real)

  /** The sign screen: `M_pat` for bull templates, `W_pat` for bear ones. */
  predicate HasShape(dir: Direction, m: Legs)
  {
    match dir
    case Bull => m.xa > 0.0 && m.ab < 0.0 && m.bc > 0.0 && m.cd < 0.0
    case Bear => m.xa < 0.0 && m.ab > 0.0 && m.bc < 0.0 && m.cd > 0.0
  }

  /** The ratio screen on the magnitudes of the four legs: AB and BC
      strictly inside their widened bands, CD at least `cdMinOfXa` of XA and
      at most the widened upper CD/BC edge. */
  predicate RatiosFit(t: Template, xa: real, ab: real, bc: real, cd: real)
  {
    && (t.abLow - Tolerance) * xa < ab < (t.abHigh + Tolerance) * xa
    && (t.bcLow - Tolerance) * ab < bc < (t.bcHigh + Tolerance) * ab
    && cd >= t.cdMinOfXa * xa
    && cd <= (t.cdHigh + Tolerance) * bc
  }

  /** The ratio screen applied to a leg vector. */
  predicate WithinBands(t: Template, m: Legs)
  {
    RatiosFit(t, Abs(m.xa), Abs(m.ab), Abs(m.bc), Abs(m.cd))
  }

  /** A level `dist` beyond `from` in the direction the pattern expects the
      price to reach: downwards for a bull pattern, upwards for a bear one. */
  function Toward(dir: Direction, from: real, dist: real): real
  {
    match dir
    case Bull => from - dist
    case Bear => from + dist
  }

  /** The trade levels computed from the anchors and the legs. Targets are
      measured from C, the last swing, not from D. */
  function Levels(t: Template, m: Legs, symbol: seq<string>, pat: Anchors): Signal
  {
    LevelsFor(t.dir, t.przRatio, t.stop, m, symbol, pat)
  }

  /** The levels for a direction, a PRZ ratio and a stop rule: these are
      all a template contributes to them. */
  function LevelsFor(dir: Direction, przRatio: real, stop: StopRule, m: Legs, symbol: seq<string>,
                     pat: Anchors): Signal
  {
    var prz := Round4(Toward(dir, pat.a.price, przRatio * Abs(m.xa)));
    var sl := match stop
      case AtX => Round4(pat.x.price)
      case PrzTimes(f) => prz * f;
    Signal(PairName(symbol), prz, sl,
           Round4(Toward(dir, pat.c.price, Target1 * Abs(m.cd))),
           Round4(Toward(dir, pat.c.price, Target2 * Abs(m.cd))),
           Round4(Toward(dir, pat.c.price, Target3 * Abs(m.cd))))
  }

  /** The matcher shared by all eight patterns: the levels when both
      screens pass, nothing otherwise. */
  function Match(t: Template, m: Legs, symbol: seq<string>, pat: Anchors): Option<Signal>
  {
    if HasShape(t.dir, m) && WithinBands(t, m) then Some(Levels(t, m, symbol, pat)) else None
  }

  // ---------------------------------------------------------------------
  // The sign screen
  // ---------------------------------------------------------------------

  /** A bull pattern matches only an M leg vector, a bear one only a W. */
  lemma MatchNeedsShape(k: PatternKind, m: Legs, symbol: seq<string>, pat: Anchors)
    requires Match(TemplateOf(k), m, symbol, pat).Some?
    ensures k.dir == Bull ==> m.xa > 0.0 && m.ab < 0.0 && m.bc > 0.0 && m.cd < 0.0
    ensures k.dir == Bear ==> m.xa < 0.0 && m.ab > 0.0 && m.bc < 0.0 && m.cd > 0.0
  {
  }

  /** A leg vector with a zero leg matches no pattern. */
  lemma ZeroLegMatchesNothing(k: PatternKind, m: Legs, symbol: seq<string>, pat: Anchors)
    requires m.xa == 0.0 || m.ab == 0.0 || m.bc == 0.0 || m.cd == 0.0
    ensures Match(TemplateOf(k), m, symbol, pat) == None
  {
  }

  /** A leg vector that is neither an M nor a W matches no pattern. */
  lemma OffShapeMatchesNothing(k: PatternKind, m: Legs, symbol: seq<string>, pat: Anchors)
    requires !(m.xa > 0.0 && m.ab < 0.0 && m.bc > 0.0 && m.cd < 0.0)
    requires !(m.xa < 0.0 && m.ab > 0.0 && m.bc < 0.0 && m.cd > 0.0)
    ensures Match(TemplateOf(k), m, symbol, pat) == None
  {
  }

  /** The bull and the bear variant of a shape never both match. */
  lemma BullBearExclusive(shape: Shape, m: Legs, symbol: seq<string>, pat: Anchors)
    ensures Match(TemplateOf(PatternKind(shape, Bull)), m, symbol, pat) == None
         || Match(TemplateOf(PatternKind(shape, Bear)), m, symbol, pat) == None
  {
  }

  /** The same legs with every sign flipped. */
  function Negated(m: Legs): Legs
  {
    Legs(-m.xa, -m.ab, -m.bc, -m.cd)
  }

  /** The ratio screen sees only magnitudes, so a negated leg vector passes
      it exactly when the original does. */
  lemma NegatedWithinBands(t: Template, m: Legs)
    requires WithinBands(t, m)
    ensures WithinBands(t, Negated(m))
  {
    var n := Negated(m);
    assert Abs(n.xa) == Abs(m.xa) && Abs(n.ab) == Abs(m.ab);
    assert Abs(n.bc) == Abs(m.bc) && Abs(n.cd) == Abs(m.cd);
  }

  /** A bull and a bear template with the same checked edges: both
      screens of the bear one pass exactly when both screens of the bull
      one pass on the negated legs. */
  lemma MirrorScreens(bear: Template, bull: Template, m: Legs)
    requires bear.dir == Bear && bull.dir == Bull
    requires bear.abLow == bull.abLow && bear.abHigh == bull.abHigh
    requires bear.bcLow == bull.bcLow && bear.bcHigh == bull.bcHigh
    requires bear.cdHigh == bull.cdHigh && bear.cdMinOfXa == bull.cdMinOfXa
    ensures HasShape(bear.dir, m) && WithinBands(bear, m)
        <==> HasShape(bull.dir, Negated(m)) && WithinBands(bull, Negated(m))
  {
    var n := Negated(m);
    assert Negated(n) == m;
    if WithinBands(bear, m) {
      WithinBandsReadsCheckedEdges(bear, bull, m);
      NegatedWithinBands(bull, m);
    }
    if WithinBands(bull, n) {
      WithinBandsReadsCheckedEdges(bull, bear, n);
      NegatedWithinBands(bear, n);
    }
  }

  /** Mirror symmetry: the bear variant accepts a leg vector exactly when
      the bull variant accepts its negation. */
  lemma MirrorSymmetry(shape: Shape, m: Legs, symbol: seq<string>, pat: Anchors, pat': Anchors)
    ensures Match(TemplateOf(PatternKind(shape, Bear)), m, symbol, pat).Some?
        <==> Match(TemplateOf(PatternKind(shape, Bull)), Negated(m), symbol, pat').Some?
  {
    MirrorScreens(TemplateOf(PatternKind(shape, Bear)), TemplateOf(PatternKind(shape, Bull)), m);
  }

  // ---------------------------------------------------------------------
  // Band edges
  // ---------------------------------------------------------------------

  /** The AB and BC checks are strict: a ratio exactly on a widened edge
      fails the ratio screen. */
  lemma AbBcEdgesOutside(t: Template, xa: real, ab: real, bc: real, cd: real)
    requires
      || ab == (t.abLow - Tolerance) * xa
      || ab == (t.abHigh + Tolerance) * xa
      || bc == (t.bcLow - Tolerance) * ab
      || bc == (t.bcHigh + Tolerance) * ab
    ensures !RatiosFit(t, xa, ab, bc, cd)
  {
  }

  /** So such a leg vector is rejected. */
  lemma AbBcEdgesRejected(t: Template, m: Legs, symbol: seq<string>, pat: Anchors)
    requires
      || Abs(m.ab) == (t.abLow - Tolerance) * Abs(m.xa)
      || Abs(m.ab) == (t.abHigh + Tolerance) * Abs(m.xa)
      || Abs(m.bc) == (t.bcLow - Tolerance) * Abs(m.ab)
      || Abs(m.bc) == (t.bcHigh + Tolerance) * Abs(m.ab)
    ensures Match(t, m, symbol, pat) == None
  {
    AbBcEdgesOutside(t, Abs(m.xa), Abs(m.ab), Abs(m.bc), Abs(m.cd));
  }

  /** The CD checks are inclusive: with the AB and BC screens passed, |CD|
      equal to the minimum multiple of |XA| or to the widened upper
      multiple of |BC| passes the ratio screen. */
  lemma CdEdgesInside(t: Template, xa: real, ab: real, bc: real, cd: real)
    requires (t.abLow - Tolerance) * xa < ab < (t.abHigh + Tolerance) * xa
    requires (t.bcLow - Tolerance) * ab < bc < (t.bcHigh + Tolerance) * ab
    requires t.cdMinOfXa * xa <= (t.cdHigh + Tolerance) * bc
    requires cd == t.cdMinOfXa * xa || cd == (t.cdHigh + Tolerance) * bc
    ensures RatiosFit(t, xa, ab, bc, cd)
  {
  }

  /** So such a leg vector with the right signs is accepted. */
  lemma CdEdgesAccepted(t: Template, m: Legs, symbol: seq<string>, pat: Anchors)
    requires HasShape(t.dir, m)
    requires (t.abLow - Tolerance) * Abs(m.xa) < Abs(m.ab) < (t.abHigh + Tolerance) * Abs(m.xa)
    requires (t.bcLow - Tolerance) * Abs(m.ab) < Abs(m.bc) < (t.bcHigh + Tolerance) * Abs(m.ab)
    requires t.cdMinOfXa * Abs(m.xa) <= (t.cdHigh + Tolerance) * Abs(m.bc)
    requires Abs(m.cd) == t.cdMinOfXa * Abs(m.xa) || Abs(m.cd) == (t.cdHigh + Tolerance) * Abs(m.bc)
    ensures Match(t, m, symbol, pat).Some?
  {
    CdEdgesInside(t, Abs(m.xa), Abs(m.ab), Abs(m.bc), Abs(m.cd));
  }

  /** The ratio screen reads only the AB and BC edges, the upper CD edge
      and the CD/XA minimum. */
  lemma RatiosFitReadsCheckedEdges(t: Template, u: Template, xa: real, ab: real, bc: real, cd: real)
    requires t.abLow == u.abLow && t.abHigh == u.abHigh
    requires t.bcLow == u.bcLow && t.bcHigh == u.bcHigh
    requires t.cdHigh == u.cdHigh && t.cdMinOfXa == u.cdMinOfXa
    requires RatiosFit(t, xa, ab, bc, cd)
    ensures RatiosFit(u, xa, ab, bc, cd)
  {
  }

  lemma WithinBandsReadsCheckedEdges(t: Template, u: Template, m: Legs)
    requires t.abLow == u.abLow && t.abHigh == u.abHigh
    requires t.bcLow == u.bcLow && t.bcHigh == u.bcHigh
    requires t.cdHigh == u.cdHigh && t.cdMinOfXa == u.cdMinOfXa
    requires WithinBands(t, m)
    ensures WithinBands(u, m)
  {
    RatiosFitReadsCheckedEdges(t, u, Abs(m.xa), Abs(m.ab), Abs(m.bc), Abs(m.cd));
  }

  /** The lower CD/BC edge (`CD_range[0]`) is computed but never consulted:
      changing it changes neither the accept decision nor the levels. */
  lemma CdLowerEdgeUnused(t: Template, v: real, m: Legs, symbol: seq<string>, pat: Anchors)
    ensures Match(t.(cdLow := v), m, symbol, pat) == Match(t, m, symbol, pat)
  {
    var t' := t.(cdLow := v);
    if WithinBands(t, m) {
      WithinBandsReadsCheckedEdges(t, t', m);
    }
    if WithinBands(t', m) {
      WithinBandsReadsCheckedEdges(t', t, m);
    }
    assert Levels(t', m, symbol, pat) == Levels(t, m, symbol, pat);
  }


  // ---------------------------------------------------------------------
  // Trade levels
  // ---------------------------------------------------------------------

  /** A match is the template's levels, reported under the pair name. */
  lemma MatchIsLevels(t: Template, m: Legs, symbol: seq<string>, pat: Anchors)
    requires Match(t, m, symbol, pat).Some?
    ensures Match(t, m, symbol, pat) == Some(Levels(t, m, symbol, pat))
    ensures Levels(t, m, symbol, pat).symbol == PairName(symbol)
  {
  }

  /** The targets are C moved by 0.618, 0.5 and 0.382 of |CD| towards the
      expected reversal, rounded. */
  lemma LevelsTargets(t: Template, m: Legs, symbol: seq<string>, pat: Anchors)
    ensures Levels(t, m, symbol, pat).tp1 == Round4(Toward(t.dir, pat.c.price, Target1 * Abs(m.cd)))
    ensures Levels(t, m, symbol, pat).tp2 == Round4(Toward(t.dir, pat.c.price, Target2 * Abs(m.cd)))
    ensures Levels(t, m, symbol, pat).tp3 == Round4(Toward(t.dir, pat.c.price, Target3 * Abs(m.cd)))
  {
  }

  /** The stop rule of each pattern: X for Bat and Gartley, 0.98 of the PRZ
      for Crab and Butterfly, except 1.02 for bear Crab. */
  lemma StopRules(k: PatternKind)
    ensures k.shape in {Bat, Gartley} <==> TemplateOf(k).stop == AtX
    ensures k == PatternKind(Crab, Bear) <==> TemplateOf(k).stop == PrzTimes(1.02)
    ensures k.shape in {Crab, Butterfly} && k != PatternKind(Crab, Bear) <==> TemplateOf(k).stop == PrzTimes(0.98)
  {
  }

  /** Moving C by 0.618, 0.5 and 0.382 of a positive distance gives three
      levels that, for a bull pattern, rise strictly before rounding and
      weakly after it; for a bear pattern they fall. */
  lemma TargetLevelsOrdered(dir: Direction, c: real, d: real)
    requires d > 0.0
    ensures dir == Bull ==> c - Target1 * d < c - Target2 * d < c - Target3 * d
    ensures dir == Bear ==> c + Target1 * d > c + Target2 * d > c + Target3 * d
    ensures var r1, r2, r3 := Round4(Toward(dir, c, Target1 * d)), Round4(Toward(dir, c, Target2 * d)),
                              Round4(Toward(dir, c, Target3 * d));
      (dir == Bull ==> r1 <= r2 <= r3) && (dir == Bear ==> r1 >= r2 >= r3)
  {
    var l1, l2, l3 := Toward(dir, c, Target1 * d), Toward(dir, c, Target2 * d), Toward(dir, c, Target3 * d);
    if dir == Bull {
      Round4Monotone(l1, l2);
      Round4Monotone(l2, l3);
    } else {
      Round4Monotone(l2, l1);
      Round4Monotone(l3, l2);
    }
  }

  /** With a non-zero CD leg the targets are ordered: rising for a bull
      template, falling for a bear one. */
  lemma LevelsTargetsOrdered(t: Template, m: Legs, symbol: seq<string>, pat: Anchors)
    requires m.cd != 0.0
    ensures var s := Levels(t, m, symbol, pat);
      (t.dir == Bull ==> s.tp1 <= s.tp2 <= s.tp3) && (t.dir == Bear ==> s.tp1 >= s.tp2 >= s.tp3)
  {
    LevelsTargets(t, m, symbol, pat);
    TargetLevelsOrdered(t.dir, pat.c.price, Abs(m.cd));
  }

  /** The targets of a match are ordered: rising for a bull pattern,
      falling for a bear one. */
  lemma TargetsOrdered(t: Template, m: Legs, symbol: seq<string>, pat: Anchors)
    requires Match(t, m, symbol, pat).Some?
    ensures var s := Match(t, m, symbol, pat).value;
      t.dir == Bull ==> s.tp1 <= s.tp2 <= s.tp3
    ensures var s := Match(t, m, symbol, pat).value;
      t.dir == Bear ==> s.tp1 >= s.tp2 >= s.tp3
  {
    MatchIsLevels(t, m, symbol, pat);
    assert HasShape(t.dir, m);
    LevelsTargetsOrdered(t, m, symbol, pat);
  }

  /** Where the unrounded stop sits relative to a positive PRZ: below it for
      bull Crab and Butterfly and for bear Butterfly, above it only for bear
      Crab. A bear position's stop below its entry is on the profit side. */
  lemma StopSide(k: PatternKind, m: Legs, symbol: seq<string>, pat: Anchors)
    requires k.shape in {Crab, Butterfly}
    requires Match(TemplateOf(k), m, symbol, pat).Some?
    requires Match(TemplateOf(k), m, symbol, pat).value.prz > 0.0
    ensures var s := Match(TemplateOf(k), m, symbol, pat).value;
      if k == PatternKind(Crab, Bear) then s.sl > s.prz else s.sl < s.prz
  {
  }

  // ---------------------------------------------------------------------
  // Every template is reachable
  // ---------------------------------------------------------------------

  /** A bull leg vector inside each shape's bands; a bear one is its
      negation. */
  function ExampleLegs(k: PatternKind): Legs
  {
    var bull := match k.shape
      case Bat => Legs(1.0, -0.5, 0.4, -0.8)
      case Gartley => Legs(1.0, -0.6, 0.5, -0.7)
      case Crab => Legs(1.0, -0.7, 0.6, -1.5)
      case Butterfly => Legs(1.0, -0.8, 0.7, -1.5);
    if k.dir == Bull then bull else Negated(bull)
  }

  /** No template's bands are contradictory: each one accepts some legs. */
  lemma EveryTemplateCanMatch(k: PatternKind, symbol: seq<string>, pat: Anchors)
    ensures exists m :: Match(TemplateOf(k), m, symbol, pat).Some?
  {
    assert Match(TemplateOf(k), ExampleLegs(k), symbol, pat).Some?;
  }

  /** The middle of a nominal band. */
  function Mid(lo: real, hi: real): real
  {
    (lo + hi) / 2.0
  }

  /** Legs with the template's signs, |XA| = 1 and every ratio at the middle
      of its nominal band. */
  function MidpointLegs(t: Template): Legs
  {
    var s := if t.dir == Bull then 1.0 else -1.0;
    var ab := Mid(t.abLow, t.abHigh);
    var bc := ab * Mid(t.bcLow, t.bcHigh);
    var cd := bc * Mid(t.cdLow, t.cdHigh);
    Legs(s, -s * ab, s * bc, -s * cd)
  }

  /** The nominal bands alone do not describe what the matchers accept:
      with every ratio at the middle of its band, CD falls short of the
      minimum multiple of XA, and no template matches. */
  lemma NominalMidpointsRejected(k: PatternKind, symbol: seq<string>, pat: Anchors)
    ensures var t := TemplateOf(k);
      var m := MidpointLegs(t);
      && HasShape(k.dir, m)
      && Abs(m.xa) == 1.0
      && Abs(m.ab) == Mid(t.abLow, t.abHigh) * Abs(m.xa)
      && Abs(m.bc) == Mid(t.bcLow, t.bcHigh) * Abs(m.ab)
      && Abs(m.cd) == Mid(t.cdLow, t.cdHigh) * Abs(m.bc)
      && Abs(m.cd) < t.cdMinOfXa * Abs(m.xa)
      && Match(t, m, symbol, pat) == None
  {
  }

  // ---------------------------------------------------------------------
  // A worked example
  // ---------------------------------------------------------------------

  /** X=100, A=150, B=119.1, C=139.1, D=107.1: |AB|/|XA| = 0.618,
      |BC|/|AB| about 0.647, |CD| = 32 between 0.6*50 and 1.718*20. */
  function ExampleAnchors(): Anchors
  {
    Anchors(SwingPoint(1, 100.0), SwingPoint(2, 150.0), SwingPoint(3, 119.1),
            SwingPoint(4, 139.1), SwingPoint(5, 107.1))
  }

  /** The example is a bull Gartley with PRZ 110.7, stop 100 and targets
      139.1 - {0.618, 0.5, 0.382} * 32, and no other pattern matches it. */
  lemma ExampleIsOnlyBullGartley(k: PatternKind, symbol: seq<string>)
    ensures var p := ExampleAnchors();
      Match(TemplateOf(k), LegsOf(p), symbol, p)
        == if k == PatternKind(Gartley, Bull)
           then Some(Signal(PairName(symbol), 110.7, 100.0, 119.324, 123.1, 126.876))
           else None
  {
    var p := ExampleAnchors();
    var m := LegsOf(p);
    assert m == Legs(50.0, -30.9, 20.0, -32.0);
    if k == PatternKind(Gartley, Bull) {
      Round4OnGrid(1107000);
      Round4OnGrid(1000000);
      Round4OnGrid(1193240);
      Round4OnGrid(1231000);
      Round4OnGrid(1268760);
    }
  }
}
