/**
 * The decision rules of the financial risk page: the score colour ramp,
 * the zone and health-status badge classes, the feature-impact bar data,
 * the direction of the expected z-score change, and the guard in front of
 * the symbol analysis.
 */
module RiskPage {
  import opened Wrappers
  import opened Strings

  // ---------------------------------------------------------------------------
  // Score colour ramp

  datatype Band = Green | Blue | Amber | Orange | Red

  /** The order of the bands, worst first. */
  function Rank(b: Band): nat {
    match b
    case Red => 0
    case Orange => 1
    case Amber => 2
    case Blue => 3
    case Green => 4
  }

  /** The band of a score; every boundary belongs to the band above it. */
  function ScoreBand(score: real): (b: Band)
    ensures b == Green <==> score >= 90.0
    ensures b == Blue <==> 70.0 <= score < 90.0
    ensures b == Amber <==> 50.0 <= score < 70.0
    ensures b == Orange <==> 30.0 <= score < 50.0
    ensures b == Red <==> score < 30.0
  {
    if score >= 90.0 then Green
    else if score >= 70.0 then Blue
    else if score >= 50.0 then Amber
    else if score >= 30.0 then Orange
    else Red
  }

  function BandHex(b: Band): string {
    match b
    case Green => "#22c55e"
    case Blue => "#3b82f6"
    case Amber => "#f59e0b"
    case Orange => "#f97316"
    case Red => "#ef4444"
  }

  /** `getScoreColor`. */
  function ScoreColor(score: real): (c: string)
    ensures score >= 90.0 ==> c == "#22c55e"
    ensures 70.0 <= score < 90.0 ==> c == "#3b82f6"
    ensures 50.0 <= score < 70.0 ==> c == "#f59e0b"
    ensures 30.0 <= score < 50.0 ==> c == "#f97316"
    ensures score < 30.0 ==> c == "#ef4444"
  {
    BandHex(ScoreBand(score))
  }

  /** A higher score never lands in a lower band. */
  lemma ScoreBandMonotone(a: real, b: real)
    requires a <= b
    ensures Rank(ScoreBand(a)) <= Rank(ScoreBand(b))
  {
  }

  /** The five colours differ, so the colour tells the band. */
  lemma BandHexInjective(b1: Band, b2: Band)
    ensures BandHex(b1) == BandHex(b2) <==> b1 == b2
  {
    if b1 != b2 {
      var x, y := BandHex(b1), BandHex(b2);
      assert x[1..4] != y[1..4] || x[4..] != y[4..];
    }
  }

  lemma ScoreColorBoundaries()
    ensures ScoreColor(90.0) == "#22c55e" && ScoreColor(70.0) == "#3b82f6"
    ensures ScoreColor(50.0) == "#f59e0b" && ScoreColor(30.0) == "#f97316"
    ensures ScoreColor(29.99) == "#ef4444"
  {
  }

  // ---------------------------------------------------------------------------
  // Zone and health-status badges

  const MutedClass := "bg-muted text-muted-foreground"

  /** The coloured badge classes all follow one pattern around a Tailwind colour name. */
  function ToneClass(tone: string): (c: string)
    ensures |c| == 4 * |tone| + 50
    ensures c[3..3 + |tone|] == tone
  {
    "bg-" + tone + "-500/20 text-" + tone + "-600 dark:text-" + tone + "-400 border-" + tone + "-500/30"
  }

  const GreenClass := ToneClass("green")
  const BlueClass := ToneClass("blue")
  const YellowClass := ToneClass("yellow")
  const OrangeClass := ToneClass("orange")
  const RedClass := ToneClass("red")

  /** Different colour names give different classes, and none of them is the muted default. */
  lemma ToneClassInjective(a: string, b: string)
    ensures ToneClass(a) == ToneClass(b) <==> a == b
    ensures ToneClass(a) != MutedClass
  {
    if ToneClass(a) == ToneClass(b) {
      assert |a| == |b|;
      assert a == ToneClass(a)[3..3 + |a|];
    }
  }

  /** The six badge classes are pairwise different. */
  lemma ClassesDistinct()
    ensures MutedClass != GreenClass && MutedClass != BlueClass && MutedClass != YellowClass
    ensures MutedClass != OrangeClass && MutedClass != RedClass
    ensures GreenClass != BlueClass && GreenClass != YellowClass && GreenClass != OrangeClass && GreenClass != RedClass
    ensures BlueClass != YellowClass && BlueClass != OrangeClass && BlueClass != RedClass
    ensures YellowClass != OrangeClass && YellowClass != RedClass && OrangeClass != RedClass
  {
    var tones := ["green", "blue", "yellow", "orange", "red"];
    forall i, j | 0 <= i < 5 && 0 <= j < 5
      ensures ToneClass(tones[i]) == ToneClass(tones[j]) <==> i == j
      ensures ToneClass(tones[i]) != MutedClass
    {
      ToneClassInjective(tones[i], tones[j]);
    }
  }

  predicate KnownZone(zone: string) {
    zone == "Safe" || zone == "Grey" || zone == "Distress"
  }

  /** `getZoneColor`. */
  function ZoneColor(zone: string): (c: string)
    ensures !KnownZone(zone) ==> c == MutedClass
  {
    if zone == "Safe" then GreenClass
    else if zone == "Grey" then YellowClass
    else if zone == "Distress" then RedClass
    else MutedClass
  }

  /** Each of the three zones has its own class; every other string shares the muted default. */
  lemma ZoneColorInjective(a: string, b: string)
    ensures ZoneColor(a) == ZoneColor(b) <==> a == b || (!KnownZone(a) && !KnownZone(b))
  {
    ClassesDistinct();
  }

  predicate KnownStatus(status: string) {
    status == "Excellent" || status == "Good" || status == "Average" || status == "Poor" || status == "Critical"
  }

  /** `getHealthStatusColor`. */
  function HealthStatusColor(status: string): (c: string)
    ensures !KnownStatus(status) ==> c == MutedClass
  {
    if status == "Excellent" then GreenClass
    else if status == "Good" then BlueClass
    else if status == "Average" then YellowClass
    else if status == "Poor" then OrangeClass
    else if status == "Critical" then RedClass
    else MutedClass
  }

  /** Each of the five statuses has its own class; every other string shares the muted default. */
  lemma HealthStatusColorInjective(a: string, b: string)
    ensures HealthStatusColor(a) == HealthStatusColor(b) <==> a == b || (!KnownStatus(a) && !KnownStatus(b))
  {
    ClassesDistinct();
  }

  // ---------------------------------------------------------------------------
  // Feature-impact bars

  datatype Direction = Positive | Negative

  datatype FeatureImpact = FeatureImpact(
    feature: string, displayName: string, value: real, impact: real, direction: Direction, thresholdContext: string)

  datatype ImpactBar = ImpactBar(name: string, fullName: string, impact: real, value: real, direction: Direction, context: string)

  /** One bar: the display name shortened to 20 characters plus `...` when longer, everything else copied. */
  function ImpactBarOf(f: FeatureImpact): (b: ImpactBar)
    ensures b.fullName == f.displayName
    ensures |f.displayName| <= 20 ==> b.name == f.displayName
    ensures |f.displayName| > 20 ==> b.name == f.displayName[..20] + "..."
    ensures |b.name| <= 23
    ensures b.impact == f.impact && b.value == f.value && b.direction == f.direction && b.context == f.thresholdContext
  {
    ImpactBar(Truncate(f.displayName, 20), f.displayName, f.impact, f.value, f.direction, f.thresholdContext)
  }

  /** `getFeatureImpactChartData`: no bars without impacts, otherwise one bar per impact in the same order. */
  function FeatureImpactChartData(featureImpacts: Option<seq<FeatureImpact>>): (r: seq<ImpactBar>)
    ensures featureImpacts.None? ==> r == []
    ensures featureImpacts.Some? ==> |r| == |featureImpacts.value|
    ensures featureImpacts.Some? ==> forall i :: 0 <= i < |r| ==> r[i] == ImpactBarOf(featureImpacts.value[i])
  {
    match featureImpacts
    case None => []
    case Some(fs) => seq(|fs|, i requires 0 <= i < |fs| => ImpactBarOf(fs[i]))
  }

  // ---------------------------------------------------------------------------
  // Expected z-score change

  /** The change badge: green with an up arrow, or red with a down arrow, and the relative change in percent. */
  datatype ChangeBadge = ChangeBadge(up: bool, percent: Option<real>)

  /**
   * The badge is "up" exactly when the predicted z-score is strictly above
   * the current one, so equal values get the red styling. The percentage is
   * `(next - current) / current * 100`, undefined for a zero current value.
   */
  function ZScoreChange(next: real, current: real): (c: ChangeBadge)
    ensures c.up <==> next > current
    ensures current == 0.0 <==> c.percent.None?
    ensures current != 0.0 ==> c.percent == Some((next - current) / current * 100.0)
  {
    ChangeBadge(next > current, if current == 0.0 then None else Some((next - current) / current * 100.0))
  }

  /** With a positive current z-score the sign of the percentage agrees with the arrow. */
  lemma ChangeSignAgrees(next: real, current: real)
    requires current > 0.0
    ensures ZScoreChange(next, current).up <==> ZScoreChange(next, current).percent.value > 0.0
  {
    var d := next - current;
    if d > 0.0 {
      assert d / current > 0.0;
    } else {
      assert d / current <= 0.0;
    }
  }

  /** With a negative current z-score the arrow and the sign disagree: up from -2 to -1 reads "-50%". */
  lemma ChangeSignDisagreesBelowZero()
    ensures ZScoreChange(-1.0, -2.0).up
    ensures ZScoreChange(-1.0, -2.0).percent == Some(-50.0)
  {
  }

  /**
   * The relative change measured against the magnitude of the current value:
   * the as-written badge for a positive current value, and the same arrow
   * with the percentage's sign flipped for a negative one.
   */
  function ZScoreChangeCorrected(next: real, current: real): (c: ChangeBadge)
    ensures c.up <==> next > current
    ensures current == 0.0 <==> c.percent.None?
    ensures current > 0.0 ==> c == ZScoreChange(next, current)
    ensures current < 0.0 ==> c.percent == Some(-ZScoreChange(next, current).percent.value)
  {
    var magnitude := if current < 0.0 then -current else current;
    assert current < 0.0 ==> (next - current) / (-current) == -((next - current) / current);
    ChangeBadge(next > current, if current == 0.0 then None else Some((next - current) / magnitude * 100.0))
  }

  /** In the corrected badge the sign of the percentage always agrees with the arrow. */
  lemma CorrectedChangeSignAgrees(next: real, current: real)
    requires current != 0.0
    ensures ZScoreChangeCorrected(next, current).up <==> ZScoreChangeCorrected(next, current).percent.value > 0.0
  {
    var magnitude := if current < 0.0 then -current else current;
    var d := next - current;
    if d > 0.0 {
      assert d / magnitude > 0.0;
    } else {
      assert d / magnitude <= 0.0;
    }
  }

  // ---------------------------------------------------------------------------
  // The symbol-analysis guard

  const EmptySymbolMessage := "Please enter a stock symbol"

  /** What `handleSymbolAnalyze` does after its state updates: show an error toast, or start the three fetches. */
  datatype AnalyzeAction = ErrorToast(description: string) | FetchAll(symbol: string)

  /** The page state `handleSymbolAnalyze` reads and writes. */
  class RiskAnalysisPage {
    var symbolInput: string
    /** `inputs.symbol` in the risk store. */
    var inputSymbol: string
    var hasSnapshot: bool
    var hasResults: bool

    constructor ()
      ensures symbolInput == "" && inputSymbol == "" && !hasSnapshot && !hasResults
    {
      symbolInput := "";
      inputSymbol := "";
      hasSnapshot := false;
      hasResults := false;
    }

    /**
     * A blank input raises the error toast and changes nothing. Otherwise the
     * trimmed input becomes the selected symbol, snapshot and results are
     * cleared, and the analysis, history and health-check fetches all get the
     * trimmed symbol, which is never empty.
     */
    method HandleSymbolAnalyze() returns (action: AnalyzeAction)
      modifies this
      ensures IsBlank(old(symbolInput)) ==> action == ErrorToast(EmptySymbolMessage) && unchanged(this)
      ensures !IsBlank(old(symbolInput)) ==>
        && action == FetchAll(Trim(old(symbolInput)))
        && inputSymbol == Trim(old(symbolInput)) && !hasSnapshot && !hasResults
        && symbolInput == old(symbolInput)
      ensures action.FetchAll? ==> action.symbol != "" && !IsSpace(action.symbol[0]) && !IsSpace(action.symbol[|action.symbol| - 1])
    {
      var trimmed := Trim(symbolInput);
      TrimEmptyIffBlank(symbolInput);
      if trimmed == "" {
        return ErrorToast(EmptySymbolMessage);
      }
      TrimEdges(symbolInput);
      assert !IsSpace(trimmed[0]) && !IsSpace(trimmed[|trimmed| - 1]);
      inputSymbol := trimmed;
      hasSnapshot := false;
      hasResults := false;
      return FetchAll(trimmed);
    }
  }
}
