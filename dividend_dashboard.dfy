/**
 * The view-model rules of the dividend prediction dashboard: the headline
 * (decision, confidence, probability against the 0.82 threshold), the key
 * factors ranked by the magnitude of their contribution, the financial
 * health scorecard and the strengths/concerns balance.
 */
module PredictionDashboard {
  import opened Wrappers
  import opened Strings
  import opened Sorting
  import opened Seqs

  const GreenColor := "#10b981"
  const RedColor := "#ef4444"

  // ---------------------------------------------------------------------------
  // The payload

  /** A value of the `contributions` object: a number, or anything else. */
  datatype JsValue = Number(x: real) | NonNumber

  /** One `[key, value]` pair of `Object.entries`, in the object's own key order. */
  datatype Entry = Entry(key: string, value: JsValue)

  datatype FeatureContributions = FeatureContributions(contributions: Option<seq<Entry>>)

  datatype InvestorExplanation = InvestorExplanation(strengths: Option<seq<string>>, concerns: Option<seq<string>>)

  datatype Prediction = Prediction(
    probability: Option<real>,
    decision: Option<string>,
    confidence: Option<string>,
    featureContributions: Option<FeatureContributions>,
    investorExplanation: Option<InvestorExplanation>)

  /** `financial_possition`: the four scores, each possibly missing. */
  datatype FinancialPosition = FinancialPosition(
    leverage: Option<real>, liquidity: Option<real>, efficiency: Option<real>, profitability: Option<real>)

  // ---------------------------------------------------------------------------
  // The headline

  const Threshold := 0.82

  datatype Headline = Headline(decision: string, confidence: string, probability: real, willPay: bool, aboveThreshold: bool)

  /**
   * The decision defaults to "Unknown" and the confidence to "Low"; the
   * probability defaults to 0. The dividend is shown as paid exactly when
   * the decision text contains `YES`, and the probability label is green
   * exactly when the probability is strictly above the threshold.
   */
  function HeadlineOf(p: Prediction): (h: Headline)
    ensures h.decision == OrDefault(p.decision, "Unknown")
    ensures h.confidence == OrDefault(p.confidence, "Low")
    ensures h.probability == p.probability.GetOr(0.0)
    ensures h.willPay <==> exists i :: OccursAt(h.decision, "YES", i)
    ensures h.aboveThreshold <==> h.probability > Threshold
  {
    var decision := OrDefault(p.decision, "Unknown");
    var probability := p.probability.GetOr(0.0);
    Headline(decision, OrDefault(p.confidence, "Low"), probability, Contains(decision, "YES"), probability > Threshold)
  }

  /** Without a decision the default "Unknown" does not contain `YES`, so no dividend is shown. */
  lemma MissingDecisionDoesNotPay(p: Prediction)
    requires p.decision.None?
    ensures !HeadlineOf(p).willPay
  {
    var d := HeadlineOf(p).decision;
    assert d == "Unknown";
    forall j | 0 <= j < |d| ensures d[j] != 'Y' {
      assert j == 0 || j == 1 || j == 2 || j == 3 || j == 4 || j == 5 || j == 6;
    }
    MissingCharNoMatch(d, "YES", 0);
  }

  /** Without a probability the label is never green; the threshold itself is not enough. */
  lemma ThresholdIsStrict(p: Prediction)
    ensures p.probability.None? ==> !HeadlineOf(p).aboveThreshold
    ensures p.probability == Some(0.82) ==> !HeadlineOf(p).aboveThreshold
  {
  }

  // ---------------------------------------------------------------------------
  // Key factors

  datatype Factor = Factor(name: string, impact: real)

  /** A non-number contribution counts as an impact of 0. */
  function FactorOf(e: Entry): (f: Factor)
    ensures f.name == e.key
    ensures f.impact == (if e.value.Number? then e.value.x else 0.0)
  {
    Factor(e.key, if e.value.Number? then e.value.x else 0.0)
  }

  function Factors(es: seq<Entry>): (fs: seq<Factor>)
    ensures |fs| == |es|
    ensures forall i :: 0 <= i < |es| ==> fs[i] == FactorOf(es[i])
  {
    seq(|es|, i requires 0 <= i < |es| => FactorOf(es[i]))
  }

  function Magnitude(f: Factor): real {
    if f.impact < 0.0 then -f.impact else f.impact
  }

  /** The comparator `|b.impact| - |a.impact|`: `a` may come first when its magnitude is at least `b`'s. */
  predicate ByMagnitude(a: Factor, b: Factor) {
    Magnitude(a) >= Magnitude(b)
  }

  lemma ByMagnitudeIsTotalPreorder()
    ensures TotalPreorder(ByMagnitude)
  {
  }

  /** `Object.entries(undefined)` throws a `TypeError`. */
  const EntriesOfUndefined := "Cannot convert undefined or null to object"

  function Contributions(p: Prediction): Option<seq<Entry>> {
    match p.featureContributions
    case None => None
    case Some(fc) => fc.contributions
  }

  /**
   * `factorsData`. Missing contributions throw. Otherwise at most ten factors
   * are kept, all of them when there are at most ten; they are taken from
   * the entries, ordered by non-increasing magnitude, no dropped factor is
   * larger than a kept one, and factors of equal magnitude keep their entry
   * order (each block of equal magnitude is a prefix of that block in the
   * entries).
   */
  function FactorsData(contributions: Option<seq<Entry>>): (r: Result<seq<Factor>>)
    ensures contributions.None? <==> r.Failure?
    ensures r.Failure? ==> r.error == EntriesOfUndefined
    ensures r.Success? ==>
      var all := Factors(contributions.value);
      && |r.value| == (if |all| <= 10 then |all| else 10)
      && multiset(r.value) <= multiset(all)
      && (|all| <= 10 ==> multiset(r.value) == multiset(all))
      && Sorted(r.value, ByMagnitude)
      && (forall i, j :: 0 <= i < |r.value| && 0 <= j < |all| && Magnitude(all[j]) > Magnitude(r.value[i]) ==> all[j] in r.value)
      && (forall k :: StartsWithSeq(Block(all, ByMagnitude, k), Block(r.value, ByMagnitude, k)))
  {
    match contributions
    case None => Failure(EntriesOfUndefined)
    case Some(es) =>
      var all := Factors(es);
      var kept := Take(SortBy(all, ByMagnitude), 10);
      SortByPermutation(all, ByMagnitude);
      KeptAreDrawn(all, kept);
      KeptSorted(all, kept);
      KeptDominate(all, kept);
      assert forall k :: StartsWithSeq(Block(all, ByMagnitude, k), Block(kept, ByMagnitude, k)) by {
        forall k ensures StartsWithSeq(Block(all, ByMagnitude, k), Block(kept, ByMagnitude, k)) {
          KeptStable(all, kept, k);
        }
      }
      Success(kept)
  }

  /** `p` is a prefix of `s`. */
  predicate StartsWithSeq<T(==)>(s: seq<T>, p: seq<T>) {
    |p| <= |s| && s[..|p|] == p
  }

  /** The kept factors are drawn from the entries, and all of them are kept when there are at most ten. */
  lemma KeptAreDrawn(all: seq<Factor>, kept: seq<Factor>)
    requires kept == Take(SortBy(all, ByMagnitude), 10)
    ensures multiset(kept) <= multiset(all)
    ensures |all| <= 10 ==> multiset(kept) == multiset(all)
  {
    var sorted := SortBy(all, ByMagnitude);
    SortByPermutation(all, ByMagnitude);
    assert sorted == kept + sorted[|kept|..];
    assert multiset(sorted) == multiset(kept) + multiset(sorted[|kept|..]);
  }

  /** The kept factors come in non-increasing magnitude. */
  lemma KeptSorted(all: seq<Factor>, kept: seq<Factor>)
    requires kept == Take(SortBy(all, ByMagnitude), 10)
    ensures Sorted(kept, ByMagnitude)
  {
    ByMagnitudeIsTotalPreorder();
    SortBySorted(all, ByMagnitude);
  }

  /** An entry of larger magnitude than some kept factor is itself kept. */
  lemma KeptDominate(all: seq<Factor>, kept: seq<Factor>)
    requires kept == Take(SortBy(all, ByMagnitude), 10)
    ensures forall i, j :: 0 <= i < |kept| && 0 <= j < |all| && Magnitude(all[j]) > Magnitude(kept[i]) ==> all[j] in kept
  {
    ByMagnitudeIsTotalPreorder();
    SortByPermutation(all, ByMagnitude);
    SortByPrefixKeepsLeaders(all, ByMagnitude, |kept|);
  }

  /** Factors of equal magnitude keep their entry order: the kept part of each block is a prefix of it. */
  lemma KeptStable(all: seq<Factor>, kept: seq<Factor>, k: Factor)
    requires kept == Take(SortBy(all, ByMagnitude), 10)
    ensures StartsWithSeq(Block(all, ByMagnitude, k), Block(kept, ByMagnitude, k))
  {
    var sorted := SortBy(all, ByMagnitude);
    ByMagnitudeIsTotalPreorder();
    SortByStable(all, ByMagnitude, k);
    assert sorted == kept + sorted[|kept|..];
    BlockAppend(kept, sorted[|kept|..], ByMagnitude, k);
  }

  /** A bar is green exactly when its impact is positive; a zero impact is red. */
  function BarColor(f: Factor): (c: string)
    ensures c == GreenColor <==> f.impact > 0.0
    ensures c == RedColor <==> f.impact <= 0.0
  {
    if f.impact > 0.0 then GreenColor else RedColor
  }

  // ---------------------------------------------------------------------------
  // Financial health scorecard

  datatype ScoreBar = ScoreBar(name: string, score: real, color: string)

  /** A missing score is shown as 0; it is green only when present and strictly above the threshold. */
  function ScoreBarOf(name: string, field: Option<real>, threshold: real): (b: ScoreBar)
    ensures b.name == name
    ensures b.score == field.GetOr(0.0)
    ensures b.color == GreenColor <==> field.Some? && field.value > threshold
    ensures b.color == RedColor <==> !(field.Some? && field.value > threshold)
  {
    ScoreBar(name, field.GetOr(0.0), if field.Some? && field.value > threshold then GreenColor else RedColor)
  }

  /** `financialHealthData`: leverage against 60, the other three against 50, all strict. */
  function FinancialHealthData(score: FinancialPosition): (r: seq<ScoreBar>)
    ensures |r| == 4
    ensures [r[0].name, r[1].name, r[2].name, r[3].name] == ["leverage", "liquidity", "efficiency", "profitability"]
    ensures r[0].color == GreenColor <==> score.leverage.Some? && score.leverage.value > 60.0
    ensures r[1].color == GreenColor <==> score.liquidity.Some? && score.liquidity.value > 50.0
    ensures r[2].color == GreenColor <==> score.efficiency.Some? && score.efficiency.value > 50.0
    ensures r[3].color == GreenColor <==> score.profitability.Some? && score.profitability.value > 50.0
    ensures forall i :: 0 <= i < 4 ==> r[i].color == GreenColor || r[i].color == RedColor
    ensures r[0].score == score.leverage.GetOr(0.0) && r[1].score == score.liquidity.GetOr(0.0)
    ensures r[2].score == score.efficiency.GetOr(0.0) && r[3].score == score.profitability.GetOr(0.0)
  {
    [ ScoreBarOf("leverage", score.leverage, 60.0),
      ScoreBarOf("liquidity", score.liquidity, 50.0),
      ScoreBarOf("efficiency", score.efficiency, 50.0),
      ScoreBarOf("profitability", score.profitability, 50.0) ]
  }

  /** The boundaries themselves are red. */
  lemma ScorecardBoundaries()
    ensures var r := FinancialHealthData(FinancialPosition(Some(60.0), Some(50.0), Some(50.0), Some(50.0)));
            forall i :: 0 <= i < 4 ==> r[i].color == RedColor
  {
  }

  // ---------------------------------------------------------------------------
  // Strengths and concerns

  /** `Math.round`: the nearest integer, halves rounded up. */
  function Round(x: real): (n: int)
    ensures n as real <= x + 0.5 < n as real + 1.0
  {
    (x + 0.5).Floor
  }

  /** `xs?.length || 0`. */
  function Count(xs: Option<seq<string>>): nat {
    if xs.Some? then |xs.value| else 0
  }

  datatype Slice = Slice(name: string, value: nat, percentage: int)

  /** `count / total * 100`, with a total of 0 replaced by 1. */
  function Percentage(count: nat, other: nat): real {
    var total := if count + other == 0 then 1 else count + other;
    (count as real) / (total as real) * 100.0
  }

  /**
   * `riskRewardData`. Without any items both percentages are 0. Otherwise
   * each percentage is the nearest integer to the count's share of the
   * total, lies in 0..100, and the two add up to 100 (or 101 when both
   * shares end in exactly one half, as 12.5 and 87.5 do).
   */
  function RiskRewardData(explanation: InvestorExplanation): (r: seq<Slice>)
    ensures |r| == 2 && r[0].name == "Strengths" && r[1].name == "Concerns"
    ensures r[0].value == Count(explanation.strengths) && r[1].value == Count(explanation.concerns)
    ensures r[0].value + r[1].value == 0 ==> r[0].percentage == 0 && r[1].percentage == 0
    ensures 0 <= r[0].percentage <= 100 && 0 <= r[1].percentage <= 100
    ensures r[0].value + r[1].value > 0 ==>
      && r[0].percentage as real <= (r[0].value as real) / ((r[0].value + r[1].value) as real) * 100.0 + 0.5
      && (r[0].value as real) / ((r[0].value + r[1].value) as real) * 100.0 - 0.5 < r[0].percentage as real
      && (r[0].percentage + r[1].percentage == 100 || r[0].percentage + r[1].percentage == 101)
    ensures r[0].value + r[1].value > 0 ==>
      && r[1].percentage as real <= (r[1].value as real) / ((r[0].value + r[1].value) as real) * 100.0 + 0.5
      && (r[1].value as real) / ((r[0].value + r[1].value) as real) * 100.0 - 0.5 < r[1].percentage as real
    ensures r[0].percentage == Round(Percentage(r[0].value, r[1].value)) && r[1].percentage == Round(Percentage(r[1].value, r[0].value))
  {
    var s, c := Count(explanation.strengths), Count(explanation.concerns);
    ShareBounds(s, c);
    ShareBounds(c, s);
    SharesRoundSum(s, c);
    [Slice("Strengths", s, Round(Percentage(s, c))), Slice("Concerns", c, Round(Percentage(c, s)))]
  }

  lemma ShareBounds(count: nat, other: nat)
    ensures count + other == 0 ==> Percentage(count, other) == 0.0
    ensures 0.0 <= Percentage(count, other) <= 100.0
  {
    var total := if count + other == 0 then 1 else count + other;
    assert (count as real) <= (total as real);
    assert (count as real) / (total as real) <= 1.0;
  }

  lemma SharesAddUp(s: nat, c: nat)
    requires s + c > 0
    ensures Percentage(s, c) + Percentage(c, s) == 100.0
  {
    var t := (s + c) as real;
    assert (s as real) / t + (c as real) / t == 1.0;
  }

  lemma SharesRoundSum(s: nat, c: nat)
    ensures s + c > 0 ==> Round(Percentage(s, c)) + Round(Percentage(c, s)) in {100, 101}
  {
    if s + c > 0 {
      SharesAddUp(s, c);
      RoundSum(Percentage(s, c), Percentage(c, s));
    }
  }

  /** Two shares of 100 round to 100 together, or to 101 when both fall exactly on a half. */
  lemma RoundSum(a: real, b: real)
    requires a + b == 100.0
    ensures Round(a) + Round(b) == 100 || Round(a) + Round(b) == 101
  {
  }

  /** One strength and seven concerns: 12.5 and 87.5 round to 13 and 88. */
  lemma RoundingOvershoot()
    ensures var r := RiskRewardData(InvestorExplanation(Some(["s"]), Some(["c", "c", "c", "c", "c", "c", "c"])));
            r[0].percentage == 13 && r[1].percentage == 88
  {
    assert Percentage(1, 7) == 12.5;
    assert Percentage(7, 1) == 87.5;
  }
}
