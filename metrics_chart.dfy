/**
 * The historical metrics chart: the registry of selectable metrics, the
 * selected-metric set and its toggle, the per-metric statistics (min, max,
 * average, latest value and trend) and the display rules for the company
 * badge, the axis ticks and the statistic cards.
 */
module MetricsChart {
  import opened Wrappers
  import opened Strings
  import opened Seqs
  import opened HealthHistory
  import FinancialHealthApi

  // ---------------------------------------------------------------------------
  // The metric registry

  /** A registry entry; `caption` is the source's `label` (a reserved word here). */
  datatype MetricConfig = MetricConfig(key: MetricKey, caption: string, color: string, description: string)

  /** `AVAILABLE_METRICS`: nine of the ten ratios; the next-quarter z-score is not offered. */
  const AvailableMetrics: seq<MetricConfig> := [
    MetricConfig(ZScore, "Z-Score", "#8b5cf6", "Altman Z-Score indicating bankruptcy risk"),
    MetricConfig(WorkingCapitalToTotalAssets, "Working Capital / Total Assets", "#3b82f6", "Liquidity measure"),
    MetricConfig(RetainedEarningsToTotalAssets, "Retained Earnings / Total Assets", "#06b6d4", "Accumulated profitability"),
    MetricConfig(EbitToTotalAssets, "EBIT / Total Assets", "#10b981", "Operating efficiency"),
    MetricConfig(MveToTotalLiabilities, "MVE / Total Liabilities", "#22c55e", "Market value vs liabilities"),
    MetricConfig(SalesToTotalAssets, "Sales / Total Assets", "#eab308", "Asset turnover"),
    MetricConfig(CurrentRatio, "Current Ratio", "#f97316", "Short-term liquidity"),
    MetricConfig(DebtToEquityRatio, "Debt to Equity Ratio", "#ef4444", "Financial leverage"),
    MetricConfig(NetProfitMargin, "Net Profit Margin", "#ec4899", "Profitability percentage")
  ]

  function Keys(ms: seq<MetricConfig>): (ks: seq<MetricKey>)
    ensures |ks| == |ms| && forall i :: 0 <= i < |ms| ==> ks[i] == ms[i].key
  {
    seq(|ms|, i requires 0 <= i < |ms| => ms[i].key)
  }

  /** Each key appears once in the registry, and every key but the next-quarter z-score appears. */
  lemma RegistryKeys()
    ensures |AvailableMetrics| == 9
    ensures forall i, j :: 0 <= i < j < 9 ==> Keys(AvailableMetrics)[i] != Keys(AvailableMetrics)[j]
    ensures forall k :: k in Keys(AvailableMetrics) <==> k != ZScoreNextQuarter
  {
    RegistryKeyList();
    var ks := Keys(AvailableMetrics);
    forall k ensures k in ks <==> k != ZScoreNextQuarter {
      if k != ZScoreNextQuarter {
        assert ks[MetricIndex(k)] == k;
      }
    }
  }

  /** The registry's keys in order. */
  lemma RegistryKeyList()
    ensures Keys(AvailableMetrics) == [ZScore, WorkingCapitalToTotalAssets, RetainedEarningsToTotalAssets,
      EbitToTotalAssets, MveToTotalLiabilities, SalesToTotalAssets, CurrentRatio, DebtToEquityRatio, NetProfitMargin]
  {
  }

  /** Where a key sits in the registry (the next-quarter z-score, which is not there, gets 0). */
  function MetricIndex(k: MetricKey): nat {
    match k
    case ZScore => 0
    case WorkingCapitalToTotalAssets => 1
    case RetainedEarningsToTotalAssets => 2
    case EbitToTotalAssets => 3
    case MveToTotalLiabilities => 4
    case SalesToTotalAssets => 5
    case CurrentRatio => 6
    case DebtToEquityRatio => 7
    case NetProfitMargin => 8
    case ZScoreNextQuarter => 0
  }

  // ---------------------------------------------------------------------------
  // Selection

  /** The toggle: the key flips in or out of the set and every other key stays as it was. */
  function Toggled(selected: set<MetricKey>, key: MetricKey): (r: set<MetricKey>)
    ensures key in r <==> key !in selected
    ensures forall k :: k != key ==> (k in r <==> k in selected)
  {
    if key in selected then selected - {key} else selected + {key}
  }

  /** Toggling a key twice restores the selection. */
  lemma ToggleTwice(selected: set<MetricKey>, key: MetricKey)
    ensures Toggled(Toggled(selected, key), key) == selected
  {
  }

  /** The selected-metric state of the chart. */
  class MetricSelection {
    var selected: set<MetricKey>

    /** The chart starts with only the z-score selected. */
    constructor ()
      ensures selected == {ZScore}
    {
      selected := {ZScore};
    }

    /** `toggleMetric`: copy the set, then delete the key if present or add it if absent. */
    method ToggleMetric(key: MetricKey)
      modifies this
      ensures selected == Toggled(old(selected), key)
    {
      var newSet := selected;
      if key in newSet {
        newSet := newSet - {key};
      } else {
        newSet := newSet + {key};
      }
      selected := newSet;
    }
  }

  /** The `selectedMetricConfigs` memo: exactly the registry entries whose key is selected, in registry order. */
  function SelectedMetricConfigs(selected: set<MetricKey>): (r: seq<MetricConfig>)
    ensures forall m :: m in r <==> m in AvailableMetrics && m.key in selected
    ensures IsSubsequence(r, AvailableMetrics)
  {
    var r := Filter(AvailableMetrics, (m: MetricConfig) => m.key in selected);
    FilterIsSubsequence(AvailableMetrics, (m: MetricConfig) => m.key in selected);
    r
  }

  // ---------------------------------------------------------------------------
  // Statistics

  datatype Trend = Up | Down | Stable

  datatype MetricStats = MetricStats(min: real, max: real, avg: real, latest: real, trend: Trend)

  /** `data.map(d => d[key])`. */
  function Column(data: seq<ChartPoint>, key: MetricKey): (v: seq<real>)
    ensures |v| == |data|
    ensures forall i :: 0 <= i < |data| ==> v[i] == Value(data[i], key)
  {
    seq(|data|, i requires 0 <= i < |data| => Value(data[i], key))
  }

  /** `Math.min(...v)`: a lower bound of `v` that occurs in `v`. */
  function Min(v: seq<real>): (m: real)
    requires |v| > 0
    ensures forall i :: 0 <= i < |v| ==> m <= v[i]
    ensures m in v
  {
    if |v| == 1 then v[0]
    else
      var m := Min(v[..|v| - 1]);
      assert v == v[..|v| - 1] + [v[|v| - 1]];
      if v[|v| - 1] < m then v[|v| - 1] else m
  }

  /** `Math.max(...v)`: an upper bound of `v` that occurs in `v`. */
  function Max(v: seq<real>): (m: real)
    requires |v| > 0
    ensures forall i :: 0 <= i < |v| ==> v[i] <= m
    ensures m in v
  {
    if |v| == 1 then v[0]
    else
      var m := Max(v[..|v| - 1]);
      assert v == v[..|v| - 1] + [v[|v| - 1]];
      if v[|v| - 1] > m then v[|v| - 1] else m
  }

  /** `v.reduce((a, b) => a + b, 0)`. */
  function Sum(v: seq<real>): real {
    if v == [] then 0.0 else Sum(v[..|v| - 1]) + v[|v| - 1]
  }

  /** `n` values all at least `c` sum to at least `n * c`. */
  lemma {:induction false} SumAtLeast(v: seq<real>, c: real)
    requires forall i :: 0 <= i < |v| ==> c <= v[i]
    ensures (|v| as real) * c <= Sum(v)
  {
    if v != [] {
      SumAtLeast(v[..|v| - 1], c);
      Distribute(|v| - 1, c);
    }
  }

  /** `n` values all at most `c` sum to at most `n * c`. */
  lemma {:induction false} SumAtMost(v: seq<real>, c: real)
    requires forall i :: 0 <= i < |v| ==> v[i] <= c
    ensures Sum(v) <= (|v| as real) * c
  {
    if v != [] {
      SumAtMost(v[..|v| - 1], c);
      Distribute(|v| - 1, c);
    }
  }

  lemma Distribute(n: nat, c: real)
    ensures (n as real) * c + c == ((n + 1) as real) * c
  {
  }

  /** Dividing by a positive count keeps a bound that holds for the total. */
  lemma DivideBounds(total: real, n: real, lo: real, hi: real)
    requires n > 0.0 && n * lo <= total <= n * hi
    ensures lo <= total / n <= hi
  {
  }

  /** The mean lies between any lower and upper bound of the values. */
  lemma MeanBetween(v: seq<real>, lo: real, hi: real)
    requires |v| > 0
    requires forall i :: 0 <= i < |v| ==> lo <= v[i] <= hi
    ensures lo <= Sum(v) / (|v| as real) <= hi
  {
    SumAtLeast(v, lo);
    SumAtMost(v, hi);
    DivideBounds(Sum(v), |v| as real, lo, hi);
  }

  /**
   * One metric's statistics: the least, greatest and mean value, the last
   * value, and the trend from the previous value (the last value itself when
   * there is only one).
   */
  function StatsOf(v: seq<real>): (s: MetricStats)
    requires |v| > 0
    ensures (forall i :: 0 <= i < |v| ==> s.min <= v[i] <= s.max) && s.min in v && s.max in v
    ensures s.avg == Sum(v) / (|v| as real)
    ensures s.min <= s.avg <= s.max && s.min <= s.latest <= s.max
    ensures s.latest == v[|v| - 1]
    ensures s.trend == Up <==> |v| > 1 && v[|v| - 1] > v[|v| - 2]
    ensures s.trend == Down <==> |v| > 1 && v[|v| - 1] < v[|v| - 2]
    ensures s.trend == Stable <==> |v| == 1 || v[|v| - 1] == v[|v| - 2]
  {
    var latest := v[|v| - 1];
    var previous := if |v| > 1 then v[|v| - 2] else latest;
    MeanBetween(v, Min(v), Max(v));
    MetricStats(Min(v), Max(v), Sum(v) / (|v| as real), latest,
                if latest > previous then Up else if latest < previous then Down else Stable)
  }

  /**
   * The `statistics` memo: nothing when there is no data or no selected
   * metric; otherwise one entry per selected metric, keyed by the metric,
   * holding the statistics of that metric's column.
   */
  method Statistics(data: seq<ChartPoint>, configs: seq<MetricConfig>) returns (stats: Option<map<MetricKey, MetricStats>>)
    ensures stats.None? <==> data == [] || configs == []
    ensures stats.Some? ==> forall k :: k in stats.value <==> exists i :: 0 <= i < |configs| && configs[i].key == k
    ensures stats.Some? ==> forall k :: k in stats.value ==> stats.value[k] == StatsOf(Column(data, k))
  {
    if |data| == 0 || |configs| == 0 {
      return None;
    }
    var m: map<MetricKey, MetricStats> := map[];
    for i := 0 to |configs|
      invariant forall k :: k in m <==> exists j :: 0 <= j < i && configs[j].key == k
      invariant forall k :: k in m ==> m[k] == StatsOf(Column(data, k))
    {
      var key := configs[i].key;
      var values := Column(data, key);
      m := m[key := StatsOf(values)];
    }
    return Some(m);
  }

  // ---------------------------------------------------------------------------
  // Display rules

  /** The company badge: `companyCode.toUpperCase().replace('_', '.')`. */
  function DisplayCode(code: string): (r: string)
    ensures |r| == |code|
    ensures forall i :: 0 <= i < |code| ==> r[i] == if i == FirstIndex(Upper(code), '_') then '.' else UpperChar(code[i])
  {
    ReplaceFirst(Upper(code), '_', '.')
  }

  /**
   * The badge undoes the history path segment for every code without an
   * `_` or a lower-case letter: the first `.` went to `_` and comes back,
   * and upper-casing restores the letters.
   */
  lemma BadgeRoundTrip(code: string)
    requires '_' !in code
    requires forall i :: 0 <= i < |code| ==> !IsLower(code[i])
    ensures DisplayCode(FinancialHealthApi.HistorySegment(code)) == code
  {
    var seg := FinancialHealthApi.HistorySegment(code);
    var k := FirstIndex(code, '.');
    var up := Upper(seg);
    forall j | 0 <= j < |code| && j != k ensures up[j] == code[j] {
    }
    FirstIndexUnique(up, '_', k);
  }

  /** `"ACL.N0000"` goes to the segment `"acl_n0000"` (`HistorySegmentExample`) and the badge brings it back. */
  lemma BadgeExample()
    ensures DisplayCode(FinancialHealthApi.HistorySegment("ACL.N0000")) == "ACL.N0000"
  {
    BadgeRoundTrip("ACL.N0000");
  }

  /** The x-axis tick: the text after the first space when there is one (the year of a quarter label). */
  function TickLabel(value: string): (r: string)
    ensures ' ' !in r
    ensures ' ' !in value ==> r == value
    ensures ' ' in value ==> var rest := value[FirstIndex(value, ' ') + 1..]; r == rest[..FirstIndex(rest, ' ')]
  {
    var parts := Split(value, ' ');
    if |parts| > 1 then
      var rest := value[FirstIndex(value, ' ') + 1..];
      assert parts == [value[..FirstIndex(value, ' ')]] + Split(rest, ' ');
      assert Split(rest, ' ')[0] == rest[..FirstIndex(rest, ' ')];
      parts[1]
    else value
  }

  /** A quarter label's tick is its year. */
  lemma TickIsYear(d: Date)
    requires ValidDate(d)
    ensures TickLabel(QuarterLabel(d)) == NatToString(d.year)
  {
    var q, y := "Q" + NatToString(QuarterOf(d.month)), NatToString(d.year);
    assert QuarterLabel(d) == Join([q, y], ' ') by {
      assert [q, y][1..] == [y];
    }
    assert ' ' !in q && ' ' !in y;
    SplitJoin([q, y], ' ');
  }

  /** `selectedMetricConfigs.slice(0, 6)`: at most six cards, the first selected metrics. */
  function StatCards(configs: seq<MetricConfig>): (r: seq<MetricConfig>)
    ensures |r| <= 6 && |r| <= |configs| && r == configs[..|r|]
    ensures |configs| <= 6 ==> r == configs
  {
    Take(configs, 6)
  }

  /** A card label: at most 25 characters of the label, followed by `...` when cut. */
  function CardLabel(m: MetricConfig): (r: string)
    ensures |m.caption| <= 25 ==> r == m.caption
    ensures |m.caption| > 25 ==> |r| == 28 && r[..25] == m.caption[..25] && r[25..] == "..."
  {
    Truncate(m.caption, 25)
  }

  lemma CardLabelExamples()
    ensures CardLabel(AvailableMetrics[0]) == "Z-Score"
    ensures CardLabel(AvailableMetrics[2]) == "Retained Earnings / Total..."
  {
    assert |AvailableMetrics[2].caption| == 32;
    assert AvailableMetrics[2].caption[..25] == "Retained Earnings / Total";
  }
}
