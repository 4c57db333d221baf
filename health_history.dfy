/**
 * The company health-history hook: quarter dates written `M/D/YYYY` are
 * parsed and labelled `Q<n> <year>`, each raw record's ten ratio strings
 * become numbers (0 when unparseable), the records are stably sorted into
 * date order for charting, and the hook holds the fetched response, a
 * loading flag and an error message.
 */
module HealthHistory {
  import opened Wrappers
  import opened Strings
  import opened Sorting
  import FinancialHealthApi

  // ---------------------------------------------------------------------------
  // Quarter dates

  /** A calendar date with the full year, as `getFullYear()`, `getMonth() + 1` and `getDate()` report it. */
  datatype Date = Date(year: nat, month: nat, day: nat)

  predicate IsLeapYear(y: nat) {
    (y % 4 == 0 && y % 100 != 0) || y % 400 == 0
  }

  function DaysInMonth(year: nat, month: nat): nat
    requires 1 <= month <= 12
  {
    if month == 2 then (if IsLeapYear(year) then 29 else 28)
    else if month == 4 || month == 6 || month == 9 || month == 11 then 30
    else 31
  }

  predicate ValidDate(d: Date) {
    1 <= d.month <= 12 && 1 <= d.day <= DaysInMonth(d.year, d.month)
  }

  /** `new Date(year, ...)` reads a year from 0 to 99 as 1900 to 1999. */
  function FullYear(y: nat): nat {
    if y <= 99 then 1900 + y else y
  }

  /** `Number(field)` for a field of decimal digits (the empty field is 0); anything else is not modelled. */
  function FieldValue(field: string): Option<nat> {
    if AllDigits(field) then Some(DigitsValue(field)) else None
  }

  /**
   * `parseQuarterDate`: split on `/`, read the first three fields as month,
   * day and year, and build the date. A string without three numeric fields,
   * or whose fields do not name a calendar date, gives `None` (the source
   * would produce an invalid or a normalised `Date`).
   */
  function ParseQuarterDate(s: string): (r: Option<Date>)
    ensures r.Some? ==> ValidDate(r.value)
    ensures r.Some? ==> |Split(s, '/')| >= 3
  {
    var fields := Split(s, '/');
    if |fields| < 3 then None
    else
      var month, day, year := FieldValue(fields[0]), FieldValue(fields[1]), FieldValue(fields[2]);
      if month.None? || day.None? || year.None? then None
      else
        var d := Date(FullYear(year.value), month.value, day.value);
        if ValidDate(d) then Some(d) else None
  }

  /** The fields are read as month, day and year, in that order. */
  lemma {:induction false} ParseFieldOrder(m: string, d: string, y: string)
    requires AllDigits(m) && AllDigits(d) && AllDigits(y)
    ensures var date := Date(FullYear(DigitsValue(y)), DigitsValue(m), DigitsValue(d));
            ParseQuarterDate(m + "/" + d + "/" + y) == if ValidDate(date) then Some(date) else None
  {
    var parts := [m, d, y];
    assert Join(parts, '/') == m + "/" + d + "/" + y by {
      assert parts[1..] == [d, y] && [d, y][1..] == [y];
      assert Join([y], '/') == y;
      assert Join([d, y], '/') == d + "/" + y;
      assert Join(parts, '/') == m + "/" + (d + "/" + y);
    }
    assert forall k :: 0 <= k < 3 ==> AllDigits(parts[k]);
    SplitJoin(parts, '/');
  }

  /** `Math.ceil(month / 3)`: the quarter is 1 to 4 and holds the month. */
  function QuarterOf(month: nat): (q: nat)
    requires 1 <= month <= 12
    ensures 1 <= q <= 4
    ensures 3 * (q - 1) < month <= 3 * q
  {
    (month + 2) / 3
  }

  /**
   * `formatDateForChart`: `Q`, the quarter digit, a space and the full year.
   */
  function QuarterLabel(d: Date): (r: string)
    requires ValidDate(d)
    ensures |r| >= 4 && r[0] == 'Q' && r[1] == DigitChar(QuarterOf(d.month)) && r[2] == ' '
    ensures AllDigits(r[3..]) && DigitsValue(r[3..]) == d.year
    ensures r[3..] == NatToString(d.year) && (r[3] != '0' || d.year == 0)
  {
    var r := "Q" + NatToString(QuarterOf(d.month)) + " " + NatToString(d.year);
    assert r[3..] == NatToString(d.year);
    r
  }

  // ---------------------------------------------------------------------------
  // Raw records and chart points

  /** The ten ratios of a quarterly record. */
  datatype MetricKey =
    | WorkingCapitalToTotalAssets | RetainedEarningsToTotalAssets | EbitToTotalAssets
    | MveToTotalLiabilities | SalesToTotalAssets | CurrentRatio | DebtToEquityRatio
    | NetProfitMargin | ZScore | ZScoreNextQuarter

  /** One quarterly record as the backend sends it: every ratio is a string. */
  datatype HealthRecord = HealthRecord(
    id: string, company: string, quarterDate: string,
    workingCapitalToTotalAssets: string, retainedEarningsToTotalAssets: string,
    ebitToTotalAssets: string, mveToTotalLiabilities: string, salesToTotalAssets: string,
    currentRatio: string, debtToEquityRatio: string, netProfitMargin: string,
    zScore: string, zScoreNextQuarter: string)

  /** One chart point: the quarter label, the date it names and the ten ratios as numbers. */
  datatype ChartPoint = ChartPoint(
    date: string, quarterDate: Date,
    workingCapitalToTotalAssets: real, retainedEarningsToTotalAssets: real,
    ebitToTotalAssets: real, mveToTotalLiabilities: real, salesToTotalAssets: real,
    currentRatio: real, debtToEquityRatio: real, netProfitMargin: real,
    zScore: real, zScoreNextQuarter: real)

  function RawValue(r: HealthRecord, k: MetricKey): string {
    match k
    case WorkingCapitalToTotalAssets => r.workingCapitalToTotalAssets
    case RetainedEarningsToTotalAssets => r.retainedEarningsToTotalAssets
    case EbitToTotalAssets => r.ebitToTotalAssets
    case MveToTotalLiabilities => r.mveToTotalLiabilities
    case SalesToTotalAssets => r.salesToTotalAssets
    case CurrentRatio => r.currentRatio
    case DebtToEquityRatio => r.debtToEquityRatio
    case NetProfitMargin => r.netProfitMargin
    case ZScore => r.zScore
    case ZScoreNextQuarter => r.zScoreNextQuarter
  }

  function Value(p: ChartPoint, k: MetricKey): real {
    match k
    case WorkingCapitalToTotalAssets => p.workingCapitalToTotalAssets
    case RetainedEarningsToTotalAssets => p.retainedEarningsToTotalAssets
    case EbitToTotalAssets => p.ebitToTotalAssets
    case MveToTotalLiabilities => p.mveToTotalLiabilities
    case SalesToTotalAssets => p.salesToTotalAssets
    case CurrentRatio => p.currentRatio
    case DebtToEquityRatio => p.debtToEquityRatio
    case NetProfitMargin => p.netProfitMargin
    case ZScore => p.zScore
    case ZScoreNextQuarter => p.zScoreNextQuarter
  }

  /**
   * `parseFloat(s) || 0`. `parse` stands for `parseFloat` and gives `None`
   * where it would give NaN; a parsed 0 and a failure both end up 0.
   */
  function Coerce(parse: string -> Option<real>, s: string): (v: real)
    ensures parse(s).Some? ==> v == parse(s).value
    ensures parse(s).None? ==> v == 0.0
  {
    parse(s).GetOr(0.0)
  }

  predicate WellDated(records: seq<HealthRecord>) {
    forall i :: 0 <= i < |records| ==> ParseQuarterDate(records[i].quarterDate).Some?
  }

  /** The mapping step of `transformToChartData` for one record. */
  function ToPoint(r: HealthRecord, parse: string -> Option<real>): (p: ChartPoint)
    requires ParseQuarterDate(r.quarterDate).Some?
    ensures p.quarterDate == ParseQuarterDate(r.quarterDate).value
    ensures p.date == QuarterLabel(p.quarterDate)
    ensures forall k :: Value(p, k) == Coerce(parse, RawValue(r, k))
  {
    var d := ParseQuarterDate(r.quarterDate).value;
    ChartPoint(QuarterLabel(d), d,
      Coerce(parse, r.workingCapitalToTotalAssets), Coerce(parse, r.retainedEarningsToTotalAssets),
      Coerce(parse, r.ebitToTotalAssets), Coerce(parse, r.mveToTotalLiabilities),
      Coerce(parse, r.salesToTotalAssets), Coerce(parse, r.currentRatio),
      Coerce(parse, r.debtToEquityRatio), Coerce(parse, r.netProfitMargin),
      Coerce(parse, r.zScore), Coerce(parse, r.zScoreNextQuarter))
  }

  function Points(records: seq<HealthRecord>, parse: string -> Option<real>): (ps: seq<ChartPoint>)
    requires WellDated(records)
    ensures |ps| == |records|
    ensures forall i :: 0 <= i < |records| ==> ps[i] == ToPoint(records[i], parse)
  {
    seq(|records|, i requires 0 <= i < |records| => ToPoint(records[i], parse))
  }

  /** Chronological order of dates: by year, then month, then day. */
  predicate DateLe(a: Date, b: Date) {
    a.year < b.year || (a.year == b.year && (a.month < b.month || (a.month == b.month && a.day <= b.day)))
  }

  /** The comparator `a.quarterDate.getTime() - b.quarterDate.getTime()`: earlier dates first. */
  predicate ChronoLe(a: ChartPoint, b: ChartPoint) {
    DateLe(a.quarterDate, b.quarterDate)
  }

  lemma ChronoLeIsTotalPreorder()
    ensures TotalPreorder(ChronoLe)
  {
  }

  /**
   * `transformToChartData`: every record mapped, then sorted by date. Nothing
   * is dropped or added, the points come out in date order, and points with
   * the same date keep their input order.
   */
  function TransformToChartData(records: seq<HealthRecord>, parse: string -> Option<real>): (r: seq<ChartPoint>)
    requires WellDated(records)
    ensures |r| == |records|
    ensures multiset(r) == multiset(Points(records, parse))
    ensures Sorted(r, ChronoLe)
    ensures forall k :: Block(r, ChronoLe, k) == Block(Points(records, parse), ChronoLe, k)
  {
    var ps := Points(records, parse);
    SortByPermutation(ps, ChronoLe);
    var r := SortBy(ps, ChronoLe);
    ChronoLeIsTotalPreorder();
    SortBySorted(ps, ChronoLe);
    forall k ensures Block(r, ChronoLe, k) == Block(ps, ChronoLe, k) {
      SortByStable(ps, ChronoLe, k);
    }
    r
  }

  // ---------------------------------------------------------------------------
  // A worked example: four quarters given out of order

  /** `M/D/YYYY` text with a four-digit year parses to that date. */
  lemma ParseWritten(m: nat, d: nat, y: nat)
    requires y >= 100 && ValidDate(Date(y, m, d))
    ensures ParseQuarterDate(NatToString(m) + "/" + NatToString(d) + "/" + NatToString(y)) == Some(Date(y, m, d))
  {
    ParseFieldOrder(NatToString(m), NatToString(d), NatToString(y));
  }

  lemma Year2022()
    ensures NatToString(2022) == "2022"
  {
    assert NatToString(20) == "20";
    assert NatToString(202) == "202";
  }

  lemma Year2023()
    ensures NatToString(2023) == "2023"
  {
    assert NatToString(20) == "20";
    assert NatToString(202) == "202";
  }

  lemma LabelExamples()
    ensures QuarterLabel(Date(2022, 1, 1)) == "Q1 2022"
    ensures QuarterLabel(Date(2022, 10, 1)) == "Q4 2022"
    ensures QuarterLabel(Date(2023, 1, 1)) == "Q1 2023"
    ensures QuarterLabel(Date(2023, 4, 1)) == "Q2 2023"
  {
    Year2022();
    Year2023();
  }

  /** Sorting a longer input inserts its last element into the sorted rest. */
  lemma SortBySnoc<T>(s: seq<T>, x: T, le: (T, T) -> bool)
    ensures SortBy(s + [x], le) == Insert(SortBy(s, le), x, le)
  {
    assert (s + [x])[..|s|] == s;
  }

  /** Inserting into one and two elements, for the orderings the example needs. */
  lemma InsertSmall<T>(a: T, b: T, x: T, le: (T, T) -> bool)
    ensures Insert([], x, le) == [x]
    ensures le(a, x) ==> Insert([a], x, le) == [a, x]
    ensures !le(a, x) ==> Insert([a], x, le) == [x, a]
    ensures !le(b, x) && !le(a, x) ==> Insert([a, b], x, le) == [x, a, b]
  {
    assert [a][..0] == [];
    assert [a, b][..1] == [a];
  }

  /** Inserting behind the last of three elements and in front of the other two. */
  lemma InsertSecond<T>(a: T, b: T, c: T, x: T, le: (T, T) -> bool)
    requires !le(c, x) && !le(b, x) && le(a, x)
    ensures Insert([a, b, c], x, le) == [a, x, b, c]
  {
    assert [a, b, c][..2] == [a, b];
    assert [a, b][..1] == [a];
    assert Insert([a], x, le) == [a, x];
    assert Insert([a, b], x, le) == [a, x] + [b];
  }

  /** Four points dated 2023-01, 2023-04, 2022-01, 2022-10 sort into the order 2, 3, 0, 1. */
  lemma SortExample(ps: seq<ChartPoint>)
    requires |ps| == 4
    requires ps[0].quarterDate == Date(2023, 1, 1) && ps[1].quarterDate == Date(2023, 4, 1)
    requires ps[2].quarterDate == Date(2022, 1, 1) && ps[3].quarterDate == Date(2022, 10, 1)
    ensures SortBy(ps, ChronoLe) == [ps[2], ps[3], ps[0], ps[1]]
  {
    var p0, p1, p2, p3 := ps[0], ps[1], ps[2], ps[3];
    assert ps == [p0, p1, p2] + [p3];
    assert [p0, p1, p2] == [p0, p1] + [p2] && [p0, p1] == [p0] + [p1] && [p0] == [] + [p0];
    SortBySnoc([], p0, ChronoLe);
    SortBySnoc([p0], p1, ChronoLe);
    SortBySnoc([p0, p1], p2, ChronoLe);
    SortBySnoc([p0, p1, p2], p3, ChronoLe);
    InsertSmall(p0, p1, p0, ChronoLe);
    InsertSmall(p0, p1, p1, ChronoLe);
    InsertSmall(p0, p1, p2, ChronoLe);
    InsertSecond(p2, p0, p1, p3, ChronoLe);
  }

  /** One record of the example: its point carries the parsed date, its label and the parsed z-score. */
  lemma ExamplePoint(r: HealthRecord, parse: string -> Option<real>, d: Date, z: real)
    requires ParseQuarterDate(r.quarterDate) == Some(d) && parse(r.zScore) == Some(z)
    ensures ToPoint(r, parse).quarterDate == d && ToPoint(r, parse).date == QuarterLabel(d) && ToPoint(r, parse).zScore == z
  {
    assert Value(ToPoint(r, parse), ZScore) == Coerce(parse, RawValue(r, ZScore));
  }

  /**
   * Records whose dates parse as 1/1/2023, 4/1/2023, 1/1/2022 and 10/1/2022
   * and whose z-scores parse as 1.5, 1.8, 1.2 and 1.0 chart as Q1 2022, Q4 2022, Q1 2023, Q2 2023
   * with z-scores 1.2, 1.0, 1.5, 1.8.
   */
  lemma TransformExample(records: seq<HealthRecord>, parse: string -> Option<real>)
    requires |records| == 4
    requires ParseQuarterDate(records[0].quarterDate) == Some(Date(2023, 1, 1))
    requires ParseQuarterDate(records[1].quarterDate) == Some(Date(2023, 4, 1))
    requires ParseQuarterDate(records[2].quarterDate) == Some(Date(2022, 1, 1))
    requires ParseQuarterDate(records[3].quarterDate) == Some(Date(2022, 10, 1))
    requires parse(records[0].zScore) == Some(1.5) && parse(records[1].zScore) == Some(1.8)
    requires parse(records[2].zScore) == Some(1.2) && parse(records[3].zScore) == Some(1.0)
    ensures WellDated(records)
    ensures var out := TransformToChartData(records, parse);
            && |out| == 4
            && [out[0].date, out[1].date, out[2].date, out[3].date] == ["Q1 2022", "Q4 2022", "Q1 2023", "Q2 2023"]
            && [out[0].zScore, out[1].zScore, out[2].zScore, out[3].zScore] == [1.2, 1.0, 1.5, 1.8]
  {
    forall i | 0 <= i < |records| ensures ParseQuarterDate(records[i].quarterDate).Some? {
      assert i == 0 || i == 1 || i == 2 || i == 3;
    }
    var ps := Points(records, parse);
    ExamplePoint(records[0], parse, Date(2023, 1, 1), 1.5);
    ExamplePoint(records[1], parse, Date(2023, 4, 1), 1.8);
    ExamplePoint(records[2], parse, Date(2022, 1, 1), 1.2);
    ExamplePoint(records[3], parse, Date(2022, 10, 1), 1.0);
    SortExample(ps);
    LabelExamples();
  }

  // ---------------------------------------------------------------------------
  // The hook's state

  const NoCodeMessage := "Please provide a company code"

  datatype HistoryResponse = HistoryResponse(companyCode: string, data: seq<HealthRecord>, total: int)

  /** `useCompanyHealthHistory`: the held response, the loading flag and the error message. */
  class CompanyHealthHistory {
    var data: Option<HistoryResponse>
    var loading: bool
    var error: Option<string>

    constructor ()
      ensures data == None && !loading && error == None
    {
      data := None;
      loading := false;
      error := None;
    }

    /** The `chartData` memo: nothing without a response, otherwise the transformed records. */
    function ChartData(parse: string -> Option<real>): (r: seq<ChartPoint>)
      reads this
      requires data.Some? ==> WellDated(data.value.data)
      ensures data.None? ==> r == []
      ensures data.Some? ==> |r| == |data.value.data| && Sorted(r, ChronoLe)
    ensures data.Some? ==> multiset(r) == multiset(Points(data.value.data, parse))
    ensures data.Some? ==> forall k :: Block(r, ChronoLe, k) == Block(Points(data.value.data, parse), ChronoLe, k)
    {
      if data.None? then [] else TransformToChartData(data.value.data, parse)
    }

    /**
     * `fetchHistory(companyCode)` from the call to its settled end. An empty
     * code sets the error and requests nothing. Otherwise the history URL is
     * requested through `fetch`; a resolved call stores the response, a
     * rejected one clears it and keeps the message (or the fixed fallback for
     * a non-`Error` rejection); loading is off afterwards.
     */
    method FetchHistory(companyCode: string, base: string,
                        fetch: string -> Result<FinancialHealthApi.HttpResponse<HistoryResponse>>)
      returns (requested: Option<string>)
      modifies this
      ensures companyCode == "" ==>
        requested == None && error == Some(NoCodeMessage) && data == old(data) && loading == old(loading)
      ensures companyCode != "" ==> requested == Some(FinancialHealthApi.HistoryUrl(base, companyCode)) && !loading
      ensures companyCode != "" ==>
        match FinancialHealthApi.GetCompanyHealthHistory(base, companyCode, fetch)
        case Resolved(v) => data == Some(v) && error == None
        case Threw(m) => data == None && error == Some(m.GetOr(FinancialHealthApi.HistoryFailure))
    {
      if companyCode == "" {
        error := Some(NoCodeMessage);
        return None;
      }
      loading := true;
      error := None;
      requested := Some(FinancialHealthApi.HistoryUrl(base, companyCode));
      var outcome := FinancialHealthApi.GetCompanyHealthHistory(base, companyCode, fetch);
      match outcome {
        case Resolved(v) =>
          data := Some(v);
        case Threw(m) =>
          error := Some(m.GetOr(FinancialHealthApi.HistoryFailure));
          data := None;
      }
      loading := false;
    }

    /** `reset`: back to the initial state. */
    method Reset()
      modifies this
      ensures data == None && !loading && error == None
    {
      data := None;
      loading := false;
      error := None;
    }
  }
}
