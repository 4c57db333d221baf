/**
 * The request side of the financial-health service client: the path segment
 * a company code becomes, the three endpoint URLs, and how a non-OK response
 * turns into an error message. The network call itself is not modelled; a
 * response is a value handed to `Settle`.
 */
module FinancialHealthApi {
  import opened Wrappers
  import opened Strings

  const HistoryPath := "/api/v1/financial-health/company/"
  const AnalyzePath := "/api/v1/financial-health/analyze-cse/"
  const ReportPath := "/api/v1/financial-health/report-health-check/"

  const HistoryFailure := "Failed to fetch company health history"
  const AnalyzeFailure := "Failed to analyze financial health"
  const ReportFailure := "Failed to fetch report health check"

  /** `LowerChar` leaves a character that is not a letter alone and never produces one from a letter. */
  lemma FirstIndexOfLower(s: string, c: char)
    requires !IsUpper(c) && !IsLower(c)
    ensures FirstIndex(Lower(s), c) == FirstIndex(s, c)
  {
    FirstIndexUnique(Lower(s), c, FirstIndex(s, c));
  }

  /**
   * `companyCode.toLowerCase().replace('.', '_')`: every character lower-cased,
   * and the code's first `.` (only that one) becomes `_`.
   */
  function HistorySegment(code: string): (r: string)
    ensures |r| == |code|
    ensures forall i :: 0 <= i < |code| ==> r[i] == if i == FirstIndex(code, '.') then '_' else LowerChar(code[i])
  {
    FirstIndexOfLower(code, '.');
    ReplaceFirst(Lower(code), '.', '_')
  }

  /** Only the first `.` is replaced. */
  lemma HistorySegmentFirstDotOnly()
    ensures HistorySegment("A.B.C") == "a_b.c"
  {
    FirstIndexUnique("A.B.C", '.', 1);
    var r := HistorySegment("A.B.C");
    assert r[0] == 'a' && r[1] == '_' && r[2] == 'b' && r[3] == '.' && r[4] == 'c';
  }

  /** Lower-casing works piece by piece. */
  lemma LowerAppend(x: string, y: string)
    ensures Lower(x + y) == Lower(x) + Lower(y)
  {
    assert forall i :: 0 <= i < |x| ==> (x + y)[i] == x[i];
    assert forall i :: |x| <= i < |x| + |y| ==> (x + y)[i] == y[i - |x|];
  }

  /** Replacing the first `from` when it follows a piece free of `from`. */
  lemma ReplaceFirstAfter(x: string, y: string, from: char, to: char)
    requires from !in x
    ensures ReplaceFirst(x + [from] + y, from, to) == x + [to] + y
  {
    var s := x + [from] + y;
    assert forall j :: 0 <= j < |x| ==> s[j] == x[j];
    FirstIndexUnique(s, from, |x|);
    assert s[..|x|] == x && s[|x| + 1..] == y;
  }

  /** A code `a.b` whose first `.` ends `a` becomes lower-case `a`, `_`, lower-case `b`. */
  lemma HistorySegmentAt(a: string, b: string)
    requires '.' !in a
    ensures HistorySegment(a + "." + b) == Lower(a) + "_" + Lower(b)
  {
    LowerAppend(a + ".", b);
    LowerAppend(a, ".");
    assert Lower(".") == ".";
    assert forall j :: 0 <= j < |a| ==> Lower(a)[j] != '.';
    ReplaceFirstAfter(Lower(a), Lower(b), '.', '_');
  }

  lemma HistorySegmentExample()
    ensures HistorySegment("ACL.N0000") == "acl_n0000"
  {
    HistorySegmentAt("ACL", "N0000");
    assert "ACL" + "." + "N0000" == "ACL.N0000";
    LowerExample();
  }

  lemma LowerExample()
    ensures Lower("ACL") + "_" + Lower("N0000") == "acl_n0000"
  {
    var l, m := Lower("ACL"), Lower("N0000");
    assert l[0] == 'a' && l[1] == 'c' && l[2] == 'l';
    assert m[0] == 'n' && m[1] == '0' && m[2] == '0' && m[3] == '0' && m[4] == '0';
    assert l == "acl" && m == "n0000";
  }

  /**
   * The history URL: the base, the fixed path, the encoded segment and `/all`;
   * the segment holds no `/`, so it is one path segment.
   */
  function HistoryUrl(base: string, code: string): (r: string)
    ensures var head := base + HistoryPath;
            && |r| >= |head| + 4 && r[..|head|] == head && r[|r| - 4..] == "/all"
            && r[|head|..|r| - 4] == EncodeUriComponent(HistorySegment(code))
            && '/' !in r[|head|..|r| - 4]
  {
    base + HistoryPath + EncodeUriComponent(HistorySegment(code)) + "/all"
  }

  /** The analysis URL: the base, the fixed path, then the encoded symbol as one path segment. */
  function AnalyzeUrl(base: string, symbol: string): (r: string)
    ensures var head := base + AnalyzePath;
            && |r| >= |head| && r[..|head|] == head
            && r[|head|..] == EncodeUriComponent(symbol) && '/' !in r[|head|..]
  {
    base + AnalyzePath + EncodeUriComponent(symbol)
  }

  /** The report URL: the base, the fixed path, then the encoded symbol as one path segment. */
  function ReportUrl(base: string, symbol: string): (r: string)
    ensures var head := base + ReportPath;
            && |r| >= |head| && r[..|head|] == head
            && r[|head|..] == EncodeUriComponent(symbol) && '/' !in r[|head|..]
  {
    base + ReportPath + EncodeUriComponent(symbol)
  }

  /** The characters exchange codes are written in: ASCII letters, digits, `.` and `_`. */
  predicate CodeChar(c: char) {
    IsUpper(c) || IsLower(c) || IsDigit(c) || c == '.' || c == '_'
  }

  /**
   * For a code written in `CodeChar`s the encoding step is the identity, so
   * the history URL carries the segment verbatim between the fixed path and `/all`.
   */
  lemma HistoryUrlPlain(base: string, code: string)
    requires forall i :: 0 <= i < |code| ==> CodeChar(code[i])
    ensures HistoryUrl(base, code) == base + HistoryPath + HistorySegment(code) + "/all"
  {
    var seg := HistorySegment(code);
    assert forall i :: 0 <= i < |seg| ==> IsUriUnreserved(seg[i]);
    EncodeUnreservedIdentity(seg);
  }

  /** The analysis and report URLs end in the symbol exactly as given: no case change, no replacement. */
  lemma SymbolUrlsPlain(base: string, symbol: string)
    requires forall i :: 0 <= i < |symbol| ==> CodeChar(symbol[i])
    ensures AnalyzeUrl(base, symbol) == base + AnalyzePath + symbol
    ensures ReportUrl(base, symbol) == base + ReportPath + symbol
  {
    EncodeUnreservedIdentity(symbol);
  }

  /** Whatever the code, the encoded segment holds no `/`, so it stays one path segment. */
  lemma HistorySegmentIsOnePathSegment(code: string)
    ensures '/' !in EncodeUriComponent(HistorySegment(code))
  {
  }

  /** What the client sees of a response: status line, the `message` of an error body (if any), and the body. */
  datatype HttpResponse<+T> = HttpResponse(status: nat, statusText: string, errorMessage: Option<string>, body: T)

  /** `response.ok`. */
  predicate IsOk(status: nat) { 200 <= status <= 299 }

  /** `errorData.message || \`${prefix}: ${status} ${statusText}\``: an empty message counts as missing. */
  function FailureMessage(prefix: string, status: nat, statusText: string, message: Option<string>): (r: string)
    ensures message.Some? && message.value != "" ==> r == message.value
    ensures message.None? || message.value == "" ==>
              && |r| > |prefix| + |statusText| + 3 && r[..|prefix|] == prefix && r[|prefix|..|prefix| + 2] == ": "
              && r[|r| - |statusText|..] == statusText && r[|r| - |statusText| - 1] == ' '
              && AllDigits(r[|prefix| + 2..|r| - |statusText| - 1])
              && DigitsValue(r[|prefix| + 2..|r| - |statusText| - 1]) == status
  {
    if message.Some? && message.value != "" then message.value
    else
      var r := prefix + ": " + NatToString(status) + " " + statusText;
      assert r[..|prefix|] == prefix && r[|prefix|..|prefix| + 2] == ": ";
      assert r[|r| - |statusText|..] == statusText;
      assert r[|prefix| + 2..|r| - |statusText| - 1] == NatToString(status);
      r
  }

  /**
   * The post-response logic shared by the three calls: an OK response yields
   * its body; any other throws with the body's message or the call's fixed
   * prefix followed by the status line.
   */
  function Settle<T>(prefix: string, resp: HttpResponse<T>): (r: Result<T>)
    ensures r.Success? <==> IsOk(resp.status)
    ensures r.Success? ==> r.value == resp.body
    ensures r.Failure? && resp.errorMessage.Some? && resp.errorMessage.value != "" ==> r.error == resp.errorMessage.value
    ensures r.Failure? && (resp.errorMessage.None? || resp.errorMessage.value == "") ==>
              r.error == prefix + ": " + NatToString(resp.status) + " " + resp.statusText
  {
    if IsOk(resp.status) then Success(resp.body)
    else Failure(FailureMessage(prefix, resp.status, resp.statusText, resp.errorMessage))
  }

  /** The fallback message starts with the call's prefix and so tells the three calls apart. */
  lemma FallbackNamesTheCall<T>(resp: HttpResponse<T>)
    requires !IsOk(resp.status) && resp.errorMessage.None?
    ensures StartsWith(Settle(HistoryFailure, resp).error, HistoryFailure)
    ensures StartsWith(Settle(AnalyzeFailure, resp).error, AnalyzeFailure)
    ensures StartsWith(Settle(ReportFailure, resp).error, ReportFailure)
  {
  }

  /**
   * `getCompanyHealthHistory(companyCode)` with the network as a parameter:
   * `fetch(url)` either fails with an `Error` (rethrown as it is) or yields a
   * response, which `Settle` turns into the data or an `Error`.
   */
  function GetCompanyHealthHistory<T>(base: string, code: string, fetch: string -> Result<HttpResponse<T>>): (r: Outcome<T>)
    ensures r.Threw? ==> r.message.Some?
    ensures r.Resolved? <==> fetch(HistoryUrl(base, code)).Success? && IsOk(fetch(HistoryUrl(base, code)).value.status)
    ensures r.Resolved? ==> r.value == fetch(HistoryUrl(base, code)).value.body
    ensures fetch(HistoryUrl(base, code)).Failure? ==> r == Threw(Some(fetch(HistoryUrl(base, code)).error))
    ensures fetch(HistoryUrl(base, code)).Success? && !IsOk(fetch(HistoryUrl(base, code)).value.status) ==>
              r == Threw(Some(Settle(HistoryFailure, fetch(HistoryUrl(base, code)).value).error))
  {
    match fetch(HistoryUrl(base, code))
    case Failure(m) => Threw(Some(m))
    case Success(resp) => ToOutcome(Settle(HistoryFailure, resp))
  }
}
