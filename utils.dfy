/**
 * The Colombo Stock Exchange symbol normaliser: `symbol.replace(/\.N\d+$/, '')`
 * turns a listed symbol such as "AAF.N0000" into the backend's "AAF".
 */
module Utils {
  import opened Strings

  /**
   * `s` ends with the exchange suffix and its `.` is at index `i`: `.`, a
   * capital `N`, then one or more ASCII digits running to the end of `s`.
   */
  predicate SuffixAt(s: string, i: int) {
    0 <= i && i + 3 <= |s| && s[i] == '.' && s[i + 1] == 'N' && AllDigits(s[i + 2..])
  }

  /** The length of the longest run of digits that ends `s`. */
  function TrailingDigits(s: string): (n: nat)
    ensures n <= |s|
    ensures AllDigits(s[|s| - n..])
    ensures n < |s| ==> !IsDigit(s[|s| - n - 1])
  {
    if s != [] && IsDigit(s[|s| - 1]) then
      var n := 1 + TrailingDigits(s[..|s| - 1]);
      assert s[|s| - n..] == s[..|s| - 1][|s| - n..] + [s[|s| - 1]];
      n
    else 0
  }

  /** Where the suffix starts, the run of trailing digits is exactly what follows `.N`. */
  lemma TrailingDigitsAtSuffix(s: string, i: int)
    requires SuffixAt(s, i)
    ensures TrailingDigits(s) == |s| - i - 2
  {
  }

  /**
   * The regular-expression replacement. The result is a prefix of the
   * symbol; it is the symbol itself unless the symbol ends with the suffix,
   * and then exactly the part before the suffix's `.` (the suffix can start
   * at one index only, since no `.` follows it).
   */
  function NormalizeSymbol(symbol: string): (r: string)
    ensures |r| <= |symbol| && r == symbol[..|r|]
    ensures r == symbol || SuffixAt(symbol, |r|)
    ensures forall i :: SuffixAt(symbol, i) ==> r == symbol[..i]
  {
    var n := TrailingDigits(symbol);
    var i := |symbol| - n - 2;
    if 1 <= n && 0 <= i && symbol[i] == '.' && symbol[i + 1] == 'N' then
      assert SuffixAt(symbol, i);
      assert forall j :: SuffixAt(symbol, j) ==> j == i by {
        forall j | SuffixAt(symbol, j) ensures j == i {
          TrailingDigitsAtSuffix(symbol, j);
        }
      }
      symbol[..i]
    else
      assert forall j :: !SuffixAt(symbol, j) by {
        forall j | SuffixAt(symbol, j) ensures false {
          TrailingDigitsAtSuffix(symbol, j);
        }
      }
      symbol
  }

  /** The documented examples: the suffix is stripped, a bare code is kept. */
  lemma NormalizeExamples()
    ensures NormalizeSymbol("AAF.N0000") == "AAF"
    ensures NormalizeSymbol("AAF.N12") == "AAF"
    ensures NormalizeSymbol("AAF") == "AAF"
  {
    assert SuffixAt("AAF.N0000", 3);
    assert SuffixAt("AAF.N12", 3);
  }

  /** The suffix must reach the end, the `N` is case-sensitive and at least one digit is needed. */
  lemma NormalizeNearMisses()
    ensures NormalizeSymbol("AAF.N00X") == "AAF.N00X"
    ensures NormalizeSymbol("AAF.n0000") == "AAF.n0000"
    ensures NormalizeSymbol("AAF.N") == "AAF.N"
  {
    var a, b, c := "AAF.N00X", "AAF.n0000", "AAF.N";
    forall i | 0 <= i && i + 3 <= |a| ensures !SuffixAt(a, i) {
      assert a[i + 2..][|a| - i - 3] == 'X';
    }
    forall i | 0 <= i && i + 3 <= |b| && b[i] == '.' ensures b[i + 1] != 'N' {
      assert i == 3;
    }
    forall i | 0 <= i && i + 3 <= |c| ensures c[i] != '.' {
      assert i <= 2;
    }
  }

  /** Only the last suffix goes, so normalising is not idempotent. */
  lemma NormalizeNotIdempotent()
    ensures NormalizeSymbol("A.N1.N2") == "A.N1"
    ensures NormalizeSymbol(NormalizeSymbol("A.N1.N2")) == "A"
  {
    assert SuffixAt("A.N1.N2", 4);
    assert SuffixAt("A.N1", 1);
  }
}
