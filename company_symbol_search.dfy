/**
 * The company picker: which companies its drop-down lists for the text in
 * the box, and how its handlers open and close the list and call back the
 * page that owns the value.
 */
module CompanySymbolSearch {
  import opened Strings
  import opened Seqs
  import opened CseCompanyData

  /** At most this many search results are listed. */
  const ResultLimit: nat := 10

  /**
   * `filteredCompanies` over a table: the popular companies for a blank
   * value; otherwise the companies matching the untrimmed value, which are
   * the first results of the company search, cut to ten. The list never
   * holds more than ten companies, and all matches show when there are at
   * most ten.
   */
  function FilteredIn(table: seq<CseCompany>, value: string): (r: seq<CseCompany>)
    ensures IsBlank(value) ==> r == PopularIn(table)
    ensures !IsBlank(value) ==> r == Take(SearchIn(table, value), ResultLimit)
    ensures |r| <= ResultLimit
    ensures !IsBlank(value) ==> forall c :: c in r ==> c in table && Matches(c, value)
    ensures !IsBlank(value) && |SearchIn(table, value)| <= ResultLimit ==> r == SearchIn(table, value)
  {
    TrimEmptyIffBlank(value);
    if Trim(value) == [] then PopularIn(table)
    else
      Take(Filter(table, (c: CseCompany) => Matches(c, value)), ResultLimit)
  }

  /**
   * The picker's list over the listed companies: the popular ones for a blank
   * value, otherwise the first matches, never more than the limit.
   */
  function FilteredCompanies(value: string): (r: seq<CseCompany>)
    ensures IsBlank(value) ==> r == GetPopularCompanies()
    ensures !IsBlank(value) ==> r == Take(SearchCompanies(value), ResultLimit)
    ensures |r| <= ResultLimit
    ensures !IsBlank(value) ==> forall c :: c in r ==> c in CseCompanies && Matches(c, value)
  {
    FilteredIn(CseCompanies, value)
  }

  // ---------------------------------------------------------------------------
  // Handlers

  /** A call the picker makes to the owner's callbacks. */
  datatype Callback = OnChange(value: string) | OnSelect(symbol: string) | OnEnter

  /** What a key press does besides changing `open`: the callbacks it makes and whether it stops the default action. */
  datatype KeyDownOutcome = KeyDownOutcome(calls: seq<Callback>, preventDefault: bool)

  /** The picker's own state: whether the drop-down is open. */
  class Picker {
    var open: bool

    constructor ()
      ensures !open
    {
      open := false;
    }

    /** Choosing a company passes its symbol to `onChange` and then to `onSelect`, and closes the list. */
    method HandleSelect(company: CseCompany) returns (calls: seq<Callback>)
      modifies this
      ensures calls == [OnChange(company.symbol), OnSelect(company.symbol)]
      ensures !open
    {
      calls := [OnChange(company.symbol), OnSelect(company.symbol)];
      open := false;
    }

    /**
     * Enter, when the owner passed `onEnter`, stops the default action,
     * closes the list and calls `onEnter`; Escape closes the list; any other
     * key, and Enter without `onEnter`, changes nothing.
     */
    method HandleKeyDown(key: string, hasOnEnter: bool) returns (r: KeyDownOutcome)
      modifies this
      ensures key == "Enter" && hasOnEnter ==> r == KeyDownOutcome([OnEnter], true) && !open
      ensures !(key == "Enter" && hasOnEnter) && key == "Escape" ==> r == KeyDownOutcome([], false) && !open
      ensures !(key == "Enter" && hasOnEnter) && key != "Escape" ==> r == KeyDownOutcome([], false) && open == old(open)
    {
      if key == "Enter" && hasOnEnter {
        open := false;
        r := KeyDownOutcome([OnEnter], true);
      } else if key == "Escape" {
        open := false;
        r := KeyDownOutcome([], false);
      } else {
        r := KeyDownOutcome([], false);
      }
    }

    /** Typing passes the new text to `onChange` and opens the list if it was closed. */
    method HandleInputChange(newValue: string) returns (calls: seq<Callback>)
      modifies this
      ensures calls == [OnChange(newValue)]
      ensures open
    {
      calls := [OnChange(newValue)];
      if !open {
        open := true;
      }
    }

    /** Focus opens the list. */
    method HandleFocus()
      modifies this
      ensures open
    {
      open := true;
    }
  }
}
