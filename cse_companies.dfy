/**
 * The table of companies listed on the Colombo Stock Exchange, its
 * invariants, the case-insensitive company search and the list of popular
 * companies shown when the search box is empty.
 */
module CseCompanyData {
  import opened Wrappers
  import opened Strings
  import opened Seqs
  import opened Utils

  datatype CseCompany = CseCompany(name: string, symbol: string)

  /** The main-board suffix every symbol of the table carries. */
  const MainBoardSuffix: string := ".N0000"

  /**
   * One row of the table as transcribed here: the company name and the
   * trading code, i.e. the symbol without its `.N0000` suffix.
   */
  datatype Listing = Listing(name: string, code: string)

  function Company(l: Listing): CseCompany {
    CseCompany(l.name, l.code + MainBoardSuffix)
  }

  /** `symbol` ends with `.N0000`. */
  predicate OnMainBoard(symbol: string) {
    |symbol| >= 6 && symbol[|symbol| - 6..] == MainBoardSuffix
  }

  // ---------------------------------------------------------------------------
  // `CSE_COMPANIES`, in runs of at most ten rows under each letter heading of the table

  const ListingsA1: seq<Listing> := [
    Listing("Abans Electricals", "ABAN"),
    Listing("Abans Finance", "AFSL"),
    Listing("Access Engineering", "AEL"),
    Listing("ACL Cables", "ACL"),
    Listing("ACL Plastics", "APLA"),
    Listing("ACME Printing & Packaging", "ACME"),
    Listing("Agalawatte Plantations", "AGAL"),
    Listing("Agarapatana Plantations", "AGPL"),
    Listing("Agstar", "AGST"),
    Listing("Aitken Spence Hotel Holdings", "AHUN")
  ]

  const ListingsA2: seq<Listing> := [
    Listing("Aitken Spence Plantation Managements", "ASPM"),
    Listing("Aitken Spence", "SPEN"),
    Listing("Alliance Finance Company", "ALLI"),
    Listing("Alpha Fire Services", "AFS"),
    Listing("Alumex", "ALUM"),
    Listing("Amana Bank", "ABL"),
    Listing("Amana Takaful", "ATL"),
    Listing("Amana Takaful Life", "ATLL"),
    Listing("Ambeon Capital", "TAP"),
    Listing("Ambeon Holdings", "GREG")
  ]

  const ListingsA3: seq<Listing> := [
    Listing("AMW Capital Leasing & Finance", "AMCL"),
    Listing("Arpico Insurance", "AINS"),
    Listing("Asia Asset Finance", "AAF"),
    Listing("Asia Capital", "ACAP"),
    Listing("Asia Siyaka Commodities", "ASIY"),
    Listing("Asian Hotels & Properties", "AHPL"),
    Listing("Asiri Hospital Holdings", "ASIR"),
    Listing("Asiri Surgical Hospital", "AMSL"),
    Listing("Associated Motor Finance Company", "AMF")
  ]

  const ListingsB1: seq<Listing> := [
    Listing("B P P L Holdings", "BPPL"),
    Listing("Bairaha Farms", "BFL"),
    Listing("Balangoda Plantations", "BALA"),
    Listing("Bansei Royal Resorts Hikkaduwa", "BRR"),
    Listing("Beruwala Resorts", "BERU"),
    Listing("Blue Diamonds Jewellery Worldwide", "BLUE"),
    Listing("Bogala Graphite Lanka", "BOGA"),
    Listing("Bogawantalawa Tea Estates", "BOPL"),
    Listing("Brown and Company", "BRWN"),
    Listing("Browns Beach Hotels", "BBH")
  ]

  const ListingsB2: seq<Listing> := [
    Listing("Browns Investments", "BIL"),
    Listing("Bukit Darah", "BUKI")
  ]

  const ListingsC1: seq<Listing> := [
    Listing("C M Holdings", "COLO"),
    Listing("C T Holdings", "CTHR"),
    Listing("C T Land Development", "CTLD"),
    Listing("C. W. Mackie", "CWM"),
    Listing("Capital Alliance", "CALT"),
    Listing("Cargills (Ceylon)", "CARG"),
    Listing("Cargills Bank", "CBNK"),
    Listing("Cargo Boat Development Company", "CABO"),
    Listing("Carson Cumberbatch", "CARS"),
    Listing("Central Finance Company", "CFIN")
  ]

  const ListingsC2: seq<Listing> := [
    Listing("Central Industries", "CIND"),
    Listing("Ceylinco Insurance", "CINS"),
    Listing("Ceylon Beverage Holdings", "BREW"),
    Listing("Ceylon Cold Stores", "CCS"),
    Listing("Ceylon Grain Elevators", "GRAN"),
    Listing("Ceylon Guardian Investment Trust", "GUAR"),
    Listing("Ceylon Hospitals", "CHL"),
    Listing("Ceylon Hotels Corporation", "CHOT"),
    Listing("Ceylon Investment", "CINV"),
    Listing("Ceylon Printers", "CPRT")
  ]

  const ListingsC3: seq<Listing> := [
    Listing("Ceylon Tea Brokers", "CTBL"),
    Listing("Ceylon Tobacco Company", "CTC"),
    Listing("Chemanex", "CHMX"),
    Listing("Chevron Lubricants Lanka", "LLUB"),
    Listing("Chrissworld", "CWL"),
    Listing("CIC Holdings", "CIC"),
    Listing("Citizens Development Business Finance", "CDB"),
    Listing("Citrus Leisure", "REEF"),
    Listing("Co-Operative Insurance Company", "COOP"),
    Listing("Colombo City Holdings", "PHAR")
  ]

  const ListingsC4: seq<Listing> := [
    Listing("Colombo Dockyard", "DOCK"),
    Listing("Colombo Fort Investments", "CFI"),
    Listing("Colombo Investment Trust", "CIT"),
    Listing("Colombo Land and Development Company", "CLND"),
    Listing("Commercial Bank of Ceylon", "COMB"),
    Listing("Commercial Credit & Finance", "COCR"),
    Listing("Commercial Development Company", "COMD"),
    Listing("Convenience Foods (Lanka)", "SOY")
  ]

  const ListingsD: seq<Listing> := [
    Listing("Dankotuwa Porcelain", "DPL"),
    Listing("DFCC Bank", "DFCC"),
    Listing("Dialog Axiata", "DIAL"),
    Listing("Dialog Finance", "CALF"),
    Listing("Diesel & Motor Engineering", "DIMO"),
    Listing("Digital Mobility Solutions Lanka", "PKME"),
    Listing("Dilmah Ceylon Tea Company", "CTEA"),
    Listing("Dipped Products", "DIPD"),
    Listing("Distilleries Company of Sri Lanka", "DIST"),
    Listing("Dolphin Hotels", "STAF")
  ]

  const ListingsE1: seq<Listing> := [
    Listing("E. B. Creasy & Company", "EBCR"),
    Listing("E M L Consultants", "EML"),
    Listing("E-Channelling", "ECL"),
    Listing("East West Properties", "EAST"),
    Listing("Eastern Merchants", "EMER"),
    Listing("Eden Hotel Lanka", "EDEN"),
    Listing("Elpitiya Plantations", "ELPL"),
    Listing("Equity Two", "ETWO"),
    Listing("Ex-pack Corrugated Cartons", "PACK"),
    Listing("Expolanka Holdings", "EXPO")
  ]

  const ListingsE2: seq<Listing> := [
    Listing("Exterminators", "EXT")
  ]

  const ListingsF: seq<Listing> := [
    Listing("First Capital Holdings", "CFVF"),
    Listing("First Capital Treasuries", "FCT")
  ]

  const ListingsG: seq<Listing> := [
    Listing("Galadari Hotels (Lanka)", "GHLL"),
    Listing("Galle Face Capital Partners", "WAPO"),
    Listing("Gestetner of Ceylon", "GEST"),
    Listing("Greentech Energy", "MEL")
  ]

  const ListingsH1: seq<Listing> := [
    Listing("Hapugastenne Plantations", "HAPU"),
    Listing("Harischandra Mills", "HARI"),
    Listing("Hatton National Bank", "HNB"),
    Listing("Hatton Plantations", "HPL"),
    Listing("Haycarb", "HAYC"),
    Listing("Hayleys Fabric", "MGT"),
    Listing("Hayleys Fibre", "HEXP"),
    Listing("Hayleys Leisure", "CONN"),
    Listing("Hayleys", "HAYL"),
    Listing("Hela Apparel Holdings", "HELA")
  ]

  const ListingsH2: seq<Listing> := [
    Listing("Hemas Holdings", "HHL"),
    Listing("Hikkaduwa Beach Resort", "CITH"),
    Listing("HNB Assurance", "HASU"),
    Listing("HNB Finance", "HNBF"),
    Listing("Horana Plantations", "HOPL"),
    Listing("Hotel Sigiriya", "HSIG"),
    Listing("HDFC Bank of Sri Lanka", "HDFC"),
    Listing("hSenid Business Solutions", "HBS"),
    Listing("Hunas Holdings", "HUNA"),
    Listing("Hunters & Company", "HUNT")
  ]

  const ListingsH3: seq<Listing> := [
    Listing("HVA Foods", "HVA")
  ]

  const ListingsI: seq<Listing> := [
    Listing("Industrial Asphalts (Lanka)", "ASPH")
  ]

  const ListingsJ: seq<Listing> := [
    Listing("Janashakthi Insurance", "JINS"),
    Listing("JAT Holdings", "JAT"),
    Listing("Jetwing Symphony", "JETS"),
    Listing("John Keells Holdings", "JKH"),
    Listing("John Keells Hotels", "KHL"),
    Listing("John Keells", "JKL")
  ]

  const ListingsK: seq<Listing> := [
    Listing("Kahawatte Plantations", "KAHA"),
    Listing("Kapruka Holdings", "KPHL"),
    Listing("Keells Food Products", "KFP"),
    Listing("Kegalle Plantations", "KGAL"),
    Listing("Kelani Cables", "KCAB"),
    Listing("Kelani Tyres", "TYRE"),
    Listing("Kelani Valley Plantations", "KVAL"),
    Listing("Kelsey Developments", "KDL"),
    Listing("Kotagala Plantations", "KOTA"),
    Listing("Kotmale Holdings", "LAMB")
  ]

  const ListingsL1: seq<Listing> := [
    Listing("LB Finance", "LFIN"),
    Listing("Lake House Printers & Publishers", "LPRT"),
    Listing("Lanka Aluminium Industries", "LALU"),
    Listing("Lanka Ashok Leyland", "ASHO"),
    Listing("Lanka Ceramic", "CERA"),
    Listing("Lanka Credit & Business Finance", "LCBF"),
    Listing("Lanka IOC", "LIOC"),
    Listing("Lanka Milk Foods (CWE)", "LMF"),
    Listing("Lanka Realty Investments", "ASCO"),
    Listing("Lanka Tiles", "TILE")
  ]

  const ListingsL2: seq<Listing> := [
    Listing("Lanka Ventures", "LVEN"),
    Listing("Lanka Walltiles", "LWL"),
    Listing("Lankem Ceylon", "LCEY"),
    Listing("Lankem Developments", "LDEV"),
    Listing("LAUGFS Gas", "LGL"),
    Listing("LAUGFS Power", "LPL"),
    Listing("Laxapana Batteries", "LITE"),
    Listing("Lee Hedges", "SHAW"),
    Listing("Lion Brewery Ceylon", "LION"),
    Listing("LOLC Finance", "LOFC")
  ]

  const ListingsL3: seq<Listing> := [
    Listing("LOLC General Insurance", "LGIL"),
    Listing("LOLC Holdings", "LOLC"),
    Listing("Lotus Hydro Power", "HPFL"),
    Listing("Luminex", "LUMX"),
    Listing("LVL Energy Fund", "LVEF")
  ]

  const ListingsM1: seq<Listing> := [
    Listing("Madulsima Plantations", "MADU"),
    Listing("Maharaja Foods", "MFPE"),
    Listing("Mahaweli Coconut Plantations", "MCPL"),
    Listing("Mahaweli Reach Hotels", "MRH"),
    Listing("Malwatte Valley Plantations", "MAL"),
    Listing("Marawila Resorts", "MARA"),
    Listing("Maskeliya Plantations", "MASK"),
    Listing("Melstacorp", "MELS"),
    Listing("Mercantile Investments and Finance", "MERC"),
    Listing("Mercantile Shipping Company", "MSL")
  ]

  const ListingsM2: seq<Listing> := [
    Listing("Merchant Bank of Sri Lanka & Finance", "MBSL"),
    Listing("Millennium Housing Developers", "MHDL"),
    Listing("Muller & Phipps (Ceylon)", "MULL"),
    Listing("Multi Finance", "MFL"),
    Listing("Myland Development", "MDL")
  ]

  const ListingsN: seq<Listing> := [
    Listing("Namunukula Plantations", "NAMU"),
    Listing("Nation Lanka Finance", "CSF"),
    Listing("National Development Bank", "NDB"),
    Listing("Nations Trust Bank", "NTB"),
    Listing("Nawaloka Hospitals", "NHL")
  ]

  const ListingsO: seq<Listing> := [
    Listing("Odel", "ODEL"),
    Listing("Office Equipment", "OFEQ"),
    Listing("On'ally Holdings", "ONAL"),
    Listing("Orient Finance", "BFN"),
    Listing("Overseas Realty (Ceylon)", "OSEA")
  ]

  const ListingsP1: seq<Listing> := [
    Listing("Palm Garden Hotels", "PALM"),
    Listing("Pan Asia Banking Corporation", "PABC"),
    Listing("Panasian Power", "PAP"),
    Listing("Paragon Ceylon", "PARA"),
    Listing("Pegasus Hotels of Ceylon", "PEG"),
    Listing("People's Insurance", "PINS"),
    Listing("People's Leasing & Finance", "PLC"),
    Listing("PGP Glass Ceylon", "GLAS"),
    Listing("PMF Finance", "PMB"),
    Listing("Prime Lands Residencies", "PLR")
  ]

  const ListingsP2: seq<Listing> := [
    Listing("Printcare", "CARE")
  ]

  const ListingsR1: seq<Listing> := [
    Listing("R I L Property", "RIL"),
    Listing("Radiant Gems International", "RGEM"),
    Listing("Raigam Wayamba Salterns", "RWSL"),
    Listing("Ramboda Falls", "RFL"),
    Listing("Regnis (Lanka)", "REG"),
    Listing("Renuka Agri Foods", "RAL"),
    Listing("Renuka City Hotels", "RENU"),
    Listing("Renuka Foods", "COCO"),
    Listing("Renuka Holdings", "RHL"),
    Listing("Renuka Hotels", "RCH")
  ]

  const ListingsR2: seq<Listing> := [
    Listing("Resus Energy", "HPWR"),
    Listing("Richard Pieris and Company", "RICH"),
    Listing("Richard Pieris Exports", "REXP"),
    Listing("Royal Ceramics Lanka", "RCL"),
    Listing("Royal Palms Beach Hotels", "RPBH")
  ]

  const ListingsS1: seq<Listing> := [
    Listing("Sampath Bank", "SAMP"),
    Listing("Samson International", "SIL"),
    Listing("Sanasa Development Bank", "SDB"),
    Listing("Sarvodaya Development Finance", "SDF"),
    Listing("Sathosa Motors", "SMOT"),
    Listing("Senkadagala Finance", "SFCL"),
    Listing("Serendib Engineering Group", "IDL"),
    Listing("Serendib Hotels", "SHOT"),
    Listing("Serendib Land", "SLND"),
    Listing("Seylan Bank", "SEYB")
  ]

  const ListingsS2: seq<Listing> := [
    Listing("Seylan Developments", "CSD"),
    Listing("Shaw Wallace Investments", "KZOO"),
    Listing("Sierra Cables", "SIRA"),
    Listing("Sigiriya Village Hotels", "SIGV"),
    Listing("Singer (Sri Lanka)", "SINS"),
    Listing("Singer Finance (Lanka)", "SFIN"),
    Listing("Singer Industries (Ceylon)", "SINI"),
    Listing("Singhe Hospitals", "SINH"),
    Listing("SMB Finance", "SEMB"),
    Listing("Softlogic Capital", "SCAP")
  ]

  const ListingsS3: seq<Listing> := [
    Listing("Softlogic Finance", "CRL"),
    Listing("Softlogic Holdings", "SHL"),
    Listing("Softlogic Life Insurance", "AAIC"),
    Listing("Sri Lanka Telecom", "SLTL"),
    Listing("Standard Capital", "SING"),
    Listing("Sunshine Holdings", "SUN"),
    Listing("Swadeshi Industrial Works", "SWAD"),
    Listing("Swisstek (Ceylon)", "PARQ")
  ]

  const ListingsT1: seq<Listing> := [
    Listing("TAL Lanka Hotels", "TAJ"),
    Listing("Talawakelle Tea Estates", "TPL"),
    Listing("Tangerine Beach Hotels", "TANG"),
    Listing("Tea Smallholder Factories", "TSML"),
    Listing("Teejay Lanka", "TJL"),
    Listing("Tess Agro", "TESS"),
    Listing("The Autodrome", "AUTO"),
    Listing("The Colombo Fort Land & Building", "CFLB"),
    Listing("The Fortress Resorts", "RHTL"),
    Listing("The Kandy Hotels Company (1938)", "KHC")
  ]

  const ListingsT2: seq<Listing> := [
    Listing("The Kingsbury", "SERV"),
    Listing("The Lanka Hospitals Corporation", "LHCL"),
    Listing("The Lighthouse Hotel", "LHL"),
    Listing("The Nuwara Eliya Hotels Company", "NEH"),
    Listing("Three Acre Farms", "TAFL"),
    Listing("Tokyo Cement Company (Lanka)", "TKYO"),
    Listing("Trans Asia Hotels", "TRAN")
  ]

  const ListingsU: seq<Listing> := [
    Listing("UB Finance", "UBF"),
    Listing("Udapussellawa Plantations", "UDPL"),
    Listing("Union Assurance", "UAL"),
    Listing("Union Bank of Colombo", "UBC"),
    Listing("Union Chemicals Lanka", "UCAR"),
    Listing("Unisyst Engineering", "ALUF"),
    Listing("United Motors Lanka", "UML")
  ]

  const ListingsV: seq<Listing> := [
    Listing("Vallibel Finance", "VFIN"),
    Listing("Vallibel One", "VONE"),
    Listing("Vallibel Power Erathna", "VPEL"),
    Listing("Vidullanka", "VLL")
  ]

  const ListingsW: seq<Listing> := [
    Listing("Waskaduwa Beach Resort", "CITW"),
    Listing("Watawala Plantations", "WATA"),
    Listing("WindForce", "WIND")
  ]

  const ListingsY: seq<Listing> := [
    Listing("York Arcade Holdings", "YORK")
  ]

  /** `CSE_COMPANIES` as rows, the runs above joined in order. */
  const Listings: seq<Listing> :=
    ((((ListingsA1 + ListingsA2) + (ListingsA3 + (ListingsB1 + ListingsB2))) + ((ListingsC1 +
    ListingsC2) + (ListingsC3 + (ListingsC4 + ListingsD)))) + (((ListingsE1 + ListingsE2) +
    (ListingsF + (ListingsG + ListingsH1))) + ((ListingsH2 + ListingsH3) + (ListingsI + (ListingsJ +
    ListingsK))))) + ((((ListingsL1 + ListingsL2) + (ListingsL3 + (ListingsM1 + ListingsM2))) +
    ((ListingsN + ListingsO) + (ListingsP1 + (ListingsP2 + ListingsR1)))) + (((ListingsR2 +
    ListingsS1) + (ListingsS2 + (ListingsS3 + ListingsT1))) + ((ListingsT2 + ListingsU) + (ListingsV
    + (ListingsW + ListingsY)))))


  /** A main-board symbol normalises to the code before its suffix. */
  lemma MainBoardNormalizes(symbol: string)
    requires OnMainBoard(symbol)
    ensures NormalizeSymbol(symbol) == symbol[..|symbol| - 6]
  {
    var i := |symbol| - 6;
    assert symbol[i..] == MainBoardSuffix;
    assert symbol[i + 2..] == "0000";
    assert SuffixAt(symbol, i);
  }

  /** A row's symbol is on the main board and normalises to the row's trading code. */
  lemma CompanyNormalizes(l: Listing)
    ensures OnMainBoard(Company(l).symbol)
    ensures NormalizeSymbol(Company(l).symbol) == l.code
  {
    var symbol := Company(l).symbol;
    assert symbol[|l.code|..] == MainBoardSuffix;
    MainBoardNormalizes(symbol);
    assert symbol[..|l.code|] == l.code;
  }

  /**
   * The rows with their full symbols, one company per row in the same
   * order. Every symbol ends with `.N0000`, so normalising it gives back
   * the row's trading code.
   */
  function CompaniesOf(ls: seq<Listing>): (r: seq<CseCompany>)
    ensures |r| == |ls|
    ensures forall i :: 0 <= i < |ls| ==> r[i].name == ls[i].name && r[i].symbol == ls[i].code + MainBoardSuffix
    ensures forall i :: 0 <= i < |ls| ==> OnMainBoard(r[i].symbol)
    ensures forall i :: 0 <= i < |ls| ==> NormalizeSymbol(r[i].symbol) == ls[i].code
  {
    var r := seq(|ls|, i requires 0 <= i < |ls| => Company(ls[i]));
    assert forall i :: 0 <= i < |ls| ==> OnMainBoard(r[i].symbol) && NormalizeSymbol(r[i].symbol) == ls[i].code by {
      forall i | 0 <= i < |ls| ensures OnMainBoard(r[i].symbol) && NormalizeSymbol(r[i].symbol) == ls[i].code {
        CompanyNormalizes(ls[i]);
      }
    }
    r
  }

  /** `CSE_COMPANIES`. */
  const CseCompanies: seq<CseCompany> := CompaniesOf(Listings)

  // ---------------------------------------------------------------------------
  // `searchCompanies`

  /** The lower-cased name or the lower-cased symbol contains the lower-cased query. */
  predicate Matches(c: CseCompany, query: string) {
    Contains(Lower(c.name), Lower(query)) || Contains(Lower(c.symbol), Lower(query))
  }

  /**
   * `searchCompanies` over a table: a blank query finds nothing; any other
   * query, untrimmed, finds exactly the matching companies, in table order.
   */
  function SearchIn(table: seq<CseCompany>, query: string): (r: seq<CseCompany>)
    ensures IsBlank(query) ==> r == []
    ensures !IsBlank(query) ==> forall c :: c in r <==> c in table && Matches(c, query)
    ensures IsSubsequence(r, table)
  {
    TrimEmptyIffBlank(query);
    if Trim(query) == [] then []
    else
      FilterIsSubsequence(table, (c: CseCompany) => Matches(c, query));
      Filter(table, (c: CseCompany) => Matches(c, query))
  }

  /** `searchCompanies`: nothing for a blank query, otherwise exactly the matching listed companies, in listing order. */
  function SearchCompanies(query: string): (r: seq<CseCompany>)
    ensures IsBlank(query) ==> r == []
    ensures !IsBlank(query) ==> forall c :: c in r <==> c in CseCompanies && Matches(c, query)
    ensures IsSubsequence(r, CseCompanies)
  {
    SearchIn(CseCompanies, query)
  }

  /** The search ignores the case of the query. */
  lemma SearchIgnoresCase(table: seq<CseCompany>, query: string)
    ensures SearchIn(table, Lower(query)) == SearchIn(table, query)
  {
    LowerIdempotent(query);
    LowerKeepsBlank(query);
    FilterAgree(table, (c: CseCompany) => Matches(c, Lower(query)), (c: CseCompany) => Matches(c, query));
  }

  /** Lower-casing turns no other character into a space. */
  lemma LowerKeepsSpaces(s: string)
    ensures ' ' in Lower(s) <==> ' ' in s
  {
    if ' ' in Lower(s) {
      var i :| 0 <= i < |s| && Lower(s)[i] == ' ';
      assert s[i] == ' ';
    }
    if ' ' in s {
      var i :| 0 <= i < |s| && s[i] == ' ';
      assert Lower(s)[i] == ' ';
    }
  }

  /** A text without spaces contains no query with a space. */
  lemma NoSpaceNoMatch(s: string, q: string)
    requires ' ' !in s && ' ' in q
    ensures !Contains(s, q)
  {
    var k :| 0 <= k < |q| && q[k] == ' ';
    MissingCharNoMatch(s, q, k);
  }

  /**
   * Surrounding spaces take part in the match: a query with a space finds no
   * company whose name and symbol have none, so "WIND " misses WindForce,
   * which "wind" finds.
   */
  lemma UntrimmedQuery(c: CseCompany, query: string)
    requires ' ' !in c.name && ' ' !in c.symbol && ' ' in query
    ensures !Matches(c, query)
  {
    LowerKeepsSpaces(c.name);
    LowerKeepsSpaces(c.symbol);
    LowerKeepsSpaces(query);
    NoSpaceNoMatch(Lower(c.name), Lower(query));
    NoSpaceNoMatch(Lower(c.symbol), Lower(query));
  }

  /** "wind" finds WindForce through its symbol. */
  lemma TrimmedQueryExample()
    ensures Matches(CseCompany("WindForce", "WIND.N0000"), "wind")
  {
    var symbol := Lower("WIND.N0000");
    assert symbol[..4] == "wind";
    assert OccursAt(symbol, "wind", 0);
  }

  /** "WIND " misses WindForce. */
  lemma UntrimmedQueryExample()
    ensures !Matches(CseCompany("WindForce", "WIND.N0000"), "WIND ")
  {
    assert "WIND "[4] == ' ';
    UntrimmedQuery(CseCompany("WindForce", "WIND.N0000"), "WIND ");
  }

  // ---------------------------------------------------------------------------
  // `getPopularCompanies`

  const PopularSymbols: seq<string> :=
    ["JKH.N0000", "DIAL.N0000", "COMB.N0000", "HNB.N0000", "SAMP.N0000", "ALUM.N0000", "SLTL.N0000", "HAYL.N0000"]

  function HasSymbol(symbol: string): CseCompany -> bool {
    (c: CseCompany) => c.symbol == symbol
  }

  predicate Listed(table: seq<CseCompany>, symbol: string) {
    exists i :: 0 <= i < |table| && table[i].symbol == symbol
  }

  /** The `find` for each popular symbol, in order. */
  function Lookups(table: seq<CseCompany>): (found: seq<Option<CseCompany>>)
    ensures |found| == |PopularSymbols|
    ensures forall k :: 0 <= k < |found| ==> found[k] == Find(table, HasSymbol(PopularSymbols[k]))
  {
    seq(|PopularSymbols|, k requires 0 <= k < |PopularSymbols| => Find(table, HasSymbol(PopularSymbols[k])))
  }

  /**
   * `getPopularCompanies` over a table: the first entry with each popular
   * symbol, in the order of the popular symbols, dropping symbols the table
   * does not list. When the table lists all of them, all come back in order.
   */
  function PopularIn(table: seq<CseCompany>): (r: seq<CseCompany>)
    ensures |r| <= |PopularSymbols|
    ensures forall c :: c in r ==> c in table && c.symbol in PopularSymbols
    ensures (forall k :: 0 <= k < |PopularSymbols| ==> Listed(table, PopularSymbols[k])) ==>
      |r| == |PopularSymbols| && forall k :: 0 <= k < |r| ==> r[k].symbol == PopularSymbols[k]
  {
    var found := Lookups(table);
    PresentFrom(found, table);
    FoundWhenListed(table);
    Present(found)
  }

  lemma PresentFrom(found: seq<Option<CseCompany>>, table: seq<CseCompany>)
    requires |found| == |PopularSymbols|
    requires forall k :: 0 <= k < |found| ==> found[k] == Find(table, HasSymbol(PopularSymbols[k]))
    ensures forall c :: c in Present(found) ==> c in table && c.symbol in PopularSymbols
  {
    forall c | c in Present(found) ensures c in table && c.symbol in PopularSymbols {
      var k :| 0 <= k < |found| && found[k] == Some(c);
      assert HasSymbol(PopularSymbols[k])(c);
    }
  }

  /** A listed symbol is found. */
  lemma FoundWhenListed(table: seq<CseCompany>)
    ensures (forall k :: 0 <= k < |PopularSymbols| ==> Listed(table, PopularSymbols[k])) ==>
      forall k :: 0 <= k < |PopularSymbols| ==> Find(table, HasSymbol(PopularSymbols[k])).Some?
  {
    if forall k :: 0 <= k < |PopularSymbols| ==> Listed(table, PopularSymbols[k]) {
      forall k | 0 <= k < |PopularSymbols| ensures Find(table, HasSymbol(PopularSymbols[k])).Some? {
        var i :| 0 <= i < |table| && table[i].symbol == PopularSymbols[k];
        assert HasSymbol(PopularSymbols[k])(table[i]);
      }
    }
  }

  /** Each returned company is the first entry of the table with its popular symbol. */
  lemma PopularIsFirst(table: seq<CseCompany>, k: nat)
    requires forall k :: 0 <= k < |PopularSymbols| ==> Listed(table, PopularSymbols[k])
    requires k < |PopularSymbols|
    ensures k < |PopularIn(table)|
    ensures exists i :: 0 <= i < |table| && table[i] == PopularIn(table)[k] &&
                        forall j :: 0 <= j < i ==> table[j].symbol != PopularSymbols[k]
  {
    var found := Lookups(table);
    PresentFrom(found, table);
    FoundWhenListed(table);
    var c := found[k].value;
    assert PopularIn(table)[k] == c;
    var i :| 0 <= i < |table| && table[i] == c && HasSymbol(PopularSymbols[k])(table[i]) &&
             forall j :: 0 <= j < i ==> !HasSymbol(PopularSymbols[k])(table[j]);
    assert forall j :: 0 <= j < i ==> table[j].symbol != PopularSymbols[k];
  }

  /** `getPopularCompanies`: at most eight listed companies, each with a popular symbol. */
  function GetPopularCompanies(): (r: seq<CseCompany>)
    ensures |r| <= |PopularSymbols|
    ensures forall c :: c in r ==> c in CseCompanies && c.symbol in PopularSymbols
  {
    PopularIn(CseCompanies)
  }

  /** The rows of the eight popular companies, in the order of the popular symbols. */
  const PopularRows: seq<Listing> := [
    Listing("John Keells Holdings", "JKH"),
    Listing("Dialog Axiata", "DIAL"),
    Listing("Commercial Bank of Ceylon", "COMB"),
    Listing("Hatton National Bank", "HNB"),
    Listing("Sampath Bank", "SAMP"),
    Listing("Alumex", "ALUM"),
    Listing("Sri Lanka Telecom", "SLTL"),
    Listing("Hayleys", "HAYL")
  ]

  lemma PopularRowsHaveTheSymbols()
    ensures |PopularRows| == |PopularSymbols|
    ensures forall k :: 0 <= k < |PopularRows| ==> Company(PopularRows[k]).symbol == PopularSymbols[k]
  {
  }

  /** A table holding the eight popular rows yields all eight popular companies, in order. */
  lemma PopularFromRows(ls: seq<Listing>)
    requires forall k :: 0 <= k < 4 ==> PopularRows[k] in ls
    requires forall k :: 4 <= k < 8 ==> PopularRows[k] in ls
    ensures |PopularIn(CompaniesOf(ls))| == 8
    ensures forall k :: 0 <= k < 8 ==> PopularIn(CompaniesOf(ls))[k].symbol == PopularSymbols[k]
  {
    PopularRowsHaveTheSymbols();
    assert forall k :: 0 <= k < |PopularRows| ==> PopularRows[k] in ls;
    forall k | 0 <= k < |PopularSymbols| ensures Listed(CompaniesOf(ls), PopularSymbols[k]) {
      var i :| 0 <= i < |ls| && ls[i] == PopularRows[k];
      assert CompaniesOf(ls)[i].symbol == PopularSymbols[k];
    }
  }

  lemma JkhRow() ensures PopularRows[0] in Listings {}
  lemma DialRow() ensures PopularRows[1] in Listings {}
  lemma CombRow() ensures PopularRows[2] in Listings {}
  lemma HnbRow() ensures PopularRows[3] in Listings {}
  lemma SampRow() ensures PopularRows[4] in Listings {}
  lemma AlumRow() ensures PopularRows[5] in Listings {}
  lemma SltlRow() ensures PopularRows[6] in Listings {}
  lemma HaylRow() ensures PopularRows[7] in Listings {}

  /** The table holds the first four popular rows. */
  lemma FirstPopularRowsListed()
    ensures forall k :: 0 <= k < 4 ==> PopularRows[k] in Listings
  {
    JkhRow();
    DialRow();
    CombRow();
    HnbRow();
  }

  /** The table holds the last four popular rows. */
  lemma LastPopularRowsListed()
    ensures forall k :: 4 <= k < 8 ==> PopularRows[k] in Listings
  {
    SampRow();
    AlumRow();
    SltlRow();
    HaylRow();
  }

  /** All eight popular symbols are listed, so all eight companies come back, in the given order. */
  lemma PopularCompaniesAllListed()
    ensures |GetPopularCompanies()| == 8
    ensures forall k :: 0 <= k < 8 ==> GetPopularCompanies()[k].symbol == PopularSymbols[k]
  {
    FirstPopularRowsListed();
    LastPopularRowsListed();
    PopularFromRows(Listings);
  }
}
