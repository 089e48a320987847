/** The S&P 500 view: sector options, the sector filter, the tickers passed to
    the price download and the symbols whose closing prices are plotted. The
    roster table itself comes from a scraped web page and arrives as input. */
module Companies {
  import opened Seqs
  import Strings

  /** One row of the roster table; the remaining scraped columns
      (sub-industry, headquarters, dates, CIK, ...) are carried by no logic
      and are not modelled. */
  datatype Company = Company(symbol: string, security: string, sector: string)

  function Sectors(t: seq<Company>): seq<string>
  {
    seq(|t|, i requires 0 <= i < |t| => t[i].sector)
  }

  function Symbols(t: seq<Company>): seq<string>
  {
    seq(|t|, i requires 0 <= i < |t| => t[i].symbol)
  }

  /** `sorted(df['GICS Sector'].unique())`: the sector multiselect's options,
      ascending, each sector once, exactly the sectors present in the table. */
  function SectorOptions(t: seq<Company>): (r: seq<string>)
    ensures Strings.StrictlySorted(r)
    ensures forall s :: s in r <==> exists i :: 0 <= i < |t| && t[i].sector == s
  {
    Strings.SortUniqueStrict(Sectors(t));
    assert forall s :: s in Sectors(t) <==> exists i :: 0 <= i < |t| && t[i].sector == s by {
      forall s | s in Sectors(t) ensures exists i :: 0 <= i < |t| && t[i].sector == s {
        var i :| 0 <= i < |t| && Sectors(t)[i] == s;
      }
      forall i | 0 <= i < |t| ensures t[i].sector in Sectors(t) {
        assert Sectors(t)[i] == t[i].sector;
      }
    }
    Strings.Sort(Strings.Unique(Sectors(t)))
  }

  /** `df[df['GICS Sector'].isin(selected)]`: the rows whose sector is one of
      the selected ones, in table order. */
  function SelectBySector(t: seq<Company>, selected: seq<string>): (r: seq<Company>)
    ensures |r| <= |t|
    ensures forall c :: c in r ==> c in t && c.sector in selected
    ensures forall c :: c in t && c.sector in selected ==> c in r
    ensures forall c :: c in t ==> multiset(r)[c] == if c.sector in selected then multiset(t)[c] else 0
    ensures IsSubsequence(r, t)
  {
    Keep(t, (c: Company) => c.sector in selected)
  }

  /** The multiselect starts with every option selected; the filter then
      returns the whole table. */
  lemma DefaultSelectionKeepsAll(t: seq<Company>)
    ensures SelectBySector(t, SectorOptions(t)) == t
  {
    var options := SectorOptions(t);
    forall c | c in t ensures c.sector in options {
      var i :| 0 <= i < |t| && t[i] == c;
    }
    KeepAll(t, (c: Company) => c.sector in options);
  }

  /** Selecting no sector gives an empty table, not an error. */
  lemma EmptySelectionKeepsNone(t: seq<Company>)
    ensures SelectBySector(t, []) == []
  {
    KeepNone(t, (c: Company) => c.sector in []);
  }

  /** `list(df_selected_sector[:10].Symbol)`: the tickers for the year-to-date
      download, at most ten, the first symbols of the filtered table. */
  function DownloadTickers(t: seq<Company>): (r: seq<string>)
    ensures |r| == Min(10, |t|)
    ensures forall i :: 0 <= i < |r| ==> r[i] == t[i].symbol
  {
    Symbols(Prefix(t, 10))
  }

  /** The "Show Plots" loop over `list(df_selected_sector.Symbol)[:num_company]`:
      the symbols whose closing price is plotted, in the order of the plots.
      Nothing is plotted unless the button was pressed. */
  method PlotSymbols(t: seq<Company>, numCompany: int, pressed: bool) returns (plotted: seq<string>)
    ensures !pressed ==> plotted == []
    ensures pressed && numCompany >= 0 ==> |plotted| == Min(numCompany, |t|)
    ensures pressed && numCompany < 0 ==> |plotted| == Max(0, |t| + numCompany)
    ensures forall i :: 0 <= i < |plotted| ==> plotted[i] == t[i].symbol
  {
    plotted := [];
    if !pressed {
      return;
    }
    var symbols := Prefix(Symbols(t), numCompany);
    var k := 0;
    while k < |symbols|
      invariant 0 <= k <= |symbols|
      invariant plotted == symbols[..k]
    {
      plotted := plotted + [symbols[k]];
      k := k + 1;
    }
  }

  /** Worked example: rows AAPL/Tech and XOM/Energy filtered to {Tech} leave
      exactly the AAPL row. */
  lemma SectorFilterExample()
    ensures SelectBySector([Company("AAPL", "Apple", "Tech"), Company("XOM", "Exxon", "Energy")], ["Tech"])
         == [Company("AAPL", "Apple", "Tech")]
  {
    var t := [Company("AAPL", "Apple", "Tech"), Company("XOM", "Exxon", "Energy")];
    assert t[1..][1..] == [];
  }
}
