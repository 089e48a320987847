/** The crypto view: coin options and coin filter, the top-N slice, the table
    of percent changes with its sign flags, the timeframe lookup and the
    optional ascending sort behind the bar chart. */
module Market {
  import opened Results
  import opened Seqs
  import Strings
  import opened Listings

  function CoinSymbols(t: seq<CoinRow>): seq<string>
  {
    seq(|t|, i requires 0 <= i < |t| => t[i].coinSymbol)
  }

  /** `sorted(df['coin_symbol'])`: the coin multiselect's options, ascending,
      one entry per row (a repeated symbol appears repeatedly). */
  function CoinOptions(t: seq<CoinRow>): (r: seq<string>)
    ensures Strings.Sorted(r)
    ensures multiset(r) == multiset(CoinSymbols(t))
  {
    Strings.SortIsSortedPermutation(CoinSymbols(t));
    Strings.Sort(CoinSymbols(t))
  }

  /** `df[df['coin_symbol'].isin(selected)]`: the rows whose symbol is
      selected, in listing order. */
  function SelectCoins(t: seq<CoinRow>, selected: seq<string>): (r: seq<CoinRow>)
    ensures |r| <= |t|
    ensures forall c :: c in r ==> c in t && c.coinSymbol in selected
    ensures forall c :: c in t && c.coinSymbol in selected ==> c in r
    ensures forall c :: c in t ==> multiset(r)[c] == if c.coinSymbol in selected then multiset(t)[c] else 0
    ensures IsSubsequence(r, t)
  {
    Keep(t, (c: CoinRow) => c.coinSymbol in selected)
  }

  /** The multiselect starts with every option selected; the filter then
      returns the whole table. */
  lemma DefaultCoinSelectionKeepsAll(t: seq<CoinRow>)
    ensures SelectCoins(t, CoinOptions(t)) == t
  {
    var options := CoinOptions(t);
    forall c | c in t ensures c.coinSymbol in options {
      var i :| 0 <= i < |t| && t[i] == c;
      assert CoinSymbols(t)[i] == c.coinSymbol;
      assert c.coinSymbol in multiset(options);
    }
    KeepAll(t, (c: CoinRow) => c.coinSymbol in options);
  }

  /** The percent-change table: symbol (the index), the three percent changes
      and one flag per change, `value > 0`. */
  datatype ChangeRow = ChangeRow(
    coinSymbol: string,
    percentChange1h: real,
    percentChange24h: real,
    percentChange7d: real,
    positive1h: bool,
    positive24h: bool,
    positive7d: bool)

  /** Each flag is set exactly when its change is strictly positive. */
  predicate FlagsAgree(row: ChangeRow)
  {
    (row.positive1h <==> row.percentChange1h > 0.0) &&
    (row.positive24h <==> row.percentChange24h > 0.0) &&
    (row.positive7d <==> row.percentChange7d > 0.0)
  }

  /** Projection of the displayed coin rows onto symbol and the three changes,
      then the three `positive_percent_change_*` columns. */
  function ChangeTable(coins: seq<CoinRow>): (r: seq<ChangeRow>)
    ensures |r| == |coins|
    ensures forall i :: 0 <= i < |r| ==>
              r[i].coinSymbol == coins[i].coinSymbol &&
              r[i].percentChange1h == coins[i].percentChange1h &&
              r[i].percentChange24h == coins[i].percentChange24h &&
              r[i].percentChange7d == coins[i].percentChange7d
    ensures forall i :: 0 <= i < |r| ==> FlagsAgree(r[i])
  {
    seq(|coins|, i requires 0 <= i < |coins| =>
      var c := coins[i];
      ChangeRow(c.coinSymbol, c.percentChange1h, c.percentChange24h, c.percentChange7d,
                c.percentChange1h > 0.0, c.percentChange24h > 0.0, c.percentChange7d > 0.0))
  }

  /** Worked example: 24-hour changes 5, -2 and 0 give the flags true, false,
      false; a change of exactly zero is not positive. */
  lemma ZeroIsNotPositiveExample()
    ensures var r := ChangeTable([CoinRow("bitcoin", "BTC", 0.0, 0.0, 5.0, 0.0, 0.0, 0.0),
                                  CoinRow("ethereum", "ETH", 0.0, 0.0, -2.0, 0.0, 0.0, 0.0),
                                  CoinRow("tether", "USDT", 0.0, 0.0, 0.0, 0.0, 0.0, 0.0)]);
            [r[0].positive24h, r[1].positive24h, r[2].positive24h] == [true, false, false]
  {
  }

  /** The three percent-change columns a timeframe selects. */
  datatype ChangeColumn = PercentChange1h | PercentChange24h | PercentChange7d

  /** The column's name in the table. */
  function ColumnName(c: ChangeColumn): string
  {
    match c
    case PercentChange1h => "percentChange1h"
    case PercentChange24h => "percentChange24h"
    case PercentChange7d => "percentChange7d"
  }

  /** `percent_dict`: timeframe key to column. */
  const PercentDict: map<string, ChangeColumn> :=
    map["7d" := PercentChange7d, "24h" := PercentChange24h, "1h" := PercentChange1h]

  /** `percent_dict[percent_timeframe]`: defined for the three keys the
      selectbox offers, a KeyError for any other. */
  function LookupTimeframe(key: string): (r: Option<ChangeColumn>)
    ensures r.Some? <==> key == "7d" || key == "24h" || key == "1h"
    ensures r == Some(PercentChange7d) <==> key == "7d"
    ensures r == Some(PercentChange24h) <==> key == "24h"
    ensures r == Some(PercentChange1h) <==> key == "1h"
  {
    if key in PercentDict then Some(PercentDict[key]) else None
  }

  /** The `if '7d' / elif '24h' / else` chain that picks the plotted column. */
  function BranchColumn(key: string): ChangeColumn
  {
    if key == "7d" then PercentChange7d
    else if key == "24h" then PercentChange24h
    else PercentChange1h
  }

  /** The branch chain and the dictionary agree on every key the dictionary
      accepts, so the column sorted and plotted is the selected one. */
  lemma BranchAgreesWithLookup(key: string)
    requires LookupTimeframe(key).Some?
    ensures BranchColumn(key) == LookupTimeframe(key).value
    ensures ColumnName(BranchColumn(key)) == "percentChange" + key
  {
  }

  function Change(row: ChangeRow, c: ChangeColumn): real
  {
    match c
    case PercentChange1h => row.percentChange1h
    case PercentChange24h => row.percentChange24h
    case PercentChange7d => row.percentChange7d
  }

  function Positive(row: ChangeRow, c: ChangeColumn): bool
  {
    match c
    case PercentChange1h => row.positive1h
    case PercentChange24h => row.positive24h
    case PercentChange7d => row.positive7d
  }

  /** Ascending in column `c`. */
  predicate SortedBy(t: seq<ChangeRow>, c: ChangeColumn)
  {
    forall i, j :: 0 <= i < j < |t| ==> Change(t[i], c) <= Change(t[j], c)
  }

  function InsertByChange(x: ChangeRow, t: seq<ChangeRow>, c: ChangeColumn): (r: seq<ChangeRow>)
    ensures multiset(r) == multiset(t) + multiset{x}
  {
    if t == [] then [x]
    else if Change(x, c) <= Change(t[0], c) then [x] + t
    else
      assert t == [t[0]] + t[1..];
      [t[0]] + InsertByChange(x, t[1..], c)
  }

  lemma {:induction false} InsertByChangeSorted(x: ChangeRow, t: seq<ChangeRow>, c: ChangeColumn)
    requires SortedBy(t, c)
    ensures SortedBy(InsertByChange(x, t, c), c)
  {
    if t != [] && Change(x, c) > Change(t[0], c) {
      InsertByChangeSorted(x, t[1..], c);
      var rest := InsertByChange(x, t[1..], c);
      forall y | y in rest ensures Change(t[0], c) <= Change(y, c) {
        assert y in multiset(rest);
        assert y == x || y in multiset(t[1..]);
      }
      var r := [t[0]] + rest;
      forall i, j | 0 <= i < j < |r| ensures Change(r[i], c) <= Change(r[j], c) {
        if i == 0 { assert r[j] == rest[j - 1]; }
      }
    }
  }

  /** `df_change.sort_values(by=[column])`: ascending in the chosen column, a
      permutation of the rows (each row moves with its own symbol and flags).
      The relative order of equal values is left unspecified, as in pandas'
      default sort. */
  function SortByChange(t: seq<ChangeRow>, c: ChangeColumn): (r: seq<ChangeRow>)
    ensures SortedBy(r, c)
    ensures multiset(r) == multiset(t)
  {
    if t == [] then []
    else
      assert t == [t[0]] + t[1..];
      InsertByChangeSorted(t[0], SortByChange(t[1..], c), c);
      InsertByChange(t[0], SortByChange(t[1..], c), c)
  }

  /** Sorting moves whole rows, so every flag still agrees with its own row's
      changes. */
  lemma SortKeepsFlags(t: seq<ChangeRow>, c: ChangeColumn)
    requires forall row :: row in t ==> FlagsAgree(row)
    ensures forall row :: row in SortByChange(t, c) ==> FlagsAgree(row)
  {
    forall row | row in SortByChange(t, c) ensures FlagsAgree(row) {
      assert row in multiset(SortByChange(t, c));
    }
  }

  /** The change table behind the bar chart: no table when the
      timeframe key is unknown; sorted ascending by the chosen column when
      `sort_values` is "Yes"; otherwise in the order of the displayed coins. */
  function ChangeView(coins: seq<CoinRow>, key: string, sortValues: string): (r: Option<seq<ChangeRow>>)
    ensures r.Some? <==> key in PercentDict
    ensures r.Some? ==> multiset(r.value) == multiset(ChangeTable(coins))
    ensures r.Some? && sortValues == "Yes" ==> SortedBy(r.value, PercentDict[key])
    ensures r.Some? && sortValues != "Yes" ==> r.value == ChangeTable(coins)
    ensures r.Some? ==> forall row :: row in r.value ==> FlagsAgree(row)
  {
    var column := LookupTimeframe(key);
    if column.None? then None
    else
      var table := ChangeTable(coins);
      var c := BranchColumn(key);
      BranchAgreesWithLookup(key);
      if sortValues == "Yes" then
        SortKeepsFlags(table, c);
        Some(SortByChange(table, c))
      else Some(table)
  }

  /** `positive_percent_change_X.map({True: 'g', False: 'r'})`: one bar colour
      per row, green for a positive flag and red otherwise. */
  function BarColours(view: seq<ChangeRow>, c: ChangeColumn): (r: seq<char>)
    ensures |r| == |view|
    ensures forall i :: 0 <= i < |r| ==> (r[i] == 'g' <==> Positive(view[i], c))
    ensures forall i :: 0 <= i < |r| ==> (r[i] == 'r' <==> !Positive(view[i], c))
  {
    seq(|view|, i requires 0 <= i < |view| => if Positive(view[i], c) then 'g' else 'r')
  }

  /** On the change view a bar is green exactly when its change is strictly
      positive. */
  lemma GreenIffPositive(view: seq<ChangeRow>, c: ChangeColumn, i: int)
    requires forall row :: row in view ==> FlagsAgree(row)
    requires 0 <= i < |view|
    ensures BarColours(view, c)[i] == 'g' <==> Change(view[i], c) > 0.0
  {
    assert view[i] in view;
  }

  /** What one render of the crypto view shows: the dimension line and the CSV
      export use the filtered table, the data table shows the top-N slice, the
      percent-change table is shown for that slice in its own order (before any
      sort), and the bar chart is drawn from the possibly sorted change view. */
  datatype CryptoPage = CryptoPage(
    rows: nat,
    columns: nat,
    displayed: seq<CoinRow>,
    exported: seq<CoinRow>,
    changeTable: seq<ChangeRow>,
    barChart: seq<ChangeRow>)

  /** The eight columns `load_data` produces. */
  const CoinColumns: nat := 8

  /** The crypto view from the coin options to the bar chart, with the widget
      values as inputs; `None` when the timeframe key raises a KeyError. */
  function CryptoView(t: seq<CoinRow>, selected: seq<string>, numCoin: int, key: string, sortValues: string)
    : (r: Option<CryptoPage>)
    ensures r.Some? <==> key in PercentDict
  {
    var filtered := SelectCoins(t, selected);
    var shown := Prefix(filtered, numCoin);
    match ChangeView(shown, key, sortValues)
    case None => None
    case Some(chart) => Some(CryptoPage(|filtered|, CoinColumns, shown, filtered, ChangeTable(shown), chart))
  }

  /** The displayed coins are a prefix of the filtered table of length
      `min(num_coin, |filtered|)`; the export and the row count are of the
      untruncated filtered table; the percent-change table has one row per
      displayed coin, in the displayed order; the bar chart's table holds the
      same rows, ascending in the chosen column when sorting was asked for. */
  lemma CryptoViewShape(t: seq<CoinRow>, selected: seq<string>, numCoin: int, key: string, sortValues: string)
    requires numCoin >= 0 && key in PercentDict
    ensures var r := CryptoView(t, selected, numCoin, key, sortValues);
            var filtered := SelectCoins(t, selected);
            r.Some? &&
            r.value.exported == filtered && r.value.rows == |filtered| &&
            |r.value.displayed| == Min(numCoin, |filtered|) &&
            r.value.displayed == filtered[..|r.value.displayed|] &&
            |r.value.changeTable| == |r.value.displayed| &&
            (forall i :: 0 <= i < |r.value.changeTable| ==>
               r.value.changeTable[i].coinSymbol == r.value.displayed[i].coinSymbol) &&
            multiset(r.value.barChart) == multiset(r.value.changeTable) &&
            (sortValues == "Yes" ==> SortedBy(r.value.barChart, PercentDict[key])) &&
            (sortValues != "Yes" ==> r.value.barChart == r.value.changeTable)
  {
    var filtered := SelectCoins(t, selected);
    var shown := Prefix(filtered, numCoin);
    var chart := ChangeView(shown, key, sortValues);
    assert |chart.value| == |multiset(chart.value)| == |multiset(ChangeTable(shown))|;
  }
}
