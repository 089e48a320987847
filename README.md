# FinancialDashboard table pipeline, in Dafny

The FinancialDashboard is a Streamlit page with four views. Apart from fetching
and drawing, its logic is a small table-shaping pipeline. This project models
that pipeline, with tables as sequences of row records, and proves what each
step promises:

- **Crypto listing normaliser** (`load_data`), module `Listings`. The first
  loop fills the `coins` dictionary from `str(id)` to slug. The second loop
  appends every listing's fields to eight parallel column lists. The table is
  then assembled from those columns. These loops are imperative methods.
  Already-parsed listings are the input.
- **S&P 500 view**, module `Companies`. It covers the sector options
  (`sorted(unique(...))`), the `isin` sector filter, the first ten tickers for
  the price download and the "Show Plots" loop over the first `num_company`
  symbols.
- **Crypto view**, module `Market`. It covers the coin options, the `isin`
  coin filter, the top-N slice and the percent-change table with its three
  `> 0` flags. It also covers the `percent_dict` timeframe lookup against the
  `if/elif/else` branch chain, the optional ascending sort and the bar colours.
- **Shared pieces.** `Seqs` holds the boolean-mask filter and Python's `[:n]`
  slice. `Strings` holds Python's string order, `sorted`, pandas' `unique` and
  `str` of an `int`. `Results` holds `Option`/`Result`.

Widget values are plain inputs: the selected sectors and coins, `num_company`,
`num_coin`, the timeframe key, the sort choice, the currency unit and whether
the button was pressed. A dictionary lookup that would raise `KeyError` shows
up as an explicit error value for two lookups only: `i['quote'][unit]` and
`percent_dict[key]`. Percent changes and prices are `real`.

## Model

| member | source | states |
|---|---|---|
| `Listings.BuildSlugIndex` | streamlit_app.py:57-58 | the dictionary's keys are exactly the `str(id)` of the listings; a repeated id holds the slug of its last occurrence (later writes win) |
| `Listings.BuildColumns` | streamlit_app.py:60-77 | fails exactly when some listing lacks a quote in the currency unit, reporting the first such position; otherwise all eight columns have one entry per listing and entry `i` comes from `listings[i]` |
| `Listings.AssembleColumnsRoundTrip` | streamlit_app.py:79-87 | the DataFrame built from equal-length columns has one row per entry, and its columns are exactly the lists it was built from |
| `Listings.ColumnsAssembleRoundTrip` | streamlit_app.py:79-87 | any table's columns are equal-length and reassemble to that table |
| `Listings.LoadData` | streamlit_app.py:54-88 | succeeds exactly when every listing quotes the unit; then there is one row per listing and row `i` holds `listings[i]`'s slug, symbol and quote fields; otherwise it names the first position that lacks the unit |
| `Strings.IntStringInjective` | streamlit_app.py:58 | `str(a) == str(b)` exactly when `a == b`, so id keys collide only for equal ids |
| `Strings.Unique` | streamlit_app.py:103 | `unique()` has exactly the values of its input, each once |
| `Strings.SortIsSortedPermutation` | streamlit_app.py:158 | `sorted` returns an ascending permutation of its input |
| `Strings.SortUniqueStrict` | streamlit_app.py:103 | `sorted(unique(xs))` is strictly ascending and holds exactly the values of `xs` |
| `Companies.SectorOptions` | streamlit_app.py:103 | the sector options are strictly ascending (no duplicates) and are exactly the sectors in the table |
| `Companies.SelectBySector` | streamlit_app.py:106 | keeps exactly the rows whose sector is selected, with their multiplicity, in table order (a subsequence), never more rows than the source |
| `Companies.DefaultSelectionKeepsAll` | streamlit_app.py:103-106 | with the default selection of all options the filter returns the whole table |
| `Companies.EmptySelectionKeepsNone` | streamlit_app.py:104-106 | selecting no sector gives the empty table |
| `Companies.SectorFilterExample` | streamlit_app.py:106 | rows AAPL/Tech and XOM/Energy filtered to Tech leave exactly the AAPL row |
| `Companies.DownloadTickers` | streamlit_app.py:112-113 | at most ten tickers go to the download, `min(10, rows)` of them, and they are the first symbols of the filtered table |
| `Companies.PlotSymbols` | streamlit_app.py:122-126 | after a button press the loop plots the first `min(num_company, rows)` symbols in order, with Python slice semantics for a negative count; without a press it plots nothing |
| `Seqs.Keep` | streamlit_app.py:161 | the boolean-mask filter keeps exactly the rows satisfying the mask, with their multiplicity, as a subsequence of the source, never longer |
| `Seqs.KeepAll` | streamlit_app.py:106 | a mask true on every row returns the table unchanged |
| `Seqs.KeepNone` | streamlit_app.py:106 | a mask false on every row returns the empty table |
| `Seqs.Prefix` | streamlit_app.py:165 | `s[:n]` is a prefix of `s` of length `min(n, len(s))` for `n >= 0`, and of length `max(0, len(s) + n)` for negative `n` |
| `Market.CoinOptions` | streamlit_app.py:158 | the coin options are ascending and a permutation of the symbol column |
| `Market.SelectCoins` | streamlit_app.py:161 | keeps exactly the rows whose symbol is selected, with their multiplicity, in listing order, never more rows than the source |
| `Market.DefaultCoinSelectionKeepsAll` | streamlit_app.py:158-161 | with the default selection of all options the coin filter returns the whole table |
| `Market.ChangeTable` | streamlit_app.py:186-190 | one row per displayed coin with its symbol and three changes; each `positive_percent_change_X` flag is true exactly when that change is strictly greater than 0 |
| `Market.ZeroIsNotPositiveExample` | streamlit_app.py:188-190 | 24-hour changes 5, -2 and 0 give the flags true, false, false |
| `Market.LookupTimeframe` | streamlit_app.py:170-171 | `percent_dict` maps "7d", "24h" and "1h" to their columns and nothing else; any other key is a lookup failure |
| `Market.BranchAgreesWithLookup` | streamlit_app.py:196-214 | for every key the dictionary accepts, the `if/elif/else` chain picks the same column, named `percentChange` + key |
| `Market.SortByChange` | streamlit_app.py:198 | `sort_values` returns a permutation of the rows, ascending in the chosen column (no stability claimed) |
| `Market.SortKeepsFlags` | streamlit_app.py:186-198 | sorting moves whole rows, so every row's flags still agree with its own changes |
| `Market.ChangeView` | streamlit_app.py:186-219 | fails exactly for a key not in `percent_dict`; otherwise it is a permutation of the change table whose flags all agree with their changes. With "Yes" it is ascending in the chosen column; with any other answer it is the change table unchanged |
| `Market.BarColours` | streamlit_app.py:202 | one colour per bar, 'g' exactly when the row's flag for the column is true and 'r' exactly when it is false |
| `Market.GreenIffPositive` | streamlit_app.py:188-218 | on the change view a bar is green exactly when its change is strictly positive |
| `Market.CryptoView` | streamlit_app.py:158-191 | the crypto page is produced exactly when the timeframe key is in `percent_dict` |
| `Market.CryptoViewShape` | streamlit_app.py:161-219 | the displayed table is a prefix of the filtered table of length `min(num_coin, filtered rows)`; the export and the dimension line use the untruncated filtered table; the percent-change table shown has one row per displayed coin in displayed order; the bar chart's table holds the same rows, ascending in the chosen column with "Yes" and unchanged otherwise |

## Left out

- Streamlit page set-up, layout, widgets, headers and `st.cache` (lines 12-15, 104, 122-123, 146-155, 159, 164, 168-169, 174-176, 179) are presentation. Widget values are inputs here.
- The `Listing` and `Quote` records presume the keys `id`, `slug`, `symbol`, `quote` and the six quote fields (`price`, `percentChange1h`, `percentChange24h`, `percentChange7d`, `marketCap`, `volume24h`) are present in every decoded listing (lines 58, 70-77). The `KeyError` a listing missing one of them would raise is not modelled.
- Network fetching and scraping are I/O through foreign libraries. This covers `requests.get`, BeautifulSoup, `json.loads` of the embedded page state (50-56), `pd.read_html` (19-23) and the ticker list CSV (228). Listings and the roster table are inputs.
- The yfinance price download and ticker profile lookups (112-121, 230-241) call an external data provider. Only the ticker list handed to the download is modelled.
- Plotting with matplotlib and cufflinks (35-45, 200-219, 249-252) is left out. This includes the Bollinger-band overlay, a library's floating-point computation. Only the bar colour choice is modelled.
- CSV export and base64 encoding (27-31, 92-96) are library calls. For the crypto view the model records which table is exported (181). For the S&P 500 view (111) it records nothing: the exported table is the filtered one `Companies.SelectBySector` returns.
- The Stocktwits view (130-141) is an HTTP call and a bare `except` that prints a message. No state is computed there.
- The single-stock view (221-252) only passes date inputs to the provider and renders results.
- `df.groupby('GICS Sector')` (101) is computed and never used.
- The roster's columns other than symbol, security and sector feed no logic.
- Floating-point percent changes are `real`, so NaN does not exist in the model. pandas would sort a NaN last.
- The dimension line models the filtered table's row count and the crypto table's fixed eight columns. The roster's column count depends on the scraped page and is not modelled.
- Listings.BuildSlugIndex: the dictionary is built and then dropped by the source, as in `Listings.LoadData`. Both model only the already-decoded listing fields.
- Companies.PlotSymbols: records the plotted symbols in order instead of drawing. It does not model the price data each plot reads.

## Notes on the source

- The code filters with `isin` on a list and never checks symbol uniqueness. The model follows the code: a repeated coin symbol shows up repeatedly in the coin options, and the filter keeps every row with a selected value.
- The crypto coin options are `sorted(df['coin_symbol'])` without `unique`, unlike the sector options. The model keeps that difference.
