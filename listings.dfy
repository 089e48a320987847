/** The crypto listing normaliser (`load_data`): the decoded `listings` array of
    the market page becomes a table with one row per listing. The HTML and JSON
    decoding that produces the array is not part of this model; listings arrive
    already parsed. */
module Listings {
  import opened Results
  import Strings

  /** One currency entry of a listing's `quote` object. */
  datatype Quote = Quote(
    price: real,
    volume24h: real,
    percentChange1h: real,
    percentChange24h: real,
    percentChange7d: real,
    marketCap: real)

  /** One element of the decoded `listings` array; `quote` is keyed by
      currency unit ("USD", ...). */
  datatype Listing = Listing(id: int, slug: string, symbol: string, quote: map<string, Quote>)

  /** One row of the table `load_data` returns, fields in its column order. */
  datatype CoinRow = CoinRow(
    coinName: string,
    coinSymbol: string,
    marketCap: real,
    percentChange1h: real,
    percentChange24h: real,
    percentChange7d: real,
    price: real,
    volume24h: real)

  /** The eight parallel column lists the normaliser appends to. */
  datatype Columns = Columns(
    coinName: seq<string>,
    coinSymbol: seq<string>,
    marketCap: seq<real>,
    percentChange1h: seq<real>,
    percentChange24h: seq<real>,
    percentChange7d: seq<real>,
    price: seq<real>,
    volume24h: seq<real>)

  /** `i['quote'][unit]` was missing for the listing at this position (a KeyError). */
  datatype LoadError = MissingQuote(index: nat)

  /** The dictionary key the source uses for a listing: `str(i['id'])`. */
  function Key(l: Listing): string { Strings.IntString(l.id) }

  /** No listing after position `i` and before position `n` has the same id. */
  predicate IsLastWithId(ls: seq<Listing>, i: int, n: int)
    requires 0 <= i < n <= |ls|
  {
    forall j :: i < j < n ==> ls[j].id != ls[i].id
  }

  /** All eight columns have the same length. */
  predicate Rectangular(c: Columns)
  {
    var n := |c.coinName|;
    |c.coinSymbol| == n && |c.marketCap| == n && |c.percentChange1h| == n &&
    |c.percentChange24h| == n && |c.percentChange7d| == n && |c.price| == n &&
    |c.volume24h| == n
  }

  /** The row the normaliser makes from one listing, reading the quote for `unit`. */
  function RowOf(l: Listing, unit: string): CoinRow
    requires unit in l.quote
  {
    var q := l.quote[unit];
    CoinRow(l.slug, l.symbol, q.marketCap, q.percentChange1h, q.percentChange24h,
            q.percentChange7d, q.price, q.volume24h)
  }

  /** Column `c` holds, at position `i`, the value the normaliser reads from
      listing `l`. */
  predicate ColumnsAgreeAt(c: Columns, i: int, l: Listing, unit: string)
    requires 0 <= i && Rectangular(c) && i < |c.coinName| && unit in l.quote
  {
    var q := l.quote[unit];
    c.coinName[i] == l.slug && c.coinSymbol[i] == l.symbol &&
    c.marketCap[i] == q.marketCap && c.percentChange1h[i] == q.percentChange1h &&
    c.percentChange24h[i] == q.percentChange24h && c.percentChange7d[i] == q.percentChange7d &&
    c.price[i] == q.price && c.volume24h[i] == q.volume24h
  }

  /** The first loop of `load_data`: `coins[str(i['id'])] = i['slug']` for every
      listing in turn. Every listing's key is present and nothing else is; a
      repeated id keeps the slug of its last occurrence. */
  method BuildSlugIndex(ls: seq<Listing>) returns (coins: map<string, string>)
    ensures coins.Keys == KeysOf(ls, |ls|)
    ensures forall i :: 0 <= i < |ls| && IsLastWithId(ls, i, |ls|) ==> coins[Key(ls[i])] == ls[i].slug
  {
    coins := map[];
    var n := 0;
    while n < |ls|
      invariant 0 <= n <= |ls|
      invariant coins.Keys == KeysOf(ls, n)
      invariant forall i :: 0 <= i < n && IsLastWithId(ls, i, n) ==> coins[Key(ls[i])] == ls[i].slug
    {
      KeysOfStep(ls, n);
      LastWriteStep(ls, n, coins);
      coins := coins[Key(ls[n]) := ls[n].slug];
      n := n + 1;
    }
  }

  /** One more write `coins[str(id)] = slug` keeps "the last listing so far
      with each id owns its key". */
  lemma LastWriteStep(ls: seq<Listing>, n: int, coins: map<string, string>)
    requires 0 <= n < |ls|
    requires coins.Keys == KeysOf(ls, n)
    requires forall i :: 0 <= i < n && IsLastWithId(ls, i, n) ==> coins[Key(ls[i])] == ls[i].slug
    ensures forall i :: 0 <= i < n + 1 && IsLastWithId(ls, i, n + 1) ==>
              coins[Key(ls[n]) := ls[n].slug][Key(ls[i])] == ls[i].slug
  {
    var next := coins[Key(ls[n]) := ls[n].slug];
    forall i | 0 <= i < n + 1 && IsLastWithId(ls, i, n + 1)
      ensures next[Key(ls[i])] == ls[i].slug
    {
      if i < n {
        assert ls[n].id != ls[i].id;
        Strings.IntStringInjective(ls[i].id, ls[n].id);
        assert IsLastWithId(ls, i, n);
      }
    }
  }

  /** The keys of the first `n` listings. */
  ghost function KeysOf(ls: seq<Listing>, n: int): set<string>
    requires 0 <= n <= |ls|
  {
    set i | 0 <= i < n :: Key(ls[i])
  }

  lemma KeysOfStep(ls: seq<Listing>, n: int)
    requires 0 <= n < |ls|
    ensures KeysOf(ls, n + 1) == KeysOf(ls, n) + {Key(ls[n])}
  {
  }

  /** The second loop of `load_data`: append each listing's slug, symbol and
      quote fields for `unit` to the eight column lists. Fails at the first
      listing whose `quote` lacks `unit`; otherwise every column has one entry
      per listing, taken from that listing. */
  method BuildColumns(ls: seq<Listing>, unit: string) returns (r: Result<Columns, LoadError>)
    ensures r.Success? <==> forall i :: 0 <= i < |ls| ==> unit in ls[i].quote
    ensures r.Failure? ==> r.error.index < |ls| && unit !in ls[r.error.index].quote &&
                           forall i :: 0 <= i < r.error.index ==> unit in ls[i].quote
    ensures r.Success? ==> Rectangular(r.value) && |r.value.coinName| == |ls| &&
                           forall i :: 0 <= i < |ls| ==> ColumnsAgreeAt(r.value, i, ls[i], unit)
  {
    var coinName, coinSymbol: seq<string> := [], [];
    var marketCap, change1h, change24h, change7d, price, volume: seq<real> := [], [], [], [], [], [];
    var n := 0;
    while n < |ls|
      invariant 0 <= n <= |ls|
      invariant forall i :: 0 <= i < n ==> unit in ls[i].quote
      invariant |coinName| == |coinSymbol| == |marketCap| == |change1h| == n
      invariant |change24h| == |change7d| == |price| == |volume| == n
      invariant forall i :: 0 <= i < n ==>
        var q := ls[i].quote[unit];
        coinName[i] == ls[i].slug && coinSymbol[i] == ls[i].symbol &&
        marketCap[i] == q.marketCap && change1h[i] == q.percentChange1h &&
        change24h[i] == q.percentChange24h && change7d[i] == q.percentChange7d &&
        price[i] == q.price && volume[i] == q.volume24h
    {
      if unit !in ls[n].quote {
        return Failure(MissingQuote(n));
      }
      var q := ls[n].quote[unit];
      coinName := coinName + [ls[n].slug];
      coinSymbol := coinSymbol + [ls[n].symbol];
      price := price + [q.price];
      change1h := change1h + [q.percentChange1h];
      change24h := change24h + [q.percentChange24h];
      change7d := change7d + [q.percentChange7d];
      marketCap := marketCap + [q.marketCap];
      volume := volume + [q.volume24h];
      n := n + 1;
    }
    r := Success(Columns(coinName, coinSymbol, marketCap, change1h, change24h, change7d, price, volume));
  }

  /** The DataFrame built column by column from equal-length lists: row `i`
      takes entry `i` of every column. */
  function Assemble(c: Columns): (t: seq<CoinRow>)
    requires Rectangular(c)
  {
    seq(|c.coinName|, i requires 0 <= i < |c.coinName| =>
      CoinRow(c.coinName[i], c.coinSymbol[i], c.marketCap[i], c.percentChange1h[i],
              c.percentChange24h[i], c.percentChange7d[i], c.price[i], c.volume24h[i]))
  }

  /** Reading the columns back out of a table. */
  function ColumnsOf(t: seq<CoinRow>): (c: Columns)
  {
    Columns(
      seq(|t|, i requires 0 <= i < |t| => t[i].coinName),
      seq(|t|, i requires 0 <= i < |t| => t[i].coinSymbol),
      seq(|t|, i requires 0 <= i < |t| => t[i].marketCap),
      seq(|t|, i requires 0 <= i < |t| => t[i].percentChange1h),
      seq(|t|, i requires 0 <= i < |t| => t[i].percentChange24h),
      seq(|t|, i requires 0 <= i < |t| => t[i].percentChange7d),
      seq(|t|, i requires 0 <= i < |t| => t[i].price),
      seq(|t|, i requires 0 <= i < |t| => t[i].volume24h))
  }

  /** Assembling rectangular columns loses nothing: its columns are the lists it
      was built from. */
  lemma AssembleColumnsRoundTrip(c: Columns)
    requires Rectangular(c)
    ensures |Assemble(c)| == |c.coinName|
    ensures ColumnsOf(Assemble(c)) == c
  {
  }

  /** Every table is the assembly of its own columns. */
  lemma ColumnsAssembleRoundTrip(t: seq<CoinRow>)
    ensures Rectangular(ColumnsOf(t)) && |ColumnsOf(t).coinName| == |t|
    ensures Assemble(ColumnsOf(t)) == t
  {
  }

  /** `load_data` after the JSON decoding: build the (unused) id-to-slug
      dictionary, then the columns, then the table. The table has exactly one
      row per listing, row `i` made from `ls[i]`; a listing without a quote in
      `unit` is an error at its position. */
  method LoadData(ls: seq<Listing>, unit: string) returns (r: Result<seq<CoinRow>, LoadError>)
    ensures r.Success? <==> forall i :: 0 <= i < |ls| ==> unit in ls[i].quote
    ensures r.Failure? ==> r.error.index < |ls| && unit !in ls[r.error.index].quote &&
                           forall i :: 0 <= i < r.error.index ==> unit in ls[i].quote
    ensures r.Success? ==> |r.value| == |ls| &&
                           forall i :: 0 <= i < |ls| ==> r.value[i] == RowOf(ls[i], unit)
  {
    var coins := BuildSlugIndex(ls);
    var columns := BuildColumns(ls, unit);
    if columns.Failure? {
      return Failure(columns.error);
    }
    var t := Assemble(columns.value);
    assert forall i :: 0 <= i < |ls| ==> ColumnsAgreeAt(columns.value, i, ls[i], unit);
    r := Success(t);
  }
}
