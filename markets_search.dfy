/**
 * The market search: the query is trimmed and lowered, markets whose tokens
 * or address match it are kept in order, and each kept market is shown
 * under its matching token (the quote token when it matches, otherwise the
 * base token).
 */
module MarketsSearch {
  import opened Wrappers
  import opened Text
  import opened Api

  datatype Token = Token(name: string, ticker: string, address: string, imageurl: string, decimal: int)

  /** One record of the search endpoint. */
  datatype Market = Market(
    market: string,
    basetoken: Token,
    quotetoken: Token,
    lastPrice: real,
    lastPriceMonUSD: real,
    buyCount1h: int,
    sellCount1h: int,
    volume1h: real)

  datatype OtherToken = OtherToken(name: string, ticker: string, address: string, imageurl: string, decimal: int)

  datatype MarketResult = MarketResult(
    tokenName: string,
    ticker: string,
    contractAddress: string,
    marketAddress: string,
    image: string,
    lastPrice: real,
    lastPriceMonUSD: real,
    buyCount1h: int,
    sellCount1h: int,
    volume1h: real,
    decimal: int,
    otherToken: OtherToken)

  /**
   * The query as every comparison sees it: a lower-cased piece of the query
   * with only white space cut from either end, holding no ASCII capital and
   * neither starting nor ending with white space.
   */
  function Normalize(query: string): (q: string)
    ensures |q| <= |query|
    ensures forall i :: 0 <= i < |q| ==> !('A' <= q[i] <= 'Z')
    ensures q == [] || (!IsWhiteSpace(q[0]) && !IsWhiteSpace(q[|q| - 1]))
    ensures exists a, b :: 0 <= a <= b <= |query| && q == Lower(query[a..b])
                           && AllWhiteSpace(query[..a]) && AllWhiteSpace(query[b..])
  {
    LowerTrimShape(query);
    Lower(Trim(query))
  }

  /** A token matches: its address equals the query, or its name or ticker contains it, ignoring case. */
  predicate TokenMatches(q: string, t: Token)
  {
    Lower(t.address) == q || Contains(Lower(t.name), q) || Contains(Lower(t.ticker), q)
  }

  /** The filter's predicate, in the source's order of tests. */
  predicate Matches(q: string, m: Market)
  {
    || Lower(m.basetoken.address) == q
    || Lower(m.quotetoken.address) == q
    || Contains(Lower(m.basetoken.name), q)
    || Contains(Lower(m.quotetoken.name), q)
    || Contains(Lower(m.basetoken.ticker), q)
    || Contains(Lower(m.quotetoken.ticker), q)
    || Lower(m.market) == q
  }

  /** A market is kept iff one of its tokens matches or its own address is the query. */
  lemma MatchesByToken(q: string, m: Market)
    ensures Matches(q, m) <==> TokenMatches(q, m.basetoken) || TokenMatches(q, m.quotetoken) || Lower(m.market) == q
  {
  }

  /** The `filter`: the matching markets, in input order. */
  function Filter(q: string, ms: seq<Market>): (r: seq<Market>)
    ensures |r| <= |ms|
    ensures forall i :: 0 <= i < |r| ==> Matches(q, r[i]) && r[i] in ms
  {
    if ms == [] then []
    else
      var init := Filter(q, ms[..|ms| - 1]);
      if Matches(q, ms[|ms| - 1]) then init + [ms[|ms| - 1]] else init
  }

  /** Filtering a concatenation filters each part: order is kept and nothing moves across. */
  lemma {:induction false} FilterAppend(q: string, a: seq<Market>, b: seq<Market>)
    ensures Filter(q, a + b) == Filter(q, a) + Filter(q, b)
    decreases |b|
  {
    if b == [] {
      assert a + b == a;
    } else {
      var b0 := b[..|b| - 1];
      assert (a + b)[..|a + b| - 1] == a + b0;
      assert (a + b)[|a + b| - 1] == b[|b| - 1];
      FilterAppend(q, a, b0);
    }
  }

  /** A market is in the filtered list iff it is in the input and matches. */
  lemma {:induction false} FilterMembership(q: string, ms: seq<Market>, m: Market)
    ensures m in Filter(q, ms) <==> m in ms && Matches(q, m)
    decreases |ms|
  {
    if ms != [] {
      var init := ms[..|ms| - 1];
      FilterMembership(q, init, m);
      assert ms == init + [ms[|ms| - 1]];
    }
  }

  /** The query matches inside the quote token, so the quote token is shown. */
  predicate QuoteIsMain(q: string, m: Market)
  {
    Lower(m.quotetoken.address) == q || Contains(Lower(m.quotetoken.name), q) || Contains(Lower(m.quotetoken.ticker), q)
  }

  function ToOther(t: Token): (o: OtherToken)
    ensures o.name == t.name && o.ticker == t.ticker && o.address == t.address
    ensures o.imageurl == t.imageurl && o.decimal == t.decimal
  {
    OtherToken(t.name, t.ticker, t.address, t.imageurl, t.decimal)
  }

  /**
   * The `map`'s projection: the main token's name, ticker, address, image and
   * decimals, the market's address and statistics, and the other token.
   */
  function ToResult(q: string, m: Market): (r: MarketResult)
  {
    var (main, other) := if QuoteIsMain(q, m) then (m.quotetoken, m.basetoken) else (m.basetoken, m.quotetoken);
    MarketResult(main.name, main.ticker, main.address, m.market, main.imageurl, m.lastPrice, m.lastPriceMonUSD,
                 m.buyCount1h, m.sellCount1h, m.volume1h, main.decimal, ToOther(other))
  }

  /** The main token of a result, and the other one, as tokens of the market. */
  predicate ShowsToken(r: MarketResult, m: Market, main: Token, other: Token)
  {
    && r.tokenName == main.name && r.ticker == main.ticker && r.contractAddress == main.address
    && r.image == main.imageurl && r.decimal == main.decimal
    && r.otherToken == ToOther(other)
    && r.marketAddress == m.market
    && r.lastPrice == m.lastPrice && r.lastPriceMonUSD == m.lastPriceMonUSD
    && r.buyCount1h == m.buyCount1h && r.sellCount1h == m.sellCount1h && r.volume1h == m.volume1h
  }

  /**
   * The quote token is shown whenever it matches, even when the base token
   * matches too; otherwise the base token is; the other token is always the
   * remaining one.
   */
  lemma ToResultChoosesToken(q: string, m: Market)
    ensures TokenMatches(q, m.quotetoken) ==> ShowsToken(ToResult(q, m), m, m.quotetoken, m.basetoken)
    ensures !TokenMatches(q, m.quotetoken) ==> ShowsToken(ToResult(q, m), m, m.basetoken, m.quotetoken)
  {
  }

  function ToResults(q: string, ms: seq<Market>): (rs: seq<MarketResult>)
    ensures |rs| == |ms|
    ensures forall i :: 0 <= i < |ms| ==> rs[i] == ToResult(q, ms[i])
  {
    if ms == [] then [] else ToResults(q, ms[..|ms| - 1]) + [ToResult(q, ms[|ms| - 1])]
  }

  /** The search over the fetched records. */
  function Search(query: string, ms: seq<Market>): (rs: seq<MarketResult>)
    ensures |rs| <= |ms|
  {
    var q := Normalize(query);
    ToResults(q, Filter(q, ms))
  }

  /**
   * Every result shows a market of the input that matches, under the token
   * the quote-first rule chooses.
   */
  lemma SearchResultsMatch(query: string, ms: seq<Market>, i: nat)
    requires i < |Search(query, ms)|
    ensures var q := Normalize(query);
            var m := Filter(q, ms)[i];
            && m in ms && Matches(q, m)
            && Search(query, ms)[i] == ToResult(q, m)
            && Search(query, ms)[i].marketAddress == m.market
  {
  }

  /** An empty or blank query keeps every market and shows each under its quote token. */
  lemma BlankQueryKeepsAll(query: string, ms: seq<Market>)
    requires AllWhiteSpace(query)
    ensures |Search(query, ms)| == |ms|
    ensures forall i :: 0 <= i < |ms| ==> ShowsToken(Search(query, ms)[i], ms[i], ms[i].quotetoken, ms[i].basetoken)
  {
    TrimAllWhiteSpace(query);
    assert Normalize(query) == "";
    forall m | m in ms ensures Matches("", m) && QuoteIsMain("", m) {
      ContainsEmpty(Lower(m.quotetoken.name));
      ContainsEmpty(Lower(m.basetoken.name));
    }
    FilterKeepsAll("", ms);
  }

  /** When every market matches, the filter keeps the list as it is. */
  lemma {:induction false} FilterKeepsAll(q: string, ms: seq<Market>)
    requires forall m :: m in ms ==> Matches(q, m)
    ensures Filter(q, ms) == ms
    decreases |ms|
  {
    if ms != [] {
      FilterKeepsAll(q, ms[..|ms| - 1]);
      assert ms[..|ms| - 1] + [ms[|ms| - 1]] == ms;
    }
  }

  /**
   * `fetchMarketsSearch` after the request: an error for a non-ok status,
   * nothing when the body has no array, otherwise the search.
   */
  function FetchMarketsSearch(query: string, resp: Response<Market>): (r: Result<seq<MarketResult>>)
    ensures r.Failure? <==> !resp.ok
    ensures r.Failure? ==> r.error == StatusError(resp.status)
    ensures r.Success? && resp.items.None? ==> r.value == []
    ensures r.Success? && resp.items.Some? ==> r.value == Search(query, resp.items.value)
  {
    var ms :- ResponseItems(resp);
    Success(Search(query, ms))
  }
}
