/** The trending-markets list: a field-for-field projection of the API's records. */
module TrendingMarkets {
  import opened Wrappers
  import opened Api

  /** A token as both the API and the result describe it. */
  datatype TokenImage = TokenImage(ticker: string, imageurl: string)

  /** One record of the trending endpoint. */
  datatype ApiToken = ApiToken(market: string, basetoken: TokenImage, quotetoken: TokenImage, volume5m: real)

  datatype TrendingTokenPair = TrendingTokenPair(marketAddress: string, baseToken: TokenImage, quoteToken: TokenImage,
                                                 volume5m: real)

  /** The pair for one record: the market address, both tokens' ticker and image, the 5-minute volume. */
  function ToPair(t: ApiToken): (p: TrendingTokenPair)
    ensures p.marketAddress == t.market && p.volume5m == t.volume5m
    ensures p.baseToken.ticker == t.basetoken.ticker && p.baseToken.imageurl == t.basetoken.imageurl
    ensures p.quoteToken.ticker == t.quotetoken.ticker && p.quoteToken.imageurl == t.quotetoken.imageurl
  {
    TrendingTokenPair(t.market, TokenImage(t.basetoken.ticker, t.basetoken.imageurl),
                      TokenImage(t.quotetoken.ticker, t.quotetoken.imageurl), t.volume5m)
  }

  /** The `map` over the records: one pair per record, in the same order. */
  function ToPairs(ts: seq<ApiToken>): (ps: seq<TrendingTokenPair>)
    ensures |ps| == |ts|
    ensures forall i :: 0 <= i < |ts| ==> ps[i] == ToPair(ts[i])
  {
    if ts == [] then [] else ToPairs(ts[..|ts| - 1]) + [ToPair(ts[|ts| - 1])]
  }

  /** The projection loses nothing: the records can be read back from the pairs. */
  function FromPair(p: TrendingTokenPair): (t: ApiToken)
  {
    ApiToken(p.marketAddress, p.baseToken, p.quoteToken, p.volume5m)
  }

  lemma PairsRoundTrip(ts: seq<ApiToken>)
    ensures forall i :: 0 <= i < |ts| ==> FromPair(ToPairs(ts)[i]) == ts[i]
  {
  }

  lemma ToPairsAppend(a: seq<ApiToken>, b: seq<ApiToken>)
    ensures ToPairs(a + b) == ToPairs(a) + ToPairs(b)
  {
    var l, r := ToPairs(a + b), ToPairs(a) + ToPairs(b);
    assert |l| == |r|;
    forall i | 0 <= i < |l| ensures l[i] == r[i] {
      if i < |a| {
        assert (a + b)[i] == a[i];
      } else {
        assert (a + b)[i] == b[i - |a|];
      }
    }
  }

  datatype TrendingTokensResponse = TrendingTokensResponse(trendingPairs: seq<TrendingTokenPair>)

  /** `fetchTrendingMarkets` after the request: an error for a non-ok status, else the pairs. */
  function FetchTrendingMarkets(resp: Response<ApiToken>): (r: Result<TrendingTokensResponse>)
    ensures r.Failure? <==> !resp.ok
    ensures r.Failure? ==> r.error == StatusError(resp.status)
    ensures r.Success? && resp.items.None? ==> r.value.trendingPairs == []
    ensures r.Success? && resp.items.Some? ==> r.value.trendingPairs == ToPairs(resp.items.value)
  {
    var ts :- ResponseItems(resp);
    Success(TrendingTokensResponse(ToPairs(ts)))
  }
}
