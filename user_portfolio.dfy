/**
 * The portfolio across a user's wallets: every wallet's token balances,
 * scaled by their decimals, with dust skipped, merged by token address in
 * order of first appearance, filtered and sorted by balance, largest first.
 */
module UserPortfolio {
  import opened Wrappers
  import opened KeyOrder
  import opened Units
  import opened Sorting

  /** The smallest balance that is shown, exclusive. */
  const Dust: real := 0.0001

  /** One token of the portfolio endpoint, its raw balance read as a number. */
  datatype TokenData = TokenData(
    tokenaddress: string,
    balance: real,
    decimal: nat,
    ticker: string,
    imageurl: string,
    marketAddress: Option<string>)

  /** The body's `data` object, when present, with its `data` array when present. */
  datatype PortfolioData = Missing | PortfolioData(data: Option<seq<TokenData>>)

  datatype PortfolioResponse = PortfolioResponse(success: bool, data: PortfolioData)

  datatype FormattedTokenData = FormattedTokenData(
    tokenAddress: string,
    balance: real,
    ticker: string,
    imageUrl: string,
    marketAddress: Option<string>)

  /** The balance in whole tokens: raw / 10^decimal. */
  function Scaled(t: TokenData): (b: real)
    ensures t.balance >= 0.0 ==> b >= 0.0
  {
    t.balance / Pow10(t.decimal) as real
  }

  /** The token is not skipped as dust. */
  predicate Kept(t: TokenData)
  {
    Scaled(t) > Dust
  }

  /** The merged map: its keys in insertion order and its entries. */
  datatype Combined = Combined(order: seq<string>, entries: map<string, FormattedTokenData>)

  const Empty := Combined([], map[])

  /** The entry a token creates when its address is new. */
  function Entry(t: TokenData, balance: real): (e: FormattedTokenData)
  {
    FormattedTokenData(t.tokenaddress, balance, t.ticker, t.imageurl, t.marketAddress)
  }

  /** One token of the inner `forEach`: dust is skipped, a known address adds to its balance, a new one is appended. */
  function AddToken(c: Combined, t: TokenData): Combined
  {
    if !Kept(t) then c
    else if t.tokenaddress in c.entries then
      var e := c.entries[t.tokenaddress];
      c.(entries := c.entries[t.tokenaddress := e.(balance := e.balance + Scaled(t))])
    else
      Combined(c.order + [t.tokenaddress], c.entries[t.tokenaddress := Entry(t, Scaled(t))])
  }

  function AddTokens(c: Combined, ts: seq<TokenData>): Combined
  {
    if ts == [] then c else AddToken(AddTokens(c, ts[..|ts| - 1]), ts[|ts| - 1])
  }

  /** `response.success && response.data.data`, reading `data` of a missing object aside. */
  predicate Usable(r: PortfolioResponse)
  {
    r.success && r.data.PortfolioData? && r.data.data.Some?
  }

  /** A successful response without a `data` object: reading `data.data` throws. */
  predicate Throws(r: PortfolioResponse)
  {
    r.success && r.data.Missing?
  }

  /** The outer `forEach` over the responses; None when one of them throws. */
  function CombineAll(c: Combined, rs: seq<PortfolioResponse>): Option<Combined>
  {
    if rs == [] then Some(c)
    else
      match CombineAll(c, rs[..|rs| - 1])
      case None => None
      case Some(c1) => CombineStep(c1, rs[|rs| - 1])
  }

  /** One response: it throws, brings its tokens, or is passed over. */
  function CombineStep(c: Combined, r: PortfolioResponse): Option<Combined>
  {
    if Throws(r) then None
    else if Usable(r) then Some(AddTokens(c, r.data.data.value))
    else Some(c)
  }

  /** `Array.from(combinedTokens.values())`: the entries in insertion order. */
  function ValuesOf(c: Combined): seq<FormattedTokenData>
  {
    ValuesIn(c.order, c.entries)
  }

  function AboveDust(es: seq<FormattedTokenData>): (r: seq<FormattedTokenData>)
    ensures |r| <= |es|
    ensures forall i :: 0 <= i < |r| ==> r[i].balance > Dust && r[i] in es
  {
    if es == [] then []
    else AboveDust(es[..|es| - 1]) + (if es[|es| - 1].balance > Dust then [es[|es| - 1]] else [])
  }

  function BalanceOf(e: FormattedTokenData): real
  {
    e.balance
  }

  /** Every fetch produced a response. */
  predicate AllFetched(fetched: seq<Result<PortfolioResponse>>)
  {
    forall i :: 0 <= i < |fetched| ==> fetched[i].Success?
  }

  function Responses(fetched: seq<Result<PortfolioResponse>>): (rs: seq<PortfolioResponse>)
    requires AllFetched(fetched)
    ensures |rs| == |fetched| && forall i :: 0 <= i < |rs| ==> rs[i] == fetched[i].value
  {
    seq(|fetched|, i requires 0 <= i < |fetched| => fetched[i].value)
  }

  /**
   * `fetchUserPortfolio` after the requests: the merged entries above dust,
   * largest balance first; any error (a failed request or a throwing
   * response) gives the empty list.
   */
  function Portfolio(fetched: seq<Result<PortfolioResponse>>): (r: seq<FormattedTokenData>)
    ensures !AllFetched(fetched) ==> r == []
    ensures SortedDesc(r, BalanceOf)
    ensures forall e :: e in r ==> e.balance > Dust
  {
    if !AllFetched(fetched) then []
    else
      match CombineAll(Empty, Responses(fetched))
      case None => []
      case Some(c) =>
        SortedAboveDust(ValuesOf(c));
        SortDesc(AboveDust(ValuesOf(c)), BalanceOf)
  }

  /** Sorting after the dust filter keeps only entries above dust. */
  lemma SortedAboveDust(es: seq<FormattedTokenData>)
    ensures forall e :: e in SortDesc(AboveDust(es), BalanceOf) ==> e.balance > Dust
  {
    forall e | e in SortDesc(AboveDust(es), BalanceOf) ensures e.balance > Dust {
      SortDescSameElements(AboveDust(es), BalanceOf, e);
    }
  }

  /** The nested loops with the map as two local variables, then the final filter and sort. */
  method FetchUserPortfolio(fetched: seq<Result<PortfolioResponse>>) returns (tokens: seq<FormattedTokenData>)
    ensures tokens == Portfolio(fetched)
  {
    var k := 0;
    while k < |fetched|
      invariant 0 <= k <= |fetched|
      invariant forall i :: 0 <= i < k ==> fetched[i].Success?
    {
      if fetched[k].Failure? {
        return [];
      }
      k := k + 1;
    }
    var responses := Responses(fetched);
    var order: seq<string> := [];
    var entries: map<string, FormattedTokenData> := map[];
    var i := 0;
    while i < |responses|
      invariant 0 <= i <= |responses|
      invariant CombineAll(Empty, responses[..i]) == Some(Combined(order, entries))
    {
      assert responses[..i + 1][..i] == responses[..i];
      ghost var c0 := Combined(order, entries);
      var ok;
      ok, order, entries := MergeResponse(order, entries, responses[i]);
      if !ok {
        assert CombineStep(c0, responses[i]).None?;
        CombineAllStops(responses, i);
        return [];
      }
      i := i + 1;
    }
    assert responses[..|responses|] == responses;
    tokens := SortDesc(AboveDust(ValuesOf(Combined(order, entries))), BalanceOf);
  }

  /** One response of the outer `forEach`; ok is false when reading its data throws. */
  method MergeResponse(order: seq<string>, entries: map<string, FormattedTokenData>, r: PortfolioResponse)
    returns (ok: bool, order': seq<string>, entries': map<string, FormattedTokenData>)
    ensures ok <==> CombineStep(Combined(order, entries), r).Some?
    ensures ok ==> CombineStep(Combined(order, entries), r) == Some(Combined(order', entries'))
  {
    ok, order', entries' := true, order, entries;
    if r.success {
      if r.data.Missing? {
        ok := false;
        return;
      }
      if r.data.data.Some? {
        order', entries' := MergeTokens(order, entries, r.data.data.value);
      }
    }
  }

  /** The inner `forEach` over one response's tokens. */
  method MergeTokens(order: seq<string>, entries: map<string, FormattedTokenData>, ts: seq<TokenData>)
    returns (order': seq<string>, entries': map<string, FormattedTokenData>)
    ensures Combined(order', entries') == AddTokens(Combined(order, entries), ts)
  {
    order', entries' := order, entries;
    var j := 0;
    while j < |ts|
      invariant 0 <= j <= |ts|
      invariant AddTokens(Combined(order, entries), ts[..j]) == Combined(order', entries')
    {
      assert ts[..j + 1][..j] == ts[..j];
      order', entries' := MergeToken(order', entries', ts[j]);
      j := j + 1;
    }
    assert ts[..|ts|] == ts;
  }

  /** One token: skipped as dust, added to its address's balance, or inserted. */
  method MergeToken(order: seq<string>, entries: map<string, FormattedTokenData>, t: TokenData)
    returns (order': seq<string>, entries': map<string, FormattedTokenData>)
    ensures Combined(order', entries') == AddToken(Combined(order, entries), t)
  {
    order', entries' := order, entries;
    var scaled := t.balance / Pow10(t.decimal) as real;
    if scaled > Dust {
      if t.tokenaddress in entries {
        var existing := entries[t.tokenaddress];
        entries' := entries[t.tokenaddress := existing.(balance := existing.balance + scaled)];
      } else {
        order' := order + [t.tokenaddress];
        entries' := entries[t.tokenaddress := FormattedTokenData(t.tokenaddress, scaled, t.ticker, t.imageurl, t.marketAddress)];
      }
    }
  }

  // ---------------------------------------------------------------------------
  // The merge

  /** The first token with this address that is not dust. */
  function FirstKept(a: string, ts: seq<TokenData>): (f: Option<TokenData>)
    ensures f.Some? ==> f.value.tokenaddress == a && Kept(f.value) && f.value in ts
  {
    if ts == [] then None
    else
      var init := FirstKept(a, ts[..|ts| - 1]);
      var t := ts[|ts| - 1];
      if init.Some? then init
      else if t.tokenaddress == a && Kept(t) then Some(t)
      else None
  }

  /** The sum of the scaled balances of the tokens with this address that are not dust. */
  function SumKept(a: string, ts: seq<TokenData>): real
  {
    if ts == [] then 0.0
    else
      var t := ts[|ts| - 1];
      SumKept(a, ts[..|ts| - 1]) + (if t.tokenaddress == a && Kept(t) then Scaled(t) else 0.0)
  }

  lemma {:induction false} SumKeptBounds(a: string, ts: seq<TokenData>)
    ensures FirstKept(a, ts).None? ==> SumKept(a, ts) == 0.0
    ensures FirstKept(a, ts).Some? ==> SumKept(a, ts) > Dust
    decreases |ts|
  {
    if ts != [] {
      SumKeptBounds(a, ts[..|ts| - 1]);
    }
  }

  /** Keys in insertion order, each once, with an entry each and nothing else in the map. */
  ghost predicate Inv(c: Combined)
  {
    && (forall i, j :: 0 <= i < j < |c.order| ==> c.order[i] != c.order[j])
    && (forall k :: k in c.entries <==> k in c.order)
  }

  /**
   * The merged map says exactly what the tokens say: an address has an entry
   * iff some token with it is not dust, and that entry is the first such
   * token's ticker, image and market with the sum of all their balances.
   */
  ghost predicate Describes(c: Combined, ts: seq<TokenData>)
  {
    forall a :: DescribesAddress(c, ts, a)
  }

  predicate DescribesAddress(c: Combined, ts: seq<TokenData>, a: string)
  {
    && (a in c.entries <==> FirstKept(a, ts).Some?)
    && (a in c.entries ==> c.entries[a] == Entry(FirstKept(a, ts).value, SumKept(a, ts)))
  }

  lemma {:induction false} MergeDescribes(ts: seq<TokenData>)
    ensures Inv(AddTokens(Empty, ts))
    ensures Describes(AddTokens(Empty, ts), ts)
    decreases |ts|
  {
    if ts != [] {
      var init := ts[..|ts| - 1];
      var t := ts[|ts| - 1];
      MergeDescribes(init);
      var c0 := AddTokens(Empty, init);
      AddTokenKeepsInv(c0, t);
      forall a ensures DescribesAddress(AddToken(c0, t), ts, a) {
        AddTokenDescribesAddress(c0, init, t, ts, a);
      }
    }
  }

  /** Adding a token keeps the addresses distinct and in step with the map. */
  lemma AddTokenKeepsInv(c: Combined, t: TokenData)
    requires Inv(c)
    ensures Inv(AddToken(c, t))
  {
  }

  /** Adding a token to the merge of init gives the merge of init + [t], address by address. */
  lemma AddTokenDescribesAddress(c: Combined, init: seq<TokenData>, t: TokenData, ts: seq<TokenData>, a: string)
    requires DescribesAddress(c, init, a) && ts == init + [t]
    ensures DescribesAddress(AddToken(c, t), ts, a)
  {
    assert ts[..|ts| - 1] == init;
    SumKeptBounds(a, init);
  }

  /** The merge over several token lists is the merge over their concatenation. */
  lemma {:induction false} AddTokensAppend(c: Combined, a: seq<TokenData>, b: seq<TokenData>)
    ensures AddTokens(c, a + b) == AddTokens(AddTokens(c, a), b)
    decreases |b|
  {
    if b != [] {
      assert (a + b)[..|a + b| - 1] == a + b[..|b| - 1];
      AddTokensAppend(c, a, b[..|b| - 1]);
    } else {
      assert a + b == a;
    }
  }

  /** The tokens of the usable responses, in order. */
  function Flatten(rs: seq<PortfolioResponse>): seq<TokenData>
  {
    if rs == [] then []
    else
      var r := rs[|rs| - 1];
      Flatten(rs[..|rs| - 1]) + (if Usable(r) then r.data.data.value else [])
  }

  /** Without a throwing response the merge is one pass over all their tokens. */
  lemma {:induction false} CombineAllFlattens(rs: seq<PortfolioResponse>)
    ensures (forall i :: 0 <= i < |rs| ==> !Throws(rs[i])) <==> CombineAll(Empty, rs).Some?
    ensures CombineAll(Empty, rs).Some? ==> CombineAll(Empty, rs).value == AddTokens(Empty, Flatten(rs))
    decreases |rs|
  {
    if rs != [] {
      var init := rs[..|rs| - 1];
      var r := rs[|rs| - 1];
      CombineAllFlattens(init);
      assert forall i :: 0 <= i < |init| ==> init[i] == rs[i];
      if CombineAll(Empty, init).Some? && !Throws(r) {
        AddTokensAppend(Empty, Flatten(init), if Usable(r) then r.data.data.value else []);
      }
    }
  }

  /** Once a response throws, the whole merge fails. */
  lemma {:induction false} CombineAllStops(rs: seq<PortfolioResponse>, i: nat)
    requires i < |rs| && CombineAll(Empty, rs[..i + 1]).None?
    ensures CombineAll(Empty, rs).None?
    decreases |rs|
  {
    if i + 1 < |rs| {
      var init := rs[..|rs| - 1];
      assert init[..i + 1] == rs[..i + 1];
      CombineAllStops(init, i);
    } else {
      assert rs[..i + 1] == rs;
    }
  }

  lemma {:induction false} AboveDustKeepsAll(es: seq<FormattedTokenData>)
    requires forall i :: 0 <= i < |es| ==> es[i].balance > Dust
    ensures AboveDust(es) == es
    decreases |es|
  {
    if es != [] {
      var init := es[..|es| - 1];
      forall i | 0 <= i < |init| ensures init[i].balance > Dust {
        assert init[i] == es[i];
      }
      AboveDustKeepsAll(init);
      assert init + [es[|es| - 1]] == es;
    }
  }

  /**
   * What a list of entries says about the tokens: one entry per address;
   * an entry for an address iff one of its tokens is above dust; each
   * entry the first such token's metadata with the sum of their balances,
   * which is above dust.
   */
  ghost predicate MergedFrom(vs: seq<FormattedTokenData>, ts: seq<TokenData>)
  {
    && (forall i, j :: 0 <= i < j < |vs| ==> vs[i].tokenAddress != vs[j].tokenAddress)
    && (forall e :: e in vs ==>
          (&& e.balance > Dust
           && FirstKept(e.tokenAddress, ts).Some?
           && e == Entry(FirstKept(e.tokenAddress, ts).value, SumKept(e.tokenAddress, ts))))
    && (forall t :: t in ts && Kept(t) ==> exists e :: e in vs && e.tokenAddress == t.tokenaddress)
  }

  lemma MergedValues(ts: seq<TokenData>)
    ensures MergedFrom(ValuesOf(AddTokens(Empty, ts)), ts)
  {
    var c := AddTokens(Empty, ts);
    MergeDescribes(ts);
    ValuesOfKeys(c.order, c.entries);
    var vs := ValuesOf(c);
    forall k | 0 <= k < |c.order|
      ensures && FirstKept(c.order[k], ts).Some?
              && vs[k] == Entry(FirstKept(c.order[k], ts).value, SumKept(c.order[k], ts))
    {
      assert DescribesAddress(c, ts, c.order[k]);
    }
    forall a | FirstKept(a, ts).Some? ensures a in c.order {
      assert DescribesAddress(c, ts, a);
    }
    MergedOfListing(vs, c.order, ts);
  }

  /** Entries listed one per distinct address, covering every address kept, are the merge. */
  lemma MergedOfListing(vs: seq<FormattedTokenData>, order: seq<string>, ts: seq<TokenData>)
    requires forall i, j :: 0 <= i < j < |order| ==> order[i] != order[j]
    requires |vs| == |order|
    requires forall k :: 0 <= k < |order| ==>
               && FirstKept(order[k], ts).Some?
               && vs[k] == Entry(FirstKept(order[k], ts).value, SumKept(order[k], ts))
    requires forall a :: FirstKept(a, ts).Some? ==> a in order
    ensures MergedFrom(vs, ts)
  {
    forall e | e in vs
      ensures e.balance > Dust && FirstKept(e.tokenAddress, ts).Some?
      ensures e == Entry(FirstKept(e.tokenAddress, ts).value, SumKept(e.tokenAddress, ts))
    {
      var k :| 0 <= k < |vs| && vs[k] == e;
      SumKeptBounds(order[k], ts);
    }
    forall t | t in ts && Kept(t) ensures exists e :: e in vs && e.tokenAddress == t.tokenaddress {
      FirstKeptExists(t.tokenaddress, ts, t);
      var k :| 0 <= k < |order| && order[k] == t.tokenaddress;
      assert vs[k] in vs;
    }
  }

  /** Sorting entries keeps everything they say about the tokens. */
  lemma SortKeepsMerged(vs: seq<FormattedTokenData>, ts: seq<TokenData>)
    requires MergedFrom(vs, ts)
    ensures MergedFrom(SortDesc(vs, BalanceOf), ts)
  {
    var out := SortDesc(vs, BalanceOf);
    forall e ensures e in out <==> e in vs {
      SortDescSameElements(vs, BalanceOf, e);
    }
    assert Distinct(vs);
    PermutationKeepsDistinct(vs, out);
    forall i, j | 0 <= i < j < |out| ensures out[i].tokenAddress != out[j].tokenAddress {
      assert out[i] in vs && out[j] in vs;
      assert out[i] != out[j];
      EntryOfAddress(vs, ts, out[i], out[j]);
    }
  }

  /** Two entries of merged values with one address are the same entry. */
  lemma EntryOfAddress(vs: seq<FormattedTokenData>, ts: seq<TokenData>, e1: FormattedTokenData, e2: FormattedTokenData)
    requires MergedFrom(vs, ts) && e1 in vs && e2 in vs
    ensures e1.tokenAddress == e2.tokenAddress ==> e1 == e2
  {
  }

  /**
   * The portfolio of responses that all arrived and none of which throws:
   * ordered by balance, largest first, and describing exactly the tokens of
   * the usable responses.
   */
  lemma PortfolioContents(fetched: seq<Result<PortfolioResponse>>)
    requires AllFetched(fetched)
    requires forall i :: 0 <= i < |fetched| ==> !Throws(fetched[i].value)
    ensures SortedDesc(Portfolio(fetched), BalanceOf)
    ensures MergedFrom(Portfolio(fetched), Flatten(Responses(fetched)))
  {
    var rs := Responses(fetched);
    CombineAllFlattens(rs);
    var ts := Flatten(rs);
    MergedValues(ts);
    var vs := ValuesOf(AddTokens(Empty, ts));
    assert Portfolio(fetched) == SortDesc(AboveDust(vs), BalanceOf);
    AboveDustKeepsAll(vs);
    SortKeepsMerged(vs, ts);
  }

  lemma {:induction false} FirstKeptExists(a: string, ts: seq<TokenData>, t: TokenData)
    requires t in ts && Kept(t) && t.tokenaddress == a
    ensures FirstKept(a, ts).Some?
    decreases |ts|
  {
    if t != ts[|ts| - 1] {
      assert ts == ts[..|ts| - 1] + [ts[|ts| - 1]];
      FirstKeptExists(a, ts[..|ts| - 1], t);
    }
  }

  /** Any failed request, or a throwing response, gives the empty list. */
  lemma ErrorsGiveEmpty(fetched: seq<Result<PortfolioResponse>>)
    requires !AllFetched(fetched) || exists i :: 0 <= i < |fetched| && fetched[i].Success? && Throws(fetched[i].value)
    ensures Portfolio(fetched) == []
  {
    if AllFetched(fetched) {
      CombineAllFlattens(Responses(fetched));
    }
  }
}
