/**
 * Profit and loss per user and token: the users with a wallet list (or only
 * the requested one), the PnL items every wallet's request returns, the
 * side of each pair that is not an ignored asset, amounts in units of
 * 10^-8, entries summed per user and token in order of first appearance,
 * and the percentage gain of each entry.
 */
module UserPnL {
  import opened Wrappers
  import opened KeyOrder
  import opened Text

  /** Assets never reported on their own: the zero address and the wrapped native token. */
  const IgnoredAddresses: seq<string> := [
    "0x0000000000000000000000000000000000000000",
    "0xf817257fed379853cde0fa4f97ab987181b1e5ea"
  ]

  /** Raw amounts are divided by 10^8, whatever the token's decimals. */
  const AmountScale: real := 100000000.0

  /** A user document: its id and the fields read from its data; `wallets` is None unless it is an array. */
  datatype UserDoc = UserDoc(id: string, username: Option<string>, pfpUrl: Option<string>, wallets: Option<seq<string>>)

  datatype User = User(id: string, username: Option<string>, pfpUrl: Option<string>, wallets: seq<string>)

  /** JavaScript truthiness of an optional string argument. */
  predicate Truthy(s: Option<string>)
  {
    s.Some? && s.value != ""
  }

  /** The document is pushed: it has a wallet array and, when an id is asked for, it is that id. */
  predicate Selected(d: UserDoc, userId: Option<string>)
  {
    d.wallets.Some? && (Truthy(userId) ==> d.id == userId.value)
  }

  function ToUser(d: UserDoc): User
    requires d.wallets.Some?
  {
    User(d.id, d.username, d.pfpUrl, d.wallets.value)
  }

  /** The users the PnL is computed for, in document order. */
  function Users(docs: seq<UserDoc>, userId: Option<string>): (r: seq<User>)
    ensures |r| <= |docs|
    ensures forall u :: u in r ==> exists d :: d in docs && Selected(d, userId) && u == ToUser(d)
    ensures Truthy(userId) ==> forall u :: u in r ==> u.id == userId.value
  {
    if docs == [] then []
    else
      var d := docs[|docs| - 1];
      Users(docs[..|docs| - 1], userId) + (if Selected(d, userId) then [ToUser(d)] else [])
  }

  /** The two `forEach` loops over the user documents, one per branch on `userId`. */
  method SelectUsers(docs: seq<UserDoc>, userId: Option<string>) returns (users: seq<User>)
    ensures users == Users(docs, userId)
  {
    users := [];
    var i := 0;
    if Truthy(userId) {
      while i < |docs|
        invariant 0 <= i <= |docs|
        invariant users == Users(docs[..i], userId)
      {
        assert docs[..i + 1][..i] == docs[..i];
        var d := docs[i];
        if d.id == userId.value {
          if d.wallets.Some? {
            users := users + [User(d.id, d.username, d.pfpUrl, d.wallets.value)];
          }
        }
        i := i + 1;
      }
    } else {
      while i < |docs|
        invariant 0 <= i <= |docs|
        invariant users == Users(docs[..i], userId)
      {
        assert docs[..i + 1][..i] == docs[..i];
        var d := docs[i];
        if d.wallets.Some? {
          users := users + [User(d.id, d.username, d.pfpUrl, d.wallets.value)];
        }
        i := i + 1;
      }
    }
    assert docs[..|docs|] == docs;
  }

  /** A user is taken exactly when some document with a wallet array, and the requested id if any, gives it. */
  lemma {:induction false} UsersSelected(docs: seq<UserDoc>, userId: Option<string>, u: User)
    ensures u in Users(docs, userId) <==> exists i :: 0 <= i < |docs| && Selected(docs[i], userId) && u == ToUser(docs[i])
    decreases |docs|
  {
    if docs != [] {
      var init := docs[..|docs| - 1];
      UsersSelected(init, userId, u);
      assert forall i :: 0 <= i < |init| ==> init[i] == docs[i];
      if exists i :: 0 <= i < |docs| && Selected(docs[i], userId) && u == ToUser(docs[i]) {
        var i :| 0 <= i < |docs| && Selected(docs[i], userId) && u == ToUser(docs[i]);
        if i < |init| {
          assert Selected(init[i], userId) && u == ToUser(init[i]);
        }
      }
    }
  }

  // ---------------------------------------------------------------------------
  // The items of the PnL endpoint

  datatype PnlToken = PnlToken(address: string, ticker: string, imageurl: string)

  /** One item of `data.data`: a market's two assets and tokens, and the user's raw amounts read as numbers. */
  datatype PnlItem = PnlItem(
    baseasset: Option<string>,
    quoteasset: Option<string>,
    basetoken: Option<PnlToken>,
    quotetoken: Option<PnlToken>,
    market: string,
    totalInvested: real,
    totalSold: real)

  /** The body: `success`, and `data.data` when `data` is present and `data.data` is an array. */
  datatype PnlResponse = PnlResponse(success: bool, items: Option<seq<PnlItem>>)

  predicate Ignored(asset: Option<string>)
  {
    asset.Some? && Lower(asset.value) in IgnoredAddresses
  }

  /** The quote token when the base asset is ignored, the base token otherwise. */
  function ChosenToken(item: PnlItem): Option<PnlToken>
  {
    if Ignored(item.baseasset) then item.quotetoken else item.basetoken
  }

  /** The item is aggregated: not both assets ignored, and something was sold. */
  predicate Counted(item: PnlItem)
  {
    !(Ignored(item.baseasset) && Ignored(item.quoteasset)) && item.totalSold != 0.0
  }

  /** An item together with the user whose wallet returned it. */
  datatype Row = Row(user: User, item: PnlItem)

  /** `${token?.address}`: a missing token prints as "undefined". */
  function KeyAddress(t: Option<PnlToken>): string
  {
    match t
    case Some(tok) => tok.address
    case None => "undefined"
  }

  /** The aggregation key `${user.id}_${token?.address}`. */
  function RowKey(row: Row): string
  {
    row.user.id + "_" + KeyAddress(ChosenToken(row.item))
  }

  function Invested(item: PnlItem): real
  {
    item.totalInvested / AmountScale
  }

  function Sold(item: PnlItem): real
  {
    item.totalSold / AmountScale
  }

  /** An aggregated entry; the token fields are None when the chosen token is missing. */
  datatype PnlEntry = PnlEntry(
    userId: string,
    username: Option<string>,
    pfpUrl: Option<string>,
    tokenAddress: Option<string>,
    ticker: Option<string>,
    imageUrl: Option<string>,
    marketAddress: string,
    totalInvested: real,
    totalSold: real)

  /** The user's and the chosen token's fields of a row, with the given totals. */
  function EntryOf(row: Row, invested: real, sold: real): PnlEntry
  {
    var t := ChosenToken(row.item);
    PnlEntry(
      row.user.id, row.user.username, row.user.pfpUrl,
      if t.Some? then Some(t.value.address) else None,
      if t.Some? then Some(t.value.ticker) else None,
      if t.Some? then Some(t.value.imageurl) else None,
      row.item.market, invested, sold)
  }

  /** `userTokenMap`: its keys in insertion order and its entries. */
  datatype Totals = Totals(order: seq<string>, entries: map<string, PnlEntry>)

  const Empty := Totals([], map[])

  /** One item of the inner `forEach`. */
  function AddRow(c: Totals, row: Row): (r: Totals)
    ensures !Counted(row.item) ==> r == c
    ensures r.order == c.order || (RowKey(row) !in c.entries && r.order == c.order + [RowKey(row)])
    ensures r.entries.Keys == c.entries.Keys + (if Counted(row.item) then {RowKey(row)} else {})
    ensures (forall k :: k in c.order <==> k in c.entries) ==> (forall k :: k in r.order <==> k in r.entries)
  {
    if !Counted(row.item) then c
    else
      var k := RowKey(row);
      if k in c.entries then
        var prev := c.entries[k];
        c.(entries := c.entries[k := prev.(totalInvested := prev.totalInvested + Invested(row.item),
                                           totalSold := prev.totalSold + Sold(row.item))])
      else
        Totals(c.order + [k], c.entries[k := EntryOf(row, Invested(row.item), Sold(row.item))])
  }

  function AddRows(c: Totals, rows: seq<Row>): Totals
  {
    if rows == [] then c else AddRow(AddRows(c, rows[..|rows| - 1]), rows[|rows| - 1])
  }

  function RowsOf(u: User, items: seq<PnlItem>): (rows: seq<Row>)
    ensures |rows| == |items| && forall i :: 0 <= i < |items| ==> rows[i] == Row(u, items[i])
  {
    seq(|items|, i requires 0 <= i < |items| => Row(u, items[i]))
  }

  predicate Usable(r: PnlResponse)
  {
    r.success && r.items.Some?
  }

  /** The rows a response contributes: its items when usable, none otherwise. */
  function ResponseRows(u: User, r: PnlResponse): seq<Row>
  {
    if Usable(r) then RowsOf(u, r.items.value) else []
  }

  /**
   * The rows a user's wallets contribute, wallet by wallet; a request that
   * fails (the fetch or the JSON body) fails the whole computation.
   */
  function WalletRows(u: User, wallets: seq<string>, api: string -> Result<PnlResponse>): Result<seq<Row>>
  {
    if wallets == [] then Success([])
    else
      var init :- WalletRows(u, wallets[..|wallets| - 1], api);
      var r :- api(wallets[|wallets| - 1]);
      Success(init + ResponseRows(u, r))
  }

  /** The rows of every user, user by user. */
  function Fetched(users: seq<User>, api: string -> Result<PnlResponse>): Result<seq<Row>>
  {
    if users == [] then Success([])
    else
      var init :- Fetched(users[..|users| - 1], api);
      var rows :- WalletRows(users[|users| - 1], users[|users| - 1].wallets, api);
      Success(init + rows)
  }

  /** The gain as a percentage of what was invested; 0 when nothing positive was invested. */
  function PnlPercent(invested: real, sold: real): real
  {
    if invested > 0.0 then (sold - invested) / invested * 100.0 else 0.0
  }

  datatype UserPnLToken = UserPnLToken(
    userId: string,
    username: Option<string>,
    pfpUrl: Option<string>,
    tokenAddress: Option<string>,
    ticker: Option<string>,
    imageUrl: Option<string>,
    marketAddress: string,
    totalInvested: real,
    totalSold: real,
    pnlPercent: real)

  function Finalize(e: PnlEntry): UserPnLToken
  {
    UserPnLToken(e.userId, e.username, e.pfpUrl, e.tokenAddress, e.ticker, e.imageUrl, e.marketAddress,
                 e.totalInvested, e.totalSold, PnlPercent(e.totalInvested, e.totalSold))
  }

  function Finalized(es: seq<PnlEntry>): (r: seq<UserPnLToken>)
    ensures |r| == |es| && forall i :: 0 <= i < |es| ==> r[i] == Finalize(es[i])
  {
    seq(|es|, i requires 0 <= i < |es| => Finalize(es[i]))
  }

  /** `fetchUserPnL(userId)` for these user documents and this endpoint. */
  function PnL(docs: seq<UserDoc>, userId: Option<string>, api: string -> Result<PnlResponse>): (r: Result<seq<UserPnLToken>>)
    ensures r.Failure? <==> Fetched(Users(docs, userId), api).Failure?
    ensures r.Failure? ==> r.error == Fetched(Users(docs, userId), api).error
    ensures r.Success? ==> forall i :: 0 <= i < |r.value| ==>
              r.value[i].pnlPercent == PnlPercent(r.value[i].totalInvested, r.value[i].totalSold)
  {
    var rows :- Fetched(Users(docs, userId), api);
    var c := AddRows(Empty, rows);
    Success(Finalized(ValuesIn(c.order, c.entries)))
  }

  /**
   * `fetchUserPnL`: the users, then each user's wallets in turn updating the
   * one map, then the percentage of every entry in insertion order.
   */
  method FetchUserPnL(docs: seq<UserDoc>, userId: Option<string>, api: string -> Result<PnlResponse>)
    returns (r: Result<seq<UserPnLToken>>)
    ensures r == PnL(docs, userId, api)
  {
    var users := SelectUsers(docs, userId);
    var userTokenMap := Empty;
    ghost var rows: seq<Row> := [];
    var i := 0;
    while i < |users|
      invariant 0 <= i <= |users|
      invariant Fetched(users[..i], api) == Success(rows)
      invariant AddRows(Empty, rows) == userTokenMap
    {
      var user := users[i];
      assert users[..i + 1][..i] == users[..i];
      assert users[..i + 1][i] == user;
      var next := AddWallets(userTokenMap, user, api, rows);
      if next.Failure? {
        FetchedStops(users, api, i + 1);
        return Failure(next.error);
      }
      rows := rows + WalletRows(user, user.wallets, api).value;
      userTokenMap := next.value;
      i := i + 1;
    }
    assert users[..|users|] == users;
    r := Success(Finalized(ValuesIn(userTokenMap.order, userTokenMap.entries)));
  }

  /** The inner `Promise.all` for one user: each wallet's request, then its items. */
  method AddWallets(c: Totals, user: User, api: string -> Result<PnlResponse>, ghost before: seq<Row>)
    returns (r: Result<Totals>)
    requires AddRows(Empty, before) == c
    ensures r.Failure? <==> WalletRows(user, user.wallets, api).Failure?
    ensures r.Failure? ==> r.error == WalletRows(user, user.wallets, api).error
    ensures r.Success? ==> r.value == AddRows(Empty, before + WalletRows(user, user.wallets, api).value)
  {
    var userTokenMap := c;
    ghost var userRows: seq<Row> := [];
    assert user.wallets[..0] == [];
    assert before + userRows == before;
    var w := 0;
    while w < |user.wallets|
      invariant 0 <= w <= |user.wallets|
      invariant WalletRows(user, user.wallets[..w], api) == Success(userRows)
      invariant AddRows(Empty, before + userRows) == userTokenMap
    {
      WalletRowsStep(user, user.wallets, api, w);
      var res := api(user.wallets[w]);
      if res.Failure? {
        WalletRowsStops(user, user.wallets, api, w + 1);
        return Failure(res.error);
      }
      userTokenMap := AddResponse(userTokenMap, user, res.value, before + userRows);
      RowsAssoc(before, userRows, ResponseRows(user, res.value));
      userRows := userRows + ResponseRows(user, res.value);
      w := w + 1;
    }
    assert user.wallets[..|user.wallets|] == user.wallets;
    r := Success(userTokenMap);
  }

  /** One wallet's response: its items when the request succeeded and returned some. */
  method AddResponse(c: Totals, user: User, json: PnlResponse, ghost before: seq<Row>) returns (c': Totals)
    requires AddRows(Empty, before) == c
    ensures c' == AddRows(Empty, before + ResponseRows(user, json))
  {
    if json.success && json.items.Some? {
      c' := AddItems(c, user, json.items.value, before);
    } else {
      assert before + [] == before;
      c' := c;
    }
  }

  lemma RowsAssoc(a: seq<Row>, b: seq<Row>, c: seq<Row>)
    ensures a + b + c == a + (b + c)
  {
  }

  /** The `forEach` over one response's items. */
  method AddItems(c: Totals, user: User, items: seq<PnlItem>, ghost before: seq<Row>) returns (c': Totals)
    requires AddRows(Empty, before) == c
    ensures c' == AddRows(Empty, before + RowsOf(user, items))
  {
    c' := c;
    var k := 0;
    assert before + RowsOf(user, items[..0]) == before;
    while k < |items|
      invariant 0 <= k <= |items|
      invariant AddRows(Empty, before + RowsOf(user, items[..k])) == c'
    {
      AddRowsStep(before, user, items, k);
      c' := AddItem(c', user, items[k]);
      k := k + 1;
    }
    assert items[..|items|] == items;
  }

  lemma AddRowsStep(before: seq<Row>, user: User, items: seq<PnlItem>, k: nat)
    requires k < |items|
    ensures AddRows(Empty, before + RowsOf(user, items[..k + 1]))
            == AddRow(AddRows(Empty, before + RowsOf(user, items[..k])), Row(user, items[k]))
  {
    var next := before + RowsOf(user, items[..k + 1]);
    assert next[..|next| - 1] == before + RowsOf(user, items[..k]);
    assert next[|next| - 1] == Row(user, items[k]);
  }

  /** One item: the ignored-asset test, the token choice, the zero-sale skip and the update of its key. */
  method AddItem(c: Totals, user: User, item: PnlItem) returns (c': Totals)
    ensures c' == AddRow(c, Row(user, item))
  {
    c' := c;
    var baseIgnored := item.baseasset.Some? && Lower(item.baseasset.value) in IgnoredAddresses;
    var quoteIgnored := item.quoteasset.Some? && Lower(item.quoteasset.value) in IgnoredAddresses;
    if baseIgnored && quoteIgnored {
      return;
    }
    var token: Option<PnlToken>;
    var marketAddress: string;
    if baseIgnored {
      token := item.quotetoken;
      marketAddress := item.market;
    } else if quoteIgnored {
      token := item.basetoken;
      marketAddress := item.market;
    } else {
      token := item.basetoken;
      marketAddress := item.market;
    }
    var invested := item.totalInvested;
    var sold := item.totalSold;
    if sold == 0.0 {
      return;
    }
    var formattedInvested := invested / AmountScale;
    var formattedSold := sold / AmountScale;
    var key := user.id + "_" + (if token.Some? then token.value.address else "undefined");
    if key in c.entries {
      var prev := c.entries[key];
      c' := c.(entries := c.entries[key := prev.(totalInvested := prev.totalInvested + formattedInvested,
                                                 totalSold := prev.totalSold + formattedSold)]);
    } else {
      c' := Totals(c.order + [key], c.entries[key := PnlEntry(
        user.id, user.username, user.pfpUrl,
        if token.Some? then Some(token.value.address) else None,
        if token.Some? then Some(token.value.ticker) else None,
        if token.Some? then Some(token.value.imageurl) else None,
        marketAddress, formattedInvested, formattedSold)]);
    }
  }

  /** One more wallet: its failure, or its usable items appended. */
  lemma WalletRowsStep(u: User, ws: seq<string>, api: string -> Result<PnlResponse>, w: nat)
    requires w < |ws| && WalletRows(u, ws[..w], api).Success?
    ensures api(ws[w]).Failure? ==> WalletRows(u, ws[..w + 1], api) == Failure(api(ws[w]).error)
    ensures api(ws[w]).Success? ==>
              var r := api(ws[w]).value;
              WalletRows(u, ws[..w + 1], api)
                == Success(WalletRows(u, ws[..w], api).value + ResponseRows(u, r))
  {
    var prefix := ws[..w + 1];
    assert prefix[..|prefix| - 1] == ws[..w] && prefix[|prefix| - 1] == ws[w];
  }

  /** Once a wallet's request fails, the user's rows fail with its error. */
  lemma {:induction false} WalletRowsStops(u: User, ws: seq<string>, api: string -> Result<PnlResponse>, n: nat)
    requires n <= |ws| && WalletRows(u, ws[..n], api).Failure?
    ensures WalletRows(u, ws, api) == WalletRows(u, ws[..n], api)
    decreases |ws|
  {
    if n < |ws| {
      var init := ws[..|ws| - 1];
      assert init[..n] == ws[..n];
      WalletRowsStops(u, init, api, n);
    } else {
      assert ws[..n] == ws;
    }
  }

  /** Once a user's requests fail, everything fails with that error. */
  lemma {:induction false} FetchedStops(users: seq<User>, api: string -> Result<PnlResponse>, n: nat)
    requires n <= |users| && Fetched(users[..n], api).Failure?
    ensures Fetched(users, api) == Fetched(users[..n], api)
    decreases |users|
  {
    if n < |users| {
      var init := users[..|users| - 1];
      assert init[..n] == users[..n];
      FetchedStops(init, api, n);
    } else {
      assert users[..n] == users;
    }
  }

  // ---------------------------------------------------------------------------
  // What the aggregation computes

  /** The first counted row with this key. */
  function FirstCounted(k: string, rows: seq<Row>): (f: Option<Row>)
    ensures f.Some? ==> RowKey(f.value) == k && Counted(f.value.item) && f.value in rows
  {
    if rows == [] then None
    else
      var init := FirstCounted(k, rows[..|rows| - 1]);
      var row := rows[|rows| - 1];
      if init.Some? then init
      else if RowKey(row) == k && Counted(row.item) then Some(row)
      else None
  }

  /** The scaled invested amounts of the counted rows with this key, summed. */
  function SumInvested(k: string, rows: seq<Row>): real
  {
    if rows == [] then 0.0
    else
      var row := rows[|rows| - 1];
      SumInvested(k, rows[..|rows| - 1]) + (if RowKey(row) == k && Counted(row.item) then Invested(row.item) else 0.0)
  }

  /** The scaled sold amounts of the counted rows with this key, summed. */
  function SumSold(k: string, rows: seq<Row>): real
  {
    if rows == [] then 0.0
    else
      var row := rows[|rows| - 1];
      SumSold(k, rows[..|rows| - 1]) + (if RowKey(row) == k && Counted(row.item) then Sold(row.item) else 0.0)
  }

  /** Without a counted row for a key, nothing is summed for it. */
  lemma {:induction false} SumsOfAbsentKey(k: string, rows: seq<Row>)
    ensures FirstCounted(k, rows).None? ==> SumInvested(k, rows) == 0.0 && SumSold(k, rows) == 0.0
    decreases |rows|
  {
    if rows != [] {
      SumsOfAbsentKey(k, rows[..|rows| - 1]);
    }
  }

  /** Keys in insertion order, each once, with an entry each and nothing else in the map. */
  ghost predicate Inv(c: Totals)
  {
    && (forall i, j :: 0 <= i < j < |c.order| ==> c.order[i] != c.order[j])
    && (forall k :: k in c.entries <==> k in c.order)
  }

  /**
   * The map says exactly what the rows say: a key has an entry iff a
   * counted row has it, and the entry is that first row's user and token
   * fields with the sums over all such rows.
   */
  ghost predicate Describes(c: Totals, rows: seq<Row>)
  {
    forall k :: DescribesKey(c, rows, k)
  }

  predicate DescribesKey(c: Totals, rows: seq<Row>, k: string)
  {
    && (k in c.entries <==> FirstCounted(k, rows).Some?)
    && (k in c.entries ==> c.entries[k] == EntryOf(FirstCounted(k, rows).value, SumInvested(k, rows), SumSold(k, rows)))
  }

  lemma {:induction false} AggregateDescribes(rows: seq<Row>)
    ensures Inv(AddRows(Empty, rows))
    ensures Describes(AddRows(Empty, rows), rows)
    decreases |rows|
  {
    if rows != [] {
      var init := rows[..|rows| - 1];
      var row := rows[|rows| - 1];
      AggregateDescribes(init);
      var c0 := AddRows(Empty, init);
      AddRowKeepsInv(c0, row);
      forall k ensures DescribesKey(AddRow(c0, row), rows, k) {
        AddRowDescribesKey(c0, init, row, rows, k);
      }
    }
  }

  /** Adding a row keeps the keys distinct and in step with the map. */
  lemma AddRowKeepsInv(c: Totals, row: Row)
    requires Inv(c)
    ensures Inv(AddRow(c, row))
  {
  }

  /** Adding a row to the aggregate of init gives the aggregate of init + [row], key by key. */
  lemma AddRowDescribesKey(c: Totals, init: seq<Row>, row: Row, rows: seq<Row>, k: string)
    requires DescribesKey(c, init, k) && rows == init + [row]
    ensures DescribesKey(AddRow(c, row), rows, k)
  {
    assert rows[..|rows| - 1] == init;
    SumsOfAbsentKey(k, init);
  }

  /** The key an output record was aggregated under. */
  function TokenKey(p: UserPnLToken): string
  {
    p.userId + "_" + p.tokenAddress.GetOr("undefined")
  }

  /** The expected output record for a key. */
  function Expected(k: string, rows: seq<Row>): UserPnLToken
    requires FirstCounted(k, rows).Some?
  {
    Finalize(EntryOf(FirstCounted(k, rows).value, SumInvested(k, rows), SumSold(k, rows)))
  }

  /**
   * What a list of records says about the rows: one record per key; a
   * record for a key iff a counted row has it; each record that key's first
   * row's fields with the summed amounts and their percentage.
   */
  ghost predicate Aggregated(ps: seq<UserPnLToken>, rows: seq<Row>)
  {
    && (forall i, j :: 0 <= i < j < |ps| ==> TokenKey(ps[i]) != TokenKey(ps[j]))
    && (forall p :: p in ps ==> FirstCounted(TokenKey(p), rows).Some? && p == Expected(TokenKey(p), rows))
    && (forall row :: row in rows && Counted(row.item) ==> exists p :: p in ps && TokenKey(p) == RowKey(row))
  }

  lemma KeyOfEntry(row: Row, invested: real, sold: real)
    ensures TokenKey(Finalize(EntryOf(row, invested, sold))) == RowKey(row)
  {
  }

  lemma {:induction false} FirstCountedExists(k: string, rows: seq<Row>, row: Row)
    requires row in rows && Counted(row.item) && RowKey(row) == k
    ensures FirstCounted(k, rows).Some?
    decreases |rows|
  {
    if row != rows[|rows| - 1] {
      assert rows == rows[..|rows| - 1] + [rows[|rows| - 1]];
      FirstCountedExists(k, rows[..|rows| - 1], row);
    }
  }

  /** The records of a successful run are exactly the aggregation of the fetched rows. */
  lemma PnLContents(docs: seq<UserDoc>, userId: Option<string>, api: string -> Result<PnlResponse>)
    requires PnL(docs, userId, api).Success?
    ensures Fetched(Users(docs, userId), api).Success?
    ensures Aggregated(PnL(docs, userId, api).value, Fetched(Users(docs, userId), api).value)
  {
    AggregatedValues(Fetched(Users(docs, userId), api).value);
  }

  /** The final mapping over the map's values describes the rows it aggregated. */
  lemma AggregatedValues(rows: seq<Row>)
    ensures Aggregated(Finalized(ValuesIn(AddRows(Empty, rows).order, AddRows(Empty, rows).entries)), rows)
  {
    var c := AddRows(Empty, rows);
    AggregateDescribes(rows);
    ListedInOrder(c, rows);
    forall k | FirstCounted(k, rows).Some? ensures k in c.order {
      assert DescribesKey(c, rows, k);
    }
    AggregatedOfListing(Finalized(ValuesIn(c.order, c.entries)), c.order, rows);
  }

  /** Records listed one per distinct key, covering every key with a counted row, are the aggregation. */
  lemma AggregatedOfListing(ps: seq<UserPnLToken>, order: seq<string>, rows: seq<Row>)
    requires forall i, j :: 0 <= i < j < |order| ==> order[i] != order[j]
    requires |ps| == |order|
    requires forall i :: 0 <= i < |order| ==>
               && FirstCounted(order[i], rows).Some?
               && ps[i] == Expected(order[i], rows)
               && TokenKey(ps[i]) == order[i]
    requires forall k :: FirstCounted(k, rows).Some? ==> k in order
    ensures Aggregated(ps, rows)
  {
    forall p | p in ps ensures FirstCounted(TokenKey(p), rows).Some? && p == Expected(TokenKey(p), rows) {
      var i :| 0 <= i < |ps| && ps[i] == p;
    }
    forall row | row in rows && Counted(row.item) ensures exists p :: p in ps && TokenKey(p) == RowKey(row) {
      FirstCountedExists(RowKey(row), rows, row);
      var i :| 0 <= i < |order| && order[i] == RowKey(row);
      assert ps[i] in ps;
    }
  }

  /** The i-th record is the expected record of the i-th key. */
  lemma ListedInOrder(c: Totals, rows: seq<Row>)
    requires Inv(c) && Describes(c, rows)
    ensures |Finalized(ValuesIn(c.order, c.entries))| == |c.order|
    ensures forall i :: 0 <= i < |c.order| ==>
              && FirstCounted(c.order[i], rows).Some?
              && Finalized(ValuesIn(c.order, c.entries))[i] == Expected(c.order[i], rows)
              && TokenKey(Finalized(ValuesIn(c.order, c.entries))[i]) == c.order[i]
  {
    ValuesOfKeys(c.order, c.entries);
    var ps := Finalized(ValuesIn(c.order, c.entries));
    forall i | 0 <= i < |c.order|
      ensures && FirstCounted(c.order[i], rows).Some?
              && ps[i] == Expected(c.order[i], rows)
              && TokenKey(ps[i]) == c.order[i]
    {
      var k := c.order[i];
      assert DescribesKey(c, rows, k);
      RecordOfKey(c, rows, k);
    }
  }

  /** The record made from a key's entry is that key's expected record. */
  lemma RecordOfKey(c: Totals, rows: seq<Row>, k: string)
    requires DescribesKey(c, rows, k) && k in c.entries
    ensures FirstCounted(k, rows).Some?
    ensures Finalize(c.entries[k]) == Expected(k, rows) && TokenKey(Finalize(c.entries[k])) == k
  {
    KeyOfEntry(FirstCounted(k, rows).value, SumInvested(k, rows), SumSold(k, rows));
  }

  /** A failed request makes the whole run fail. */
  lemma FailedRequestFails(docs: seq<UserDoc>, userId: Option<string>, api: string -> Result<PnlResponse>)
    requires Fetched(Users(docs, userId), api).Failure?
    ensures PnL(docs, userId, api) == Failure(Fetched(Users(docs, userId), api).error)
  {
  }

  // ---------------------------------------------------------------------------
  // Items, keys and percentages

  /**
   * The reported token is the quote token when the base asset is ignored,
   * and then the quote asset is not; otherwise it is the base token.
   */
  lemma ChosenSideNotIgnored(item: PnlItem)
    requires !(Ignored(item.baseasset) && Ignored(item.quoteasset))
    ensures Ignored(item.baseasset) ==> ChosenToken(item) == item.quotetoken && !Ignored(item.quoteasset)
    ensures !Ignored(item.baseasset) ==> ChosenToken(item) == item.basetoken
  {
  }

  /** The ignored-address test does not depend on ASCII case. */
  lemma IgnoredIgnoresCase(a: string, b: string)
    requires |a| == |b|
    requires forall i :: 0 <= i < |a| ==> LowerChar(a[i]) == LowerChar(b[i])
    ensures Ignored(Some(a)) <==> Ignored(Some(b))
  {
    LowerIgnoresCase(a, b);
  }

  /** An item whose assets are both ignored, or with nothing sold, adds nothing. */
  lemma UncountedRowAddsNothing(c: Totals, row: Row)
    requires (Ignored(row.item.baseasset) && Ignored(row.item.quoteasset)) || row.item.totalSold == 0.0
    ensures AddRow(c, row) == c
  {
  }

  predicate NoUnderscore(s: string)
  {
    forall i :: 0 <= i < |s| ==> s[i] != '_'
  }

  /**
   * Keys separate users and tokens as long as token addresses contain no
   * underscore (hexadecimal addresses and "undefined" do not).
   */
  lemma KeyInjective(u1: string, a1: string, u2: string, a2: string)
    requires NoUnderscore(a1) && NoUnderscore(a2)
    requires u1 + "_" + a1 == u2 + "_" + a2
    ensures u1 == u2 && a1 == a2
  {
    var s := u1 + "_" + a1;
    AfterLastOfKey(u1, a1);
    AfterLastOfKey(u2, a2);
    assert u1 == s[..|u1|];
    assert u2 == s[..|u2|];
  }

  /** The characters after the last underscore, or the whole string when it has none. */
  function AfterLast(s: string): string
  {
    if s == [] || s[|s| - 1] == '_' then [] else AfterLast(s[..|s| - 1]) + [s[|s| - 1]]
  }

  lemma {:induction false} AfterLastOfKey(u: string, a: string)
    requires NoUnderscore(a)
    ensures AfterLast(u + "_" + a) == a
    decreases |a|
  {
    var s := u + "_" + a;
    if a != [] {
      var init := a[..|a| - 1];
      assert s[..|s| - 1] == u + "_" + init;
      AfterLastOfKey(u, init);
      assert a == init + [a[|a| - 1]];
    }
  }

  /** The percentage read back: it scales to the gain over what was invested, with its sign. */
  lemma PnlPercentMeaning(invested: real, sold: real)
    ensures invested > 0.0 ==> PnlPercent(invested, sold) * invested == (sold - invested) * 100.0
    ensures invested > 0.0 ==> (PnlPercent(invested, sold) > 0.0 <==> sold > invested)
    ensures invested > 0.0 ==> (PnlPercent(invested, sold) < 0.0 <==> sold < invested)
    ensures invested <= 0.0 ==> PnlPercent(invested, sold) == 0.0
  {
    if invested > 0.0 {
      var q := (sold - invested) / invested;
      assert q * invested == sold - invested;
      assert q > 0.0 <==> sold > invested;
      assert q < 0.0 <==> sold < invested;
    }
  }
}
