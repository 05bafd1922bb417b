/**
 * The per-user summary of the PnL page: the token records summed per user
 * (name and picture from the user's first record), each user's percentage
 * gain, and the users ordered by that percentage, largest first.
 */
module PnlSummary {
  import opened Wrappers
  import opened Sorting
  import opened UserPnL

  datatype UserTotal = UserTotal(
    username: Option<string>,
    pfpUrl: Option<string>,
    totalInvested: real,
    totalSold: real,
    totalPnl: real,
    pnlPercent: real)

  /** `userTotals`: its keys in insertion order and its records. */
  datatype Tally = Tally(order: seq<string>, totals: map<string, UserTotal>)

  const NoTotals := Tally([], map[])

  /** One row of the `forEach`: a new user gets a zero record first, then the row's amounts are added. */
  function AddRecord(t: Tally, row: UserPnLToken): Tally
  {
    var t1 := if row.userId in t.totals then t
              else Tally(t.order + [row.userId], t.totals[row.userId := UserTotal(row.username, row.pfpUrl, 0.0, 0.0, 0.0, 0.0)]);
    var u := t1.totals[row.userId];
    t1.(totals := t1.totals[row.userId := u.(totalInvested := u.totalInvested + row.totalInvested,
                                             totalSold := u.totalSold + row.totalSold,
                                             totalPnl := u.totalPnl + (row.totalSold - row.totalInvested))])
  }

  function Tallied(rows: seq<UserPnLToken>): Tally
  {
    if rows == [] then NoTotals else AddRecord(Tallied(rows[..|rows| - 1]), rows[|rows| - 1])
  }

  /** The second `forEach`: the percentage from the summed gain. */
  function WithPercent(u: UserTotal): UserTotal
  {
    u.(pnlPercent := if u.totalInvested > 0.0 then u.totalPnl / u.totalInvested * 100.0 else 0.0)
  }

  /** `Object.entries(userTotals)` once the percentages are set. */
  function EntriesIn(order: seq<string>, totals: map<string, UserTotal>): seq<(string, UserTotal)>
  {
    if order == [] then []
    else
      var last := order[|order| - 1];
      EntriesIn(order[..|order| - 1], totals) + (if last in totals then [(last, WithPercent(totals[last]))] else [])
  }

  function PercentOf(e: (string, UserTotal)): real
  {
    e.1.pnlPercent
  }

  /** The rows of the summary table, in display order. */
  function Summary(rows: seq<UserPnLToken>): (r: seq<(string, UserTotal)>)
    ensures SortedDesc(r, PercentOf)
    ensures forall e :: e in r ==> HasPercent(e.1)
  {
    var t := Tallied(rows);
    SortedHavePercent(t.order, t.totals);
    SortDesc(EntriesIn(t.order, t.totals), PercentOf)
  }

  /** The record's percentage is its summed gain over its summed investment, or 0 without investment. */
  predicate HasPercent(u: UserTotal)
  {
    u.pnlPercent == if u.totalInvested > 0.0 then u.totalPnl / u.totalInvested * 100.0 else 0.0
  }

  lemma {:induction false} ListedHavePercent(order: seq<string>, totals: map<string, UserTotal>)
    ensures forall e :: e in EntriesIn(order, totals) ==> HasPercent(e.1)
    decreases |order|
  {
    if order != [] {
      ListedHavePercent(order[..|order| - 1], totals);
    }
  }

  /** Sorting the listed records keeps every record's percentage. */
  lemma SortedHavePercent(order: seq<string>, totals: map<string, UserTotal>)
    ensures forall e :: e in SortDesc(EntriesIn(order, totals), PercentOf) ==> HasPercent(e.1)
  {
    ListedHavePercent(order, totals);
    forall e | e in SortDesc(EntriesIn(order, totals), PercentOf) ensures HasPercent(e.1) {
      SortDescSameElements(EntriesIn(order, totals), PercentOf, e);
    }
  }

  /** The two `forEach` loops over the rows and over the records, then `Object.entries` and the sort. */
  method Summarize(data: seq<UserPnLToken>) returns (summary: seq<(string, UserTotal)>)
    ensures summary == Summary(data)
  {
    var order, userTotals := TallyRows(data);
    TallyInv(data);
    var withPercent := SetPercents(order, userTotals);
    var entries := ListEntries(order, withPercent, userTotals);
    summary := SortDesc(entries, PercentOf);
  }

  /** The `forEach` over the rows. */
  method TallyRows(data: seq<UserPnLToken>) returns (order: seq<string>, userTotals: map<string, UserTotal>)
    ensures Tally(order, userTotals) == Tallied(data)
  {
    order := [];
    userTotals := map[];
    var i := 0;
    while i < |data|
      invariant 0 <= i <= |data|
      invariant Tallied(data[..i]) == Tally(order, userTotals)
    {
      var row := data[i];
      assert data[..i + 1][..i] == data[..i];
      if row.userId !in userTotals {
        order := order + [row.userId];
        userTotals := userTotals[row.userId := UserTotal(row.username, row.pfpUrl, 0.0, 0.0, 0.0, 0.0)];
      }
      var u := userTotals[row.userId];
      userTotals := userTotals[row.userId := u.(totalInvested := u.totalInvested + row.totalInvested,
                                                totalSold := u.totalSold + row.totalSold,
                                                totalPnl := u.totalPnl + (row.totalSold - row.totalInvested))];
      i := i + 1;
    }
    assert data[..|data|] == data;
  }

  /** `Object.values(userTotals).forEach`: every record gets its percentage; nothing else changes. */
  method SetPercents(order: seq<string>, userTotals: map<string, UserTotal>) returns (updated: map<string, UserTotal>)
    requires forall k :: k in order ==> k in userTotals
    ensures updated.Keys == userTotals.Keys
    ensures forall k :: k in updated ==> updated[k] == if k in order then WithPercent(userTotals[k]) else userTotals[k]
  {
    updated := userTotals;
    var j := 0;
    while j < |order|
      invariant 0 <= j <= |order|
      invariant updated.Keys == userTotals.Keys
      invariant forall k :: k in updated ==> updated[k] == if k in order[..j] then WithPercent(userTotals[k]) else userTotals[k]
    {
      var user := updated[order[j]];
      assert order[..j + 1] == order[..j] + [order[j]];
      updated := updated[order[j] := user.(pnlPercent := if user.totalInvested > 0.0 then user.totalPnl / user.totalInvested * 100.0 else 0.0)];
      j := j + 1;
    }
    assert order[..|order|] == order;
  }

  /** `Object.entries(userTotals)` in insertion order. */
  method ListEntries(order: seq<string>, updated: map<string, UserTotal>, ghost userTotals: map<string, UserTotal>)
    returns (entries: seq<(string, UserTotal)>)
    requires forall k :: k in order ==> k in userTotals && k in updated && updated[k] == WithPercent(userTotals[k])
    ensures entries == EntriesIn(order, userTotals)
  {
    entries := [];
    var n := 0;
    while n < |order|
      invariant 0 <= n <= |order|
      invariant entries == EntriesIn(order[..n], userTotals)
    {
      assert order[..n + 1][..n] == order[..n];
      entries := entries + [(order[n], updated[order[n]])];
      n := n + 1;
    }
    assert order[..|order|] == order;
  }

  // ---------------------------------------------------------------------------
  // What the totals are

  /** The user's first row. */
  function FirstRow(id: string, rows: seq<UserPnLToken>): (f: Option<UserPnLToken>)
    ensures f.Some? ==> f.value.userId == id && f.value in rows
  {
    if rows == [] then None
    else
      var init := FirstRow(id, rows[..|rows| - 1]);
      var row := rows[|rows| - 1];
      if init.Some? then init else if row.userId == id then Some(row) else None
  }

  /** The invested amounts of the user's rows, summed. */
  function SumInvested(id: string, rows: seq<UserPnLToken>): real
  {
    if rows == [] then 0.0
    else
      var row := rows[|rows| - 1];
      SumInvested(id, rows[..|rows| - 1]) + (if row.userId == id then row.totalInvested else 0.0)
  }

  /** The sold amounts of the user's rows, summed. */
  function SumSold(id: string, rows: seq<UserPnLToken>): real
  {
    if rows == [] then 0.0
    else
      var row := rows[|rows| - 1];
      SumSold(id, rows[..|rows| - 1]) + (if row.userId == id then row.totalSold else 0.0)
  }

  lemma {:induction false} SumsOfAbsentUser(id: string, rows: seq<UserPnLToken>)
    ensures FirstRow(id, rows).None? ==> SumInvested(id, rows) == 0.0 && SumSold(id, rows) == 0.0
    decreases |rows|
  {
    if rows != [] {
      SumsOfAbsentUser(id, rows[..|rows| - 1]);
    }
  }

  /** The record a user's rows add up to, before the percentage is set. */
  function UserTotalOf(id: string, rows: seq<UserPnLToken>): UserTotal
    requires FirstRow(id, rows).Some?
  {
    var first := FirstRow(id, rows).value;
    UserTotal(first.username, first.pfpUrl, SumInvested(id, rows), SumSold(id, rows),
              SumSold(id, rows) - SumInvested(id, rows), 0.0)
  }

  /** Keys in insertion order, each once, with a record each and nothing else. */
  ghost predicate TallyOk(t: Tally)
  {
    && (forall i, j :: 0 <= i < j < |t.order| ==> t.order[i] != t.order[j])
    && (forall k :: k in t.totals <==> k in t.order)
  }

  /**
   * The records say what the rows say: a user has one iff some row is
   * theirs, and it holds their first row's name and picture, the sums of
   * their amounts, and a gain equal to sold minus invested.
   */
  ghost predicate TallyDescribes(t: Tally, rows: seq<UserPnLToken>)
  {
    forall id :: DescribesUser(t, rows, id)
  }

  predicate DescribesUser(t: Tally, rows: seq<UserPnLToken>, id: string)
  {
    && (id in t.totals <==> FirstRow(id, rows).Some?)
    && (id in t.totals ==> t.totals[id] == UserTotalOf(id, rows))
  }

  lemma {:induction false} TallyInv(rows: seq<UserPnLToken>)
    ensures TallyOk(Tallied(rows))
    ensures TallyDescribes(Tallied(rows), rows)
    decreases |rows|
  {
    if rows != [] {
      var init := rows[..|rows| - 1];
      var row := rows[|rows| - 1];
      TallyInv(init);
      var t0 := Tallied(init);
      AddRecordKeepsOk(t0, row);
      forall id ensures DescribesUser(AddRecord(t0, row), rows, id) {
        AddRecordDescribesUser(t0, init, row, rows, id);
      }
    }
  }

  /** Adding a record keeps the ids distinct and in step with the map. */
  lemma AddRecordKeepsOk(t: Tally, row: UserPnLToken)
    requires TallyOk(t)
    ensures TallyOk(AddRecord(t, row))
  {
  }

  /** Adding a record to the tally of init gives the tally of init + [row], user by user. */
  lemma AddRecordDescribesUser(t: Tally, init: seq<UserPnLToken>, row: UserPnLToken, rows: seq<UserPnLToken>, id: string)
    requires DescribesUser(t, init, id) && rows == init + [row]
    ensures DescribesUser(AddRecord(t, row), rows, id)
  {
    assert rows[..|rows| - 1] == init;
    SumsOfAbsentUser(id, init);
  }

  lemma {:induction false} EntriesOfKeys(order: seq<string>, totals: map<string, UserTotal>)
    requires forall k :: k in order ==> k in totals
    ensures |EntriesIn(order, totals)| == |order|
    ensures forall i :: 0 <= i < |order| ==> EntriesIn(order, totals)[i] == (order[i], WithPercent(totals[order[i]]))
    decreases |order|
  {
    if order != [] {
      EntriesOfKeys(order[..|order| - 1], totals);
    }
  }

  /**
   * What the table says about the rows: one line per user; a line for a
   * user iff they have a row; each line their summed record with its
   * percentage.
   */
  ghost predicate Summarizes(es: seq<(string, UserTotal)>, rows: seq<UserPnLToken>)
  {
    && (forall i, j :: 0 <= i < j < |es| ==> es[i].0 != es[j].0)
    && (forall e :: e in es ==> FirstRow(e.0, rows).Some? && e.1 == WithPercent(UserTotalOf(e.0, rows)))
    && (forall row :: row in rows ==> exists e :: e in es && e.0 == row.userId)
  }

  lemma {:induction false} FirstRowExists(id: string, rows: seq<UserPnLToken>, row: UserPnLToken)
    requires row in rows && row.userId == id
    ensures FirstRow(id, rows).Some?
    decreases |rows|
  {
    if row != rows[|rows| - 1] {
      assert rows == rows[..|rows| - 1] + [rows[|rows| - 1]];
      FirstRowExists(id, rows[..|rows| - 1], row);
    }
  }

  /** The entries before sorting describe the rows. */
  lemma EntriesSummarize(rows: seq<UserPnLToken>)
    ensures Summarizes(EntriesIn(Tallied(rows).order, Tallied(rows).totals), rows)
  {
    var t := Tallied(rows);
    TallyInv(rows);
    EntriesOfKeys(t.order, t.totals);
    var es := EntriesIn(t.order, t.totals);
    forall i | 0 <= i < |t.order|
      ensures FirstRow(t.order[i], rows).Some? && es[i] == (t.order[i], WithPercent(UserTotalOf(t.order[i], rows)))
    {
      assert DescribesUser(t, rows, t.order[i]);
    }
    forall row | row in rows ensures row.userId in t.order {
      FirstRowExists(row.userId, rows, row);
      assert DescribesUser(t, rows, row.userId);
    }
    SummarizesOfListing(es, t.order, rows);
  }

  /** One line per distinct id, each the id's total, covering every row's user, is the summary. */
  lemma SummarizesOfListing(es: seq<(string, UserTotal)>, order: seq<string>, rows: seq<UserPnLToken>)
    requires forall i, j :: 0 <= i < j < |order| ==> order[i] != order[j]
    requires |es| == |order|
    requires forall i :: 0 <= i < |order| ==>
               FirstRow(order[i], rows).Some? && es[i] == (order[i], WithPercent(UserTotalOf(order[i], rows)))
    requires forall row :: row in rows ==> row.userId in order
    ensures Summarizes(es, rows)
  {
    forall e | e in es ensures FirstRow(e.0, rows).Some? && e.1 == WithPercent(UserTotalOf(e.0, rows)) {
      var i :| 0 <= i < |es| && es[i] == e;
    }
    forall row | row in rows ensures exists e :: e in es && e.0 == row.userId {
      var i :| 0 <= i < |order| && order[i] == row.userId;
      assert es[i] in es;
    }
  }

  /** Sorting the lines keeps what they say. */
  lemma SortKeepsSummary(es: seq<(string, UserTotal)>, rows: seq<UserPnLToken>)
    requires Summarizes(es, rows)
    ensures Summarizes(SortDesc(es, PercentOf), rows)
  {
    var out := SortDesc(es, PercentOf);
    forall e ensures e in out <==> e in es {
      SortDescSameElements(es, PercentOf, e);
    }
    assert Distinct(es);
    PermutationKeepsDistinct(es, out);
    forall i, j | 0 <= i < j < |out| ensures out[i].0 != out[j].0 {
      assert out[i] in es && out[j] in es;
      assert out[i] != out[j];
      LineOfUser(es, rows, out[i], out[j]);
    }
  }

  /** Two lines for one user are the same line. */
  lemma LineOfUser(es: seq<(string, UserTotal)>, rows: seq<UserPnLToken>, e1: (string, UserTotal), e2: (string, UserTotal))
    requires Summarizes(es, rows) && e1 in es && e2 in es
    ensures e1.0 == e2.0 ==> e1 == e2
  {
  }

  /** The table: ordered by percentage, largest first, one line per user with their sums. */
  lemma SummaryContents(rows: seq<UserPnLToken>)
    ensures SortedDesc(Summary(rows), PercentOf)
    ensures Summarizes(Summary(rows), rows)
  {
    EntriesSummarize(rows);
    SortKeepsSummary(EntriesIn(Tallied(rows).order, Tallied(rows).totals), rows);
  }

  /** A user's percentage follows the same rule as a token's: gain over invested, 0 without investment. */
  lemma UserPercentMatchesTokenRule(id: string, rows: seq<UserPnLToken>)
    requires FirstRow(id, rows).Some?
    ensures WithPercent(UserTotalOf(id, rows)).pnlPercent == PnlPercent(SumInvested(id, rows), SumSold(id, rows))
  {
  }
}
