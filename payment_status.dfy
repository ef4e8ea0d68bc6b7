/** The subscription status reader (`usePaymentStatus`): it queries the
    `payment` ledger, keeps the newest row of every `transaction_key`, and
    reports the user as subscribed when one of those rows is `Paid` and its
    access window (with grace) contains the current time. */
module PaymentStatus {
  import opened Common
  import opened Ledger

  const SubscribedLabel := "구독중"
  const FreeLabel := "Free"
  const UnknownError := "알 수 없는 오류"

  // ---------------------------------------------------------------------------
  // Query parameters

  /** The hook's optional parameters. */
  datatype StatusParams = StatusParams(userId: Option<string>, transactionKeys: Option<seq<string>>)

  /** The filters actually added to the `select` on the `payment` table. */
  datatype RowFilter = RowFilter(userId: Option<string>, keys: Option<seq<string>>)

  /** `.eq("user_id", id)` and `.in("transaction_key", keys)`; SQL `NULL`
      never equals an id. */
  predicate Matches(row: PaymentRow, f: RowFilter)
  {
    && (f.userId.None? || row.userId == f.userId)
    && (f.keys.None? || row.transactionKey in f.keys.value)
  }

  /** The user filter is added only for a truthy `userId`, the key filter
      only for a non-empty key list. */
  function BuildFilter(p: StatusParams): (f: RowFilter)
    ensures forall row :: Matches(row, f) <==>
      && (!Truthy(p.userId) || row.userId == p.userId)
      && (p.transactionKeys.None? || |p.transactionKeys.value| == 0
          || row.transactionKey in p.transactionKeys.value)
  {
    RowFilter(
      if Truthy(p.userId) then p.userId else None,
      if p.transactionKeys.Some? && |p.transactionKeys.value| > 0 then p.transactionKeys else None)
  }

  /** What the store answers: the matching rows (newest first), or an error
      that the hook rethrows. */
  datatype QueryResult = Rows(rows: seq<PaymentRow>) | QueryFailed(error: Thrown)

  // ---------------------------------------------------------------------------
  // Newest row per transaction key

  /** The accumulator of the `reduce`: the keys in the order they were first
      stored (the order `Object.values` lists them in) and the row stored for
      each key. */
  datatype Grouping = Grouping(order: seq<string>, latest: map<string, PaymentRow>)

  ghost predicate Distinct(keys: seq<string>)
  {
    forall i, j :: 0 <= i < j < |keys| ==> keys[i] != keys[j]
  }

  /** One step of the `reduce`: store the row when its key is new or when it
      is strictly newer than the stored one. */
  function Absorb(g: Grouping, p: PaymentRow): Grouping
  {
    var key := p.transactionKey;
    if key !in g.latest then Grouping(g.order + [key], g.latest[key := p])
    else if p.createdAt > g.latest[key].createdAt then Grouping(g.order, g.latest[key := p])
    else g
  }

  /** What the accumulator satisfies after absorbing `rows`: each key stored
      once, in `order` exactly when it has a row, every row's key stored, and
      the stored row is one of the rows of that key with the largest
      `createdAt`. */
  ghost predicate GroupsRows(rows: seq<PaymentRow>, g: Grouping)
  {
    && Distinct(g.order)
    && (forall k :: k in g.latest <==> k in g.order)
    && (forall k :: k in g.latest ==> g.latest[k] in rows && g.latest[k].transactionKey == k)
    && (forall j :: 0 <= j < |rows| ==> rows[j].transactionKey in g.latest)
    && (forall k, j :: k in g.latest && 0 <= j < |rows| && rows[j].transactionKey == k
                       ==> rows[j].createdAt <= g.latest[k].createdAt)
  }

  lemma AbsorbGroups(rows: seq<PaymentRow>, g: Grouping, p: PaymentRow)
    requires GroupsRows(rows, g)
    ensures GroupsRows(rows + [p], Absorb(g, p))
  {
    var rows' := rows + [p];
    var g' := Absorb(g, p);
    var key := p.transactionKey;
    assert forall j :: 0 <= j < |rows| ==> rows'[j] == rows[j];
    if key !in g.latest {
      assert key !in g.order;
      forall i, j | 0 <= i < j < |g'.order| ensures g'.order[i] != g'.order[j] {
        if j == |g.order| {
          assert g.order[i] in g.order;
        }
      }
    }
  }

  /** The `reduce` over the rows, in the order the store returned them. */
  function GroupByKey(rows: seq<PaymentRow>): Grouping
    decreases |rows|
  {
    if rows == [] then Grouping([], map[])
    else Absorb(GroupByKey(rows[..|rows| - 1]), rows[|rows| - 1])
  }

  lemma {:induction false} GroupByKeyGroups(rows: seq<PaymentRow>)
    ensures GroupsRows(rows, GroupByKey(rows))
    decreases |rows|
  {
    if rows != [] {
      var init := rows[..|rows| - 1];
      GroupByKeyGroups(init);
      AbsorbGroups(init, GroupByKey(init), rows[|rows| - 1]);
      assert init + [rows[|rows| - 1]] == rows;
    }
  }

  /** `Object.values` of the accumulator. */
  function LatestRows(rows: seq<PaymentRow>): (latest: seq<PaymentRow>)
    ensures |latest| == |GroupByKey(rows).order|
    ensures forall i :: 0 <= i < |latest| ==> GroupByKey(rows).order[i] in GroupByKey(rows).latest
    ensures forall i :: 0 <= i < |latest| ==> latest[i] == GroupByKey(rows).latest[GroupByKey(rows).order[i]]
  {
    var g := GroupByKey(rows);
    GroupByKeyGroups(rows);
    seq(|g.order|, i requires 0 <= i < |g.order| => g.latest[g.order[i]])
  }

  /** The newest rows are rows of the input. */
  lemma LatestRowsAreInputRows(rows: seq<PaymentRow>)
    ensures forall i :: 0 <= i < |LatestRows(rows)| ==> LatestRows(rows)[i] in rows
  {
    var g := GroupByKey(rows);
    GroupByKeyGroups(rows);
    var latest := LatestRows(rows);
    forall i | 0 <= i < |latest| ensures latest[i] in rows {
      assert latest[i] == g.latest[g.order[i]];
    }
  }

  /** The newest rows carry pairwise distinct keys. */
  lemma LatestRowsDistinctKeys(rows: seq<PaymentRow>)
    ensures forall i, j :: 0 <= i < j < |LatestRows(rows)| ==>
      LatestRows(rows)[i].transactionKey != LatestRows(rows)[j].transactionKey
  {
    var g := GroupByKey(rows);
    GroupByKeyGroups(rows);
    var latest := LatestRows(rows);
    forall i, j | 0 <= i < j < |latest| ensures latest[i].transactionKey != latest[j].transactionKey {
      assert latest[i].transactionKey == g.order[i];
      assert latest[j].transactionKey == g.order[j];
    }
  }

  /** Every key of the input has a newest row. */
  lemma LatestRowsCoverKeys(rows: seq<PaymentRow>)
    ensures forall r :: r in rows ==>
      exists i :: 0 <= i < |LatestRows(rows)| && LatestRows(rows)[i].transactionKey == r.transactionKey
  {
    var g := GroupByKey(rows);
    GroupByKeyGroups(rows);
    var latest := LatestRows(rows);
    forall r | r in rows
      ensures exists i :: 0 <= i < |latest| && latest[i].transactionKey == r.transactionKey
    {
      var j :| 0 <= j < |rows| && rows[j] == r;
      assert r.transactionKey in g.order;
      var i :| 0 <= i < |g.order| && g.order[i] == r.transactionKey;
      assert latest[i] == g.latest[g.order[i]];
    }
  }

  /** No input row of a key is newer than that key's newest row. */
  lemma LatestRowsAreNewest(rows: seq<PaymentRow>)
    ensures forall i, r ::
      0 <= i < |LatestRows(rows)| && r in rows && r.transactionKey == LatestRows(rows)[i].transactionKey
      ==> r.createdAt <= LatestRows(rows)[i].createdAt
  {
    var g := GroupByKey(rows);
    GroupByKeyGroups(rows);
    var latest := LatestRows(rows);
    forall i, r | 0 <= i < |latest| && r in rows && r.transactionKey == latest[i].transactionKey
      ensures r.createdAt <= latest[i].createdAt
    {
      var j :| 0 <= j < |rows| && rows[j] == r;
      assert latest[i] == g.latest[g.order[i]];
    }
  }

  /** The grouping yields exactly one row per distinct `transaction_key`,
      each one of the input rows, with the largest `createdAt` of its group. */
  lemma LatestRowsOnePerKey(rows: seq<PaymentRow>)
    ensures forall i :: 0 <= i < |LatestRows(rows)| ==> LatestRows(rows)[i] in rows
    ensures forall i, j :: 0 <= i < j < |LatestRows(rows)| ==>
      LatestRows(rows)[i].transactionKey != LatestRows(rows)[j].transactionKey
    ensures forall r :: r in rows ==>
      exists i :: 0 <= i < |LatestRows(rows)| && LatestRows(rows)[i].transactionKey == r.transactionKey
    ensures forall i, r ::
      0 <= i < |LatestRows(rows)| && r in rows && r.transactionKey == LatestRows(rows)[i].transactionKey
      ==> r.createdAt <= LatestRows(rows)[i].createdAt
  {
    LatestRowsAreInputRows(rows);
    LatestRowsDistinctKeys(rows);
    LatestRowsCoverKeys(rows);
    LatestRowsAreNewest(rows);
  }

  /** Reference definition of the row the grouping keeps for a key: row `i`
      has the largest `createdAt` among the rows with its key, and every
      earlier row with that key is strictly older (the first of the newest). */
  ghost predicate IsFirstLatest(rows: seq<PaymentRow>, i: int)
  {
    && 0 <= i < |rows|
    && (forall j :: 0 <= j < |rows| && rows[j].transactionKey == rows[i].transactionKey
                    ==> rows[j].createdAt <= rows[i].createdAt)
    && (forall j :: 0 <= j < i && rows[j].transactionKey == rows[i].transactionKey
                    ==> rows[j].createdAt < rows[i].createdAt)
  }

  /** The grouping keeps, for each key, exactly the row the reference
      definition names: ties on `createdAt` go to the row seen first. */
  lemma {:induction false} GroupByKeyKeepsFirstLatest(rows: seq<PaymentRow>, i: int)
    requires IsFirstLatest(rows, i)
    ensures rows[i].transactionKey in GroupByKey(rows).latest
    ensures GroupByKey(rows).latest[rows[i].transactionKey] == rows[i]
    decreases |rows|
  {
    var n := |rows| - 1;
    var init := rows[..n];
    var p := rows[n];
    var key := rows[i].transactionKey;
    assert GroupByKey(rows) == Absorb(GroupByKey(init), p);
    var g := GroupByKey(init);
    if i < n {
      assert IsFirstLatest(init, i);
      GroupByKeyKeepsFirstLatest(init, i);
      assert rows[n].transactionKey == key ==> p.createdAt <= rows[i].createdAt;
    } else {
      if key in g.latest {
        GroupByKeyGroups(init);
        var q := g.latest[key];
        assert q in init;
        var j :| 0 <= j < n && init[j] == q;
        assert rows[j] == q;
      }
    }
  }

  /** Every key that occurs has a row the reference definition names. */
  lemma {:induction false} FirstLatestExists(rows: seq<PaymentRow>, k: string)
    requires exists j :: 0 <= j < |rows| && rows[j].transactionKey == k
    ensures exists i :: IsFirstLatest(rows, i) && rows[i].transactionKey == k
    decreases |rows|
  {
    var n := |rows| - 1;
    var init := rows[..n];
    var p := rows[n];
    if exists j :: 0 <= j < n && init[j].transactionKey == k {
      FirstLatestExists(init, k);
      var i :| IsFirstLatest(init, i) && init[i].transactionKey == k;
      if p.transactionKey == k && p.createdAt > rows[i].createdAt {
        assert IsFirstLatest(rows, n);
      } else {
        assert IsFirstLatest(rows, i);
      }
    } else {
      assert p.transactionKey == k;
      assert IsFirstLatest(rows, n);
    }
  }

  // ---------------------------------------------------------------------------
  // Active rows and the decision

  /** A row grants access at `now`: it is `Paid`, both window ends are
      present, and `startAt <= now <= endGraceAt` (both ends inclusive). */
  predicate IsActive(p: PaymentRow, now: int)
  {
    && p.status == Paid
    && p.startAt.Some? && p.endGraceAt.Some?
    && p.startAt.value <= now <= p.endGraceAt.value
  }

  /** The `filter` over the newest rows: the active ones, in their order. */
  function ActivePayments(latest: seq<PaymentRow>, now: int): (active: seq<PaymentRow>)
    ensures |active| <= |latest|
    ensures forall p :: p in active <==> p in latest && IsActive(p, now)
    ensures active != [] ==> exists i :: 0 <= i < |latest| && latest[i] == active[0]
                                         && forall j :: 0 <= j < i ==> !IsActive(latest[j], now)
  {
    if latest == [] then []
    else
      var rest := ActivePayments(latest[1..], now);
      assert forall p :: p in latest[1..] ==> p in latest;
      assert forall p :: p in latest ==> p == latest[0] || p in latest[1..];
      if IsActive(latest[0], now) then [latest[0]] + rest
      else
        assert rest != [] ==> exists i :: 0 <= i < |latest| && latest[i] == rest[0]
                                          && forall j :: 0 <= j < i ==> !IsActive(latest[j], now) by {
          if rest != [] {
            var i :| 0 <= i < |latest[1..]| && latest[1..][i] == rest[0]
                     && forall j :: 0 <= j < i ==> !IsActive(latest[1..][j], now);
            assert latest[i + 1] == rest[0];
            forall j | 0 <= j < i + 1 ensures !IsActive(latest[j], now) {
              if j > 0 { assert latest[j] == latest[1..][j - 1]; }
            }
          }
        }
        rest
  }

  datatype StatusResult = StatusResult(
    isSubscribed: bool,
    status: string,
    transactionKey: Option<string>,
    isLoading: bool,
    error: Option<string>)

  function FreeStatus(error: Option<string>): StatusResult
  {
    StatusResult(false, FreeLabel, None, false, error)
  }

  /** The status the hook settles on after one query. */
  function StatusOf(query: QueryResult, now: int): (r: StatusResult)
    ensures !r.isLoading
    ensures r.status == (if r.isSubscribed then SubscribedLabel else FreeLabel)
    ensures r.transactionKey.Some? <==> r.isSubscribed
    ensures query.QueryFailed? ==> r == FreeStatus(Some(MessageOr(query.error, UnknownError)))
    ensures query.Rows? ==> r.error.None?
    ensures query.Rows? ==> (r.isSubscribed <==> exists p :: p in LatestRows(query.rows) && IsActive(p, now))
    ensures r.isSubscribed ==>
      var latest := LatestRows(query.rows);
      exists i :: 0 <= i < |latest| && IsActive(latest[i], now)
                  && r.transactionKey == Some(latest[i].transactionKey)
                  && forall j :: 0 <= j < i ==> !IsActive(latest[j], now)
  {
    match query
    case QueryFailed(e) => FreeStatus(Some(MessageOr(e, UnknownError)))
    case Rows(rows) =>
      if |rows| == 0 then FreeStatus(None)
      else
        var active := ActivePayments(LatestRows(rows), now);
        if |active| > 0 then
          assert active[0] in active;
          StatusResult(true, SubscribedLabel, Some(active[0].transactionKey), false, None)
        else FreeStatus(None)
  }

  // ---------------------------------------------------------------------------
  // Properties of the reader

  /** A row that is strictly newer than every other row with its key and
      active at `now` makes the reader report a subscription. */
  lemma NewestActiveRowSubscribes(rows: seq<PaymentRow>, i: int, now: int)
    requires 0 <= i < |rows| && IsActive(rows[i], now)
    requires forall j :: 0 <= j < |rows| && j != i && rows[j].transactionKey == rows[i].transactionKey
                         ==> rows[j].createdAt < rows[i].createdAt
    ensures StatusOf(Rows(rows), now).isSubscribed
  {
    assert IsFirstLatest(rows, i);
    GroupByKeyKeepsFirstLatest(rows, i);
    GroupByKeyGroups(rows);
    var g := GroupByKey(rows);
    var k := rows[i].transactionKey;
    var latest := LatestRows(rows);
    var t :| 0 <= t < |g.order| && g.order[t] == k;
    assert latest[t] == rows[i];
  }

  /** A row superseded by a strictly newer row with the same key is never
      among the newest rows. */
  lemma SupersededRowIsNotLatest(rows: seq<PaymentRow>, i: int, j: int)
    requires 0 <= i < |rows| && 0 <= j < |rows|
    requires rows[j].transactionKey == rows[i].transactionKey
    requires rows[j].createdAt > rows[i].createdAt
    ensures rows[i] !in LatestRows(rows)
  {
    var latest := LatestRows(rows);
    LatestRowsOnePerKey(rows);
    forall t | 0 <= t < |latest| ensures latest[t] != rows[i] {
      assert rows[j] in rows;
    }
  }

  /** When every active row has been superseded by a newer row with the same
      key, the reader reports Free. */
  lemma SupersededPaidNeverSubscribes(rows: seq<PaymentRow>, now: int)
    requires forall i :: 0 <= i < |rows| && IsActive(rows[i], now) ==>
      exists j :: 0 <= j < |rows| && rows[j].transactionKey == rows[i].transactionKey
                  && rows[j].createdAt > rows[i].createdAt
    ensures !StatusOf(Rows(rows), now).isSubscribed
  {
    var latest := LatestRows(rows);
    LatestRowsOnePerKey(rows);
    forall p | p in latest ensures !IsActive(p, now) {
      var i :| 0 <= i < |rows| && rows[i] == p;
      assert forall j :: 0 <= j < |rows| && rows[j].transactionKey == p.transactionKey
                         ==> rows[j].createdAt <= p.createdAt by {
        assert forall j :: 0 <= j < |rows| ==> rows[j] in rows;
      }
    }
  }

  // ---------------------------------------------------------------------------
  // The hook

  /** The reduce as the source runs it: an accumulator updated in place, then
      `Object.values`. */
  method GroupLatest(rows: seq<PaymentRow>) returns (latest: seq<PaymentRow>)
    ensures latest == LatestRows(rows)
  {
    var order: seq<string> := [];
    var acc: map<string, PaymentRow> := map[];
    var i := 0;
    while i < |rows|
      invariant 0 <= i <= |rows|
      invariant Grouping(order, acc) == GroupByKey(rows[..i])
    {
      var payment := rows[i];
      var key := payment.transactionKey;
      assert rows[..i + 1][..i] == rows[..i];
      if key !in acc || payment.createdAt > acc[key].createdAt {
        if key !in acc {
          order := order + [key];
        }
        acc := acc[key := payment];
      }
      i := i + 1;
    }
    assert rows[..i] == rows;
    GroupByKeyGroups(rows);
    latest := [];
    var j := 0;
    while j < |order|
      invariant 0 <= j <= |order|
      invariant |latest| == j
      invariant forall t :: 0 <= t < j ==> latest[t] == acc[order[t]]
    {
      latest := latest + [acc[order[j]]];
      j := j + 1;
    }
  }

  class PaymentStatusHook {
    const params: StatusParams
    var state: StatusResult

    /** The initial state: Free and loading. */
    constructor(params: StatusParams)
      ensures this.params == params
      ensures state == StatusResult(false, FreeLabel, None, true, None)
    {
      this.params := params;
      state := StatusResult(false, FreeLabel, None, true, None);
    }

    /** `checkPaymentStatus`, given the store's answer to the query and the
        current time. The store returns only rows that pass the filters the
        hook adds to its query. */
    method CheckPaymentStatus(query: QueryResult, now: int)
      requires query.Rows? ==> forall r :: r in query.rows ==> Matches(r, BuildFilter(params))
      modifies this
      ensures state == StatusOf(query, now)
    {
      state := state.(isLoading := true);
      match query {
        case QueryFailed(e) =>
          state := FreeStatus(Some(MessageOr(e, UnknownError)));
        case Rows(rows) =>
          if |rows| == 0 {
            state := FreeStatus(None);
            return;
          }
          var latest := GroupLatest(rows);
          var active := ActivePayments(latest, now);
          if |active| > 0 {
            state := StatusResult(true, SubscribedLabel, Some(active[0].transactionKey), false, None);
          } else {
            state := FreeStatus(None);
          }
      }
    }
  }
}
