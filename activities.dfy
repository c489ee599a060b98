/**
 * The activities of billing/workflows/activities.go over an abstract bill
 * store. The bill and bill_item tables are one map from bill id to a row
 * holding the bill's status, close date, close time and items.
 *
 * Each operation has a specification function on a `Db` value, and the
 * `BillStore` class implements it on its fields, as the source does on the
 * tables. Failures of the database are inputs (`Io`): the n-th SQL
 * statement an activity issues fails when `io == FailsAt(n)`.
 */
module Activities {
  import opened Wrappers
  import opened Models
  import opened Errors

  const StatusOpen: string := "open"
  const StatusClosed: string := "closed"

  /** The currencies an item may carry. */
  const Currencies: set<string> := {"USD", "GEL"}

  /** A bill row with the bill_item rows that reference it, in insertion order. */
  datatype BillRow = BillRow(status: string, closeDate: int, closedAt: Option<int>, items: seq<BillItem>)

  /**
   * The store: bills by id, the next item id the database hands out, and
   * whether the driver's Scan reports a query that matched no row as an
   * error (`true`) or leaves its targets untouched (`false`).
   */
  datatype Db = Db(bills: map<string, BillRow>, nextItemId: nat, noRowsIsError: bool)

  /** How the database behaves during one activity attempt. */
  datatype Io = Healthy | FailsAt(statement: nat)

  predicate Fails(io: Io, statement: nat) {
    io.FailsAt? && io.statement == statement
  }

  /** The filter of ListBills; an empty status selects every bill. */
  datatype ListBillParams = ListBillParams(status: string)

  function DigitChar(d: nat): char
    requires d < 10
  {
    "0123456789"[d]
  }

  /** The id the database gives the n-th inserted item. */
  function ItemId(n: nat): (id: string)
    ensures |id| >= 1 && (|id| == 1 <==> n < 10)
  {
    if n < 10 then [DigitChar(n)] else ItemId(n / 10) + [DigitChar(n % 10)]
  }

  // ---------------------------------------------------------------------
  // Validation and creation
  // ---------------------------------------------------------------------

  /** validateBillItem: a positive amount in an allowed currency, or INVALID-DATA. */
  function ValidateBillItem(amount: int, currency: string): (r: Option<Error>)
    ensures r.None? <==> amount > 0 && currency in Currencies
    ensures r.Some? ==> r.value == Application(InvalidData) && !Retryable(r.value)
  {
    if amount <= 0 then Some(Application(InvalidData))
    else if currency != "USD" && currency != "GEL" then Some(Application(InvalidData))
    else None
  }

  /**
   * CreateBill: a close date before `now` is refused without touching the
   * store; otherwise one INSERT ... RETURNING, whose failure (including a
   * clash with an existing id) is a DB-ERROR.
   */
  function CreateBillResult(db: Db, closeDate: int, now: int, newId: string, io: Io): (r: Result<Bill, Error>)
    ensures closeDate < now ==> r == Err(Application(InvalidData))
    ensures r.Ok? <==> now <= closeDate && !Fails(io, 1) && newId !in db.bills
    ensures r.Ok? ==> r.value == Bill(newId, closeDate, StatusOpen, [])
    ensures r.Err? ==> !Retryable(r.error)
  {
    if closeDate < now then Err(Application(InvalidData))
    else if Fails(io, 1) || newId in db.bills then Err(Application(DbError))
    else Ok(Bill(newId, closeDate, StatusOpen, []))
  }

  function AfterCreateBill(db: Db, closeDate: int, now: int, newId: string, io: Io): (db': Db)
    ensures CreateBillResult(db, closeDate, now, newId, io).Err? ==> db' == db
    ensures CreateBillResult(db, closeDate, now, newId, io).Ok? ==>
      db'.bills.Keys == db.bills.Keys + {newId} && db'.bills[newId] == BillRow(StatusOpen, closeDate, None, [])
    ensures forall id :: id in db.bills ==> id in db'.bills && db'.bills[id] == db.bills[id]
    ensures db'.nextItemId == db.nextItemId && db'.noRowsIsError == db.noRowsIsError
  {
    if CreateBillResult(db, closeDate, now, newId, io).Ok? then
      db.(bills := db.bills[newId := BillRow(StatusOpen, closeDate, None, [])])
    else db
  }

  // ---------------------------------------------------------------------
  // Items
  // ---------------------------------------------------------------------

  /**
   * AddBillItem: validation first; then the INSERT into bill_item, which
   * fails when the database is unavailable or when no bill has that id (the
   * item row references its bill). Database errors are passed through as
   * plain, retryable errors.
   */
  function AddBillItemResult(db: Db, billId: string, amount: int, currency: string, io: Io): (r: Option<Error>)
    ensures ValidateBillItem(amount, currency).Some? ==> r == ValidateBillItem(amount, currency)
    ensures r.None? <==> amount > 0 && currency in Currencies && !Fails(io, 1) && billId in db.bills
    ensures r.Some? && ValidateBillItem(amount, currency).None? ==> Retryable(r.value)
  {
    var invalid := ValidateBillItem(amount, currency);
    if invalid.Some? then invalid
    else if Fails(io, 1) then Some(Plain(Unavailable))
    else if billId !in db.bills then Some(Plain(ConstraintViolation))
    else None
  }

  function AfterAddBillItem(db: Db, billId: string, amount: int, currency: string, io: Io): (db': Db)
    ensures db'.bills.Keys == db.bills.Keys && db'.noRowsIsError == db.noRowsIsError
    ensures AddBillItemResult(db, billId, amount, currency, io).Some? ==> db' == db
    ensures AddBillItemResult(db, billId, amount, currency, io).None? ==>
      db'.nextItemId == db.nextItemId + 1 &&
      db'.bills[billId] == db.bills[billId].(items := db.bills[billId].items + [BillItem(ItemId(db.nextItemId), amount, currency)])
    ensures forall id :: id in db.bills && id != billId ==> db'.bills[id] == db.bills[id]
  {
    if AddBillItemResult(db, billId, amount, currency, io).None? then
      var row := db.bills[billId];
      db.(bills := db.bills[billId := row.(items := row.items + [BillItem(ItemId(db.nextItemId), amount, currency)])],
          nextItemId := db.nextItemId + 1)
    else db
  }

  // ---------------------------------------------------------------------
  // Single-row lookups
  // ---------------------------------------------------------------------

  /**
   * What `QueryRow(SELECT id, status FROM bill WHERE id = billId).Scan`
   * leaves behind: the scanned id ("" when nothing was scanned), the scanned
   * status, and Scan's error.
   */
  datatype Scanned = Scanned(id: string, status: string, err: Option<Error>)

  function ScanBill(db: Db, billId: string, fail: bool): (s: Scanned)
    ensures s.id != "" ==> !fail && billId in db.bills && s == Scanned(billId, db.bills[billId].status, None)
    ensures !fail && billId in db.bills ==> s == Scanned(billId, db.bills[billId].status, None)
    ensures fail ==> s.id == "" && s.err == Some(Plain(Unavailable))
    ensures !fail && billId !in db.bills ==> s.id == "" && (s.err.Some? <==> db.noRowsIsError)
  {
    if fail then Scanned("", "", Some(Plain(Unavailable)))
    else if billId !in db.bills then Scanned("", "", if db.noRowsIsError then Some(Plain(NoRows)) else None)
    else Scanned(billId, db.bills[billId].status, None)
  }

  /** The error of a single-row query that matched no row, after the code's empty-id check. */
  function NoRowError(db: Db): Error {
    if db.noRowsIsError then Plain(NoRows) else Application(NotFound)
  }

  /**
   * GetBill: the bill's id and status (its close date is not selected),
   * then its items. Scan's error is checked before the empty id.
   */
  function GetBillResult(db: Db, billId: string, io: Io): (r: Result<Bill, Error>)
    ensures r.Ok? <==> billId != "" && billId in db.bills && !Fails(io, 1) && !Fails(io, 2)
    ensures r.Ok? ==> r.value == Bill(billId, ZeroTime, db.bills[billId].status, db.bills[billId].items)
    ensures billId !in db.bills && !Fails(io, 1) ==> r == Err(NoRowError(db))
    ensures Fails(io, 1) ==> r == Err(Plain(Unavailable))
    ensures billId != "" && billId in db.bills && Fails(io, 2) ==> r == Err(Plain(Unavailable))
  {
    var s := ScanBill(db, billId, Fails(io, 1));
    if s.err.Some? then Err(s.err.value)
    else if s.id == "" then Err(Application(NotFound))
    else if Fails(io, 2) then Err(Plain(Unavailable))
    else Ok(Bill(s.id, ZeroTime, s.status, db.bills[billId].items))
  }

  /**
   * CheckOpenBill: the empty-id check comes before the error check, and a
   * failed Scan scans nothing, so every failure is NOT_FOUND.
   */
  function CheckOpenBillResult(db: Db, billId: string, io: Io): (r: Result<bool, Error>)
    ensures r.Ok? <==> billId != "" && billId in db.bills && !Fails(io, 1)
    ensures r.Ok? ==> (r.value <==> db.bills[billId].status == StatusOpen)
    ensures r.Err? ==> r.error == Application(NotFound)
  {
    var s := ScanBill(db, billId, Fails(io, 1));
    if s.id == "" then Err(Application(NotFound))
    else match s.err
      case Some(e) => Err(e)
      case None => Ok(s.status == StatusOpen)
  }

  // ---------------------------------------------------------------------
  // Closing
  // ---------------------------------------------------------------------

  /** The bill exists and is open: the only case the conditional UPDATE touches. */
  predicate Closable(db: Db, billId: string) {
    billId in db.bills && db.bills[billId].status == StatusOpen
  }

  /**
   * CloseBill: `UPDATE bill SET status = 'closed', closed_at = now WHERE
   * id = billId AND status = 'open' RETURNING id, status`. No returned row
   * (unknown bill, bill not open) is the zero-row error.
   */
  function CloseBillResult(db: Db, billId: string, io: Io): (r: Option<Error>)
    ensures r.None? <==> !Fails(io, 1) && Closable(db, billId) && billId != ""
    ensures !Fails(io, 1) && !Closable(db, billId) ==> r == Some(NoRowError(db))
    ensures r.Some? && Retryable(r.value) ==> Fails(io, 1) || !Closable(db, billId)
  {
    if Fails(io, 1) then Some(Plain(Unavailable))
    else if !Closable(db, billId) then Some(NoRowError(db))
    else if billId == "" then Some(Application(NotFound))
    else None
  }

  function AfterCloseBill(db: Db, billId: string, now: int, io: Io): (db': Db)
    ensures db'.bills.Keys == db.bills.Keys && db'.nextItemId == db.nextItemId && db'.noRowsIsError == db.noRowsIsError
    ensures !Fails(io, 1) && Closable(db, billId) ==>
      db'.bills[billId] == db.bills[billId].(status := StatusClosed, closedAt := Some(now))
    ensures Fails(io, 1) || !Closable(db, billId) ==> db' == db
    ensures forall id :: id in db.bills && id != billId ==> db'.bills[id] == db.bills[id]
  {
    if !Fails(io, 1) && Closable(db, billId) then
      db.(bills := db.bills[billId := db.bills[billId].(status := StatusClosed, closedAt := Some(now))])
    else db
  }

  // ---------------------------------------------------------------------
  // Summary and listing
  // ---------------------------------------------------------------------

  /** The rows of the bill_summary view whose bill_id is `billId`, in view order. */
  function SummaryRowsOf(rows: seq<BillItemSummary>, billId: string): (r: seq<BillItemSummary>)
    ensures forall x :: x in r <==> x in rows && x.billId == billId
    ensures |r| <= |rows|
  {
    if rows == [] then []
    else if rows[|rows| - 1].billId == billId then SummaryRowsOf(rows[..|rows| - 1], billId) + [rows[|rows| - 1]]
    else SummaryRowsOf(rows[..|rows| - 1], billId)
  }

  /** The rows `SELECT ... FROM bill_item WHERE bill_id = billId` returns: none for an unknown bill. */
  function ItemsOf(db: Db, billId: string): seq<BillItem> {
    if billId in db.bills then db.bills[billId].items else []
  }

  /**
   * GetBillSummary: any Scan error of the bill row is NOT_FOUND; an open
   * bill's closed_at is NULL, which does not scan into a time, so it is
   * NOT_FOUND too. Unlike the other lookups there is no empty-id check: when
   * the driver reports no error for a missing row, nothing is scanned and
   * the summary of an unknown bill is an empty one. Then the items and the
   * bill's view rows. The view's contents are given (`viewRows`): its
   * definition is not modelled.
   */
  function GetBillSummaryResult(db: Db, billId: string, viewRows: seq<BillItemSummary>, io: Io): (r: Result<BillSummary, Error>)
    ensures r.Ok? <==>
      && !Fails(io, 1) && !Fails(io, 2) && !Fails(io, 3)
      && (if billId in db.bills then db.bills[billId].closedAt.Some? else !db.noRowsIsError)
    ensures r == Err(Application(NotFound)) <==>
      Fails(io, 1) || (billId in db.bills && db.bills[billId].closedAt.None?) || (billId !in db.bills && db.noRowsIsError)
    ensures r.Err? && r.error != Application(NotFound) ==> r.error == Plain(Unavailable) && (Fails(io, 2) || Fails(io, 3))
    ensures r.Ok? && billId in db.bills ==>
      var row := db.bills[billId];
      r.value == BillSummary(billId, row.closedAt.value, row.status, row.items, SummaryRowsOf(viewRows, billId))
    ensures r.Ok? && billId !in db.bills ==>
      r.value == BillSummary("", ZeroTime, "", [], SummaryRowsOf(viewRows, billId))
  {
    if Fails(io, 1) then Err(Application(NotFound))
    else if billId in db.bills && db.bills[billId].closedAt.None? then Err(Application(NotFound))
    else if billId !in db.bills && db.noRowsIsError then Err(Application(NotFound))
    else if Fails(io, 2) || Fails(io, 3) then Err(Plain(Unavailable))
    else
      var head := if billId in db.bills then BillSummary(billId, db.bills[billId].closedAt.value, db.bills[billId].status, [], [])
                  else BillSummary("", ZeroTime, "", [], []);
      Ok(head.(billItems := ItemsOf(db, billId), billItemSummary := SummaryRowsOf(viewRows, billId)))
  }

  /** The ids ListBills selects: all bills, or those whose status equals a non-empty filter. */
  function Selected(db: Db, params: ListBillParams): set<string> {
    set id | id in db.bills && (params.status == "" || db.bills[id].status == params.status)
  }

  /** A bill as ListBills returns it: only id and status are selected. */
  function Listed(db: Db, id: string): Bill
    requires id in db.bills
  {
    Bill(id, ZeroTime, db.bills[id].status, [])
  }

  /** `bills` lists each selected bill exactly once, and nothing else. */
  ghost predicate ListsExactly(db: Db, params: ListBillParams, bills: seq<Bill>) {
    && (forall i :: 0 <= i < |bills| ==> bills[i].billId in Selected(db, params) && bills[i] == Listed(db, bills[i].billId))
    && (forall id :: id in Selected(db, params) ==> exists i :: 0 <= i < |bills| && bills[i].billId == id)
    && (forall i, j :: 0 <= i < j < |bills| ==> bills[i].billId != bills[j].billId)
  }

  // ---------------------------------------------------------------------
  // The store
  // ---------------------------------------------------------------------

  class BillStore {
    var bills: map<string, BillRow>
    var nextItemId: nat
    const noRowsIsError: bool

    function Snapshot(): Db
      reads this
    {
      Db(bills, nextItemId, noRowsIsError)
    }

    constructor (noRowsIsError: bool)
      ensures Snapshot() == Db(map[], 0, noRowsIsError)
    {
      bills := map[];
      nextItemId := 0;
      this.noRowsIsError := noRowsIsError;
    }

    method CreateBill(closeDate: int, now: int, newId: string, io: Io) returns (r: Result<Bill, Error>)
      modifies this
      ensures r == CreateBillResult(old(Snapshot()), closeDate, now, newId, io)
      ensures Snapshot() == AfterCreateBill(old(Snapshot()), closeDate, now, newId, io)
    {
      if closeDate < now {
        return Err(Application(InvalidData));
      }
      if Fails(io, 1) || newId in bills {
        return Err(Application(DbError));
      }
      bills := bills[newId := BillRow(StatusOpen, closeDate, None, [])];
      r := Ok(Bill(newId, closeDate, StatusOpen, []));
    }

    method AddBillItem(billId: string, amount: int, currency: string, io: Io) returns (err: Option<Error>)
      modifies this
      ensures err == AddBillItemResult(old(Snapshot()), billId, amount, currency, io)
      ensures Snapshot() == AfterAddBillItem(old(Snapshot()), billId, amount, currency, io)
    {
      err := ValidateBillItem(amount, currency);
      if err.Some? {
        return;
      }
      if Fails(io, 1) {
        return Some(Plain(Unavailable));
      }
      if billId !in bills {
        return Some(Plain(ConstraintViolation));
      }
      var row := bills[billId];
      bills := bills[billId := row.(items := row.items + [BillItem(ItemId(nextItemId), amount, currency)])];
      nextItemId := nextItemId + 1;
    }

    method CloseBill(billId: string, now: int, io: Io) returns (err: Option<Error>)
      modifies this
      ensures err == CloseBillResult(old(Snapshot()), billId, io)
      ensures Snapshot() == AfterCloseBill(old(Snapshot()), billId, now, io)
    {
      if Fails(io, 1) {
        return Some(Plain(Unavailable));
      }
      // the conditional UPDATE ... RETURNING id, status
      var returnedId := "";
      if billId in bills && bills[billId].status == StatusOpen {
        bills := bills[billId := bills[billId].(status := StatusClosed, closedAt := Some(now))];
        returnedId := billId;
      } else if noRowsIsError {
        return Some(Plain(NoRows));
      }
      if returnedId == "" {
        return Some(Application(NotFound));
      }
      err := None;
    }

    method CheckOpenBill(billId: string, io: Io) returns (r: Result<bool, Error>)
      ensures r == CheckOpenBillResult(Snapshot(), billId, io)
    {
      var s := ScanBill(Snapshot(), billId, Fails(io, 1));
      if s.id == "" {
        return Err(Application(NotFound));
      }
      match s.err
      case Some(e) =>
        r := Err(e);
      case None =>
        r := Ok(s.status == StatusOpen);
    }

    /** The `for rows.Next()` loop over the bill's item rows. */
    method ItemRows(billId: string) returns (items: seq<BillItem>)
      requires billId in bills
      ensures items == bills[billId].items
    {
      var rows := bills[billId].items;
      items := [];
      var i := 0;
      while i < |rows|
        invariant 0 <= i <= |rows|
        invariant items == rows[..i]
      {
        items := items + [rows[i]];
        i := i + 1;
      }
    }

    method GetBill(billId: string, io: Io) returns (r: Result<Bill, Error>)
      ensures r == GetBillResult(Snapshot(), billId, io)
    {
      var s := ScanBill(Snapshot(), billId, Fails(io, 1));
      if s.err.Some? {
        return Err(s.err.value);
      }
      if s.id == "" {
        return Err(Application(NotFound));
      }
      if Fails(io, 2) {
        return Err(Plain(Unavailable));
      }
      var items := ItemRows(billId);
      r := Ok(Bill(s.id, ZeroTime, s.status, items));
    }

    method GetBillSummary(billId: string, viewRows: seq<BillItemSummary>, io: Io) returns (r: Result<BillSummary, Error>)
      ensures r == GetBillSummaryResult(Snapshot(), billId, viewRows, io)
    {
      if Fails(io, 1) {
        return Err(Application(NotFound));
      }
      var summary := BillSummary("", ZeroTime, "", [], []);
      if billId in bills {
        if bills[billId].closedAt.None? {
          return Err(Application(NotFound));
        }
        summary := summary.(billId := billId, closedAt := bills[billId].closedAt.value, status := bills[billId].status);
      } else if noRowsIsError {
        return Err(Application(NotFound));
      }
      if Fails(io, 2) {
        return Err(Plain(Unavailable));
      }
      var items: seq<BillItem> := [];
      if billId in bills {
        items := ItemRows(billId);
      }
      summary := summary.(billItems := items);
      if Fails(io, 3) {
        return Err(Plain(Unavailable));
      }
      var totals: seq<BillItemSummary> := [];
      var i := 0;
      while i < |viewRows|
        invariant 0 <= i <= |viewRows|
        invariant totals == SummaryRowsOf(viewRows[..i], billId)
      {
        assert viewRows[..i + 1][..i] == viewRows[..i];
        if viewRows[i].billId == billId {
          totals := totals + [viewRows[i]];
        }
        i := i + 1;
      }
      assert viewRows[..i] == viewRows;
      r := Ok(summary.(billItemSummary := totals));
    }

    method ListBills(params: ListBillParams, io: Io) returns (r: Result<seq<Bill>, Error>)
      ensures Fails(io, 1) ==> r == Err(Plain(Unavailable))
      ensures !Fails(io, 1) ==> r.Ok? && ListsExactly(Snapshot(), params, r.value)
    {
      if Fails(io, 1) {
        return Err(Plain(Unavailable));
      }
      ghost var selected := Selected(Snapshot(), params);
      var remaining := set id | id in bills && (params.status == "" || bills[id].status == params.status);
      var listed: seq<Bill> := [];
      while remaining != {}
        invariant remaining <= selected
        invariant forall i :: 0 <= i < |listed| ==> listed[i].billId in selected - remaining && listed[i] == Listed(Snapshot(), listed[i].billId)
        invariant forall id :: id in selected - remaining ==> exists i :: 0 <= i < |listed| && listed[i].billId == id
        invariant forall i, j :: 0 <= i < j < |listed| ==> listed[i].billId != listed[j].billId
        decreases remaining
      {
        var id :| id in remaining;
        ghost var before, done := listed, selected - remaining;
        listed := listed + [Bill(id, ZeroTime, bills[id].status, [])];
        remaining := remaining - {id};
        forall other | other in selected - remaining
          ensures exists i :: 0 <= i < |listed| && listed[i].billId == other
        {
          if other == id {
            assert listed[|before|].billId == other;
          } else {
            assert other in done;
            var i :| 0 <= i < |before| && before[i].billId == other;
            assert listed[i] == before[i];
          }
        }
      }
      assert selected - remaining == selected;
      r := Ok(listed);
    }
  }
}
