/**
 * How the activities of billing/workflows/activities.go relate to one
 * another: what one operation leaves behind, as the next one reads it.
 */
module StoreProperties {
  import opened Wrappers
  import opened Models
  import opened Errors
  import opened Activities

  /** Every bill is either open and never closed, or closed with a close time. */
  ghost predicate Coherent(db: Db) {
    forall id :: id in db.bills ==>
      || (db.bills[id].status == StatusOpen && db.bills[id].closedAt.None?)
      || (db.bills[id].status == StatusClosed && db.bills[id].closedAt.Some?)
  }

  /** A created bill is open, has no items, and reads back as such. */
  lemma CreatedBillIsOpen(db: Db, closeDate: int, now: int, newId: string, io: Io)
    requires CreateBillResult(db, closeDate, now, newId, io).Ok?
    requires newId != ""
    ensures CreateBillResult(db, closeDate, now, newId, io).value.status == StatusOpen
    ensures CheckOpenBillResult(AfterCreateBill(db, closeDate, now, newId, io), newId, Healthy) == Ok(true)
    ensures GetBillResult(AfterCreateBill(db, closeDate, now, newId, io), newId, Healthy) == Ok(Bill(newId, ZeroTime, StatusOpen, []))
  {
  }

  /** An item AddBillItem accepts is the last item GetBill reports; nothing else changes. */
  lemma AddedItemIsListedLast(db: Db, billId: string, amount: int, currency: string, io: Io)
    requires AddBillItemResult(db, billId, amount, currency, io).None?
    requires billId != ""
    ensures var after := AfterAddBillItem(db, billId, amount, currency, io);
      && GetBillResult(after, billId, Healthy).Ok?
      && GetBillResult(after, billId, Healthy).value.billItems ==
           db.bills[billId].items + [BillItem(ItemId(db.nextItemId), amount, currency)]
      && after.bills[billId].status == db.bills[billId].status
  {
  }

  /** An item that fails validation is never stored, whatever the store holds. */
  lemma InvalidItemNeverStored(db: Db, billId: string, amount: int, currency: string, io: Io)
    requires amount <= 0 || currency !in Currencies
    ensures AddBillItemResult(db, billId, amount, currency, io) == Some(Application(InvalidData))
    ensures AfterAddBillItem(db, billId, amount, currency, io) == db
  {
  }

  /**
   * After a successful CloseBill the bill reads back closed, the open check
   * says false, and closing again changes nothing and reports an error.
   */
  lemma ClosedBillReadsClosed(db: Db, billId: string, now: int, io: Io)
    requires CloseBillResult(db, billId, io).None?
    ensures var after := AfterCloseBill(db, billId, now, io);
      && GetBillResult(after, billId, Healthy) == Ok(Bill(billId, ZeroTime, StatusClosed, db.bills[billId].items))
      && CheckOpenBillResult(after, billId, Healthy) == Ok(false)
      && CloseBillResult(after, billId, Healthy) == Some(NoRowError(after))
      && AfterCloseBill(after, billId, now, Healthy) == after
  {
  }

  /** CloseBill never reopens, and never touches a bill that is not open. */
  lemma CloseOnlyClosesOpenBills(db: Db, billId: string, now: int, io: Io)
    ensures var after := AfterCloseBill(db, billId, now, io);
      forall id :: id in db.bills ==>
        || after.bills[id] == db.bills[id]
        || (id == billId && db.bills[id].status == StatusOpen && after.bills[id].status == StatusClosed)
    ensures billId !in db.bills ==> CloseBillResult(db, billId, io).Some? && AfterCloseBill(db, billId, now, io) == db
  {
  }

  /** Coherence holds of the empty store and is kept by every operation that writes. */
  lemma CoherenceKept(db: Db, billId: string, closeDate: int, now: int, newId: string,
                       amount: int, currency: string, io: Io)
    requires Coherent(db)
    ensures Coherent(Db(map[], 0, db.noRowsIsError))
    ensures Coherent(AfterCreateBill(db, closeDate, now, newId, io))
    ensures Coherent(AfterAddBillItem(db, billId, amount, currency, io))
    ensures Coherent(AfterCloseBill(db, billId, now, io))
  {
    var created := AfterCreateBill(db, closeDate, now, newId, io);
    forall id | id in created.bills
      ensures || (created.bills[id].status == StatusOpen && created.bills[id].closedAt.None?)
              || (created.bills[id].status == StatusClosed && created.bills[id].closedAt.Some?)
    {
      if id !in db.bills {
        assert created.bills[id] == BillRow(StatusOpen, closeDate, None, []);
      }
    }
    var added := AfterAddBillItem(db, billId, amount, currency, io);
    forall id | id in added.bills
      ensures || (added.bills[id].status == StatusOpen && added.bills[id].closedAt.None?)
              || (added.bills[id].status == StatusClosed && added.bills[id].closedAt.Some?)
    {
      assert id in db.bills;
    }
    var closed := AfterCloseBill(db, billId, now, io);
    forall id | id in closed.bills
      ensures || (closed.bills[id].status == StatusOpen && closed.bills[id].closedAt.None?)
              || (closed.bills[id].status == StatusClosed && closed.bills[id].closedAt.Some?)
    {
      assert id in db.bills;
    }
  }

  /**
   * In a coherent store a summary of a known bill is read only when it is
   * closed, and an open bill is NOT_FOUND; a summary of an unknown bill is
   * the empty one, and only when the driver reports no error for a missing
   * row.
   */
  lemma SummaryOnlyOfClosedBills(db: Db, billId: string, viewRows: seq<BillItemSummary>, io: Io)
    requires Coherent(db)
    ensures var r := GetBillSummaryResult(db, billId, viewRows, io);
      r.Ok? ==>
        || (billId in db.bills && db.bills[billId].status == StatusClosed && r.value.billId == billId)
        || (billId !in db.bills && !db.noRowsIsError && r.value.billId == "" && r.value.billItems == [])
    ensures billId in db.bills && db.bills[billId].status == StatusOpen ==>
      GetBillSummaryResult(db, billId, viewRows, io) == Err(Application(NotFound))
  {
  }

  /** Distinct counter values give distinct item ids: the decimal text is unique. */
  lemma {:induction false} ItemIdInjective(a: nat, b: nat)
    requires ItemId(a) == ItemId(b)
    ensures a == b
    decreases a
  {
    if a < 10 {
      assert b < 10;
      assert "0123456789"[a] == "0123456789"[b];
    } else {
      assert b >= 10;
      var s := ItemId(a);
      assert s[|s| - 1] == DigitChar(a % 10) && s[|s| - 1] == DigitChar(b % 10);
      assert a % 10 == b % 10;
      assert s[..|s| - 1] == ItemId(a / 10) && s[..|s| - 1] == ItemId(b / 10);
      ItemIdInjective(a / 10, b / 10);
    }
  }

  /** The ids of the items inserted so far: one per counter value below n. */
  ghost function IssuedIds(n: nat): set<string> {
    set k | 0 <= k < n :: ItemId(k)
  }

  /** Every stored item carries an id the counter has already handed out. */
  ghost predicate IdsIssued(db: Db) {
    forall id, i :: id in db.bills && 0 <= i < |db.bills[id].items| ==> db.bills[id].items[i].id in IssuedIds(db.nextItemId)
  }

  /** The empty store has no items, and create, add item and close keep every id issued. */
  lemma IdsIssuedKept(db: Db, billId: string, closeDate: int, now: int, newId: string,
                      amount: int, currency: string, io: Io)
    requires IdsIssued(db)
    ensures IdsIssued(Db(map[], 0, db.noRowsIsError))
    ensures IdsIssued(AfterCreateBill(db, closeDate, now, newId, io))
    ensures IdsIssued(AfterAddBillItem(db, billId, amount, currency, io))
    ensures IdsIssued(AfterCloseBill(db, billId, now, io))
  {
    var added := AfterAddBillItem(db, billId, amount, currency, io);
    if added != db {
      assert ItemId(db.nextItemId) in IssuedIds(added.nextItemId);
      forall k | 0 <= k < db.nextItemId
        ensures ItemId(k) in IssuedIds(added.nextItemId)
      {
      }
    }
  }

  /**
   * The id AddBillItem gives a new item is held by no stored item, of any
   * bill, in a store whose ids were all handed out by its counter.
   */
  lemma {:induction false} NextItemIdFresh(db: Db, billId: string, amount: int, currency: string, io: Io)
    requires IdsIssued(db)
    ensures forall id, i :: id in db.bills && 0 <= i < |db.bills[id].items| ==> db.bills[id].items[i].id != ItemId(db.nextItemId)
    ensures AddBillItemResult(db, billId, amount, currency, io).None? ==>
      var after := AfterAddBillItem(db, billId, amount, currency, io);
      && after.bills[billId].items == db.bills[billId].items + [BillItem(ItemId(db.nextItemId), amount, currency)]
      && ItemId(db.nextItemId) in IssuedIds(after.nextItemId)
  {
    forall id, i | id in db.bills && 0 <= i < |db.bills[id].items|
      ensures db.bills[id].items[i].id != ItemId(db.nextItemId)
    {
      if db.bills[id].items[i].id == ItemId(db.nextItemId) {
        var k :| 0 <= k < db.nextItemId && ItemId(k) == db.bills[id].items[i].id;
        ItemIdInjective(k, db.nextItemId);
        assert false;
      }
    }
  }

  /** The bill ids of a list. */
  function IdsOf(bills: seq<Bill>): set<string> {
    set i | 0 <= i < |bills| :: bills[i].billId
  }

  /** A list whose ids are pairwise distinct has as many ids as entries. */
  lemma {:induction false} DistinctIdsCount(bills: seq<Bill>)
    requires forall i, j :: 0 <= i < j < |bills| ==> bills[i].billId != bills[j].billId
    ensures |IdsOf(bills)| == |bills|
    decreases |bills|
  {
    if bills != [] {
      var n := |bills| - 1;
      var prefix := bills[..n];
      DistinctIdsCount(prefix);
      assert IdsOf(bills) == IdsOf(prefix) + {bills[n].billId};
      assert bills[n].billId !in IdsOf(prefix);
    }
  }

  /**
   * ListBills without a status lists every bill once; with a status, it
   * lists exactly the bills in that status, once each.
   */
  lemma ListingIsExact(db: Db, params: ListBillParams, bills: seq<Bill>)
    requires ListsExactly(db, params, bills)
    ensures IdsOf(bills) == Selected(db, params)
    ensures |bills| == |Selected(db, params)|
    ensures params.status == "" ==> IdsOf(bills) == db.bills.Keys
    ensures params.status != "" ==>
      forall id :: id in IdsOf(bills) <==> id in db.bills && db.bills[id].status == params.status
    ensures forall i :: 0 <= i < |bills| ==> bills[i].status == db.bills[bills[i].billId].status
  {
    forall id | id in Selected(db, params)
      ensures id in IdsOf(bills)
    {
      var i :| 0 <= i < |bills| && bills[i].billId == id;
    }
    DistinctIdsCount(bills);
  }
}
