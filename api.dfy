/**
 * The HTTP handlers of billing/api.go. Each handler is a chain of checks on
 * the results of the calls it makes; those results are parameters, and the
 * handler returns its reply together with what it sent to the workflow
 * engine or read from the store (`Dispatch`). The lemmas at the end put the
 * handlers together with the store and the workflow.
 */
module Api {
  import opened Wrappers
  import opened Models
  import opened Errors
  import opened Activities
  import opened Workflows

  /** The error replies: coded errors carry the downstream text, which is not modelled. */
  datatype ApiError =
    | InvalidArgument
    | FailedPrecondition(message: string)
    | Unwrapped(error: Error)   // an activity error returned as is

  datatype Response = Response(message: string)

  /** What a handler does beyond replying. */
  datatype Dispatch =
    | StartWorkflow(workflowId: string, bill: Bill)
    | UpdateWorkflow(workflowId: string, updateName: string, items: seq<BillItem>)
    | SignalWorkflow(workflowId: string, signalName: string)
    | ReadSummary(billId: string)

  datatype Handled<T> = Handled(reply: Result<T, ApiError>, dispatched: seq<Dispatch>)

  const AlreadyClosed: string := "Bill is already closed."
  const StillOpen: string := "Bill is still open."
  const ItemsAdded: string := "Bill items added."
  const BillClosed: string := "Bill closed"

  /**
   * CreateBill: the create activity's error is returned as is and no
   * workflow starts; otherwise one ComposeBill workflow whose id is the new
   * bill's id, and that id is the reply. The start's own outcome is ignored.
   */
  function CreateBill(created: Result<Bill, Error>): (h: Handled<string>)
    ensures h.dispatched == [] <==> created.Err?
    ensures created.Err? ==> h.reply == Err(Unwrapped(created.error))
    ensures created.Ok? ==>
      h.reply == Ok(created.value.billId) && h.dispatched == [StartWorkflow(created.value.billId, created.value)]
  {
    match created
    case Err(e) => Handled(Err(Unwrapped(e)), [])
    case Ok(bill) => Handled(Ok(bill.billId), [StartWorkflow(bill.billId, bill)])
  }

  /**
   * AddBillItems: a failed open check is InvalidArgument, a closed bill is
   * FailedPrecondition; only an open bill gets the whole batch as one
   * update_bill_items update to the workflow named by the bill id, and the
   * reply is success only if that update completed without error.
   */
  function AddBillItems(billId: string, items: seq<BillItem>, isOpen: Result<bool, Error>, updateOk: bool): (h: Handled<Response>)
    ensures h.dispatched != [] <==> isOpen == Ok(true)
    ensures isOpen == Ok(true) ==> h.dispatched == [UpdateWorkflow(billId, UpdateBillItems, items)]
    ensures h.reply.Ok? <==> isOpen == Ok(true) && updateOk
    ensures isOpen.Err? ==> h.reply == Err(InvalidArgument)
    ensures isOpen == Ok(false) ==> h.reply == Err(FailedPrecondition(AlreadyClosed))
  {
    if isOpen.Err? then Handled(Err(InvalidArgument), [])
    else if !isOpen.value then Handled(Err(FailedPrecondition(AlreadyClosed)), [])
    else
      var sent := [UpdateWorkflow(billId, UpdateBillItems, items)];
      if !updateOk then Handled(Err(InvalidArgument), sent)
      else Handled(Ok(Response(ItemsAdded)), sent)
  }

  /** CloseBill: only the CLOSE_BILL signal to the workflow named by the bill id. */
  function CloseBill(billId: string, signalOk: bool): (h: Handled<Response>)
    ensures h.dispatched == [SignalWorkflow(billId, CloseBillSignal)]
    ensures h.reply.Ok? <==> signalOk
  {
    var sent := [SignalWorkflow(billId, CloseBillSignal)];
    if !signalOk then Handled(Err(InvalidArgument), sent)
    else Handled(Ok(Response(BillClosed)), sent)
  }

  /**
   * GetBillSummary: a failed open check is InvalidArgument, an open bill is
   * FailedPrecondition; the summary is read only for a bill that is not open.
   */
  function GetBillSummary(billId: string, isOpen: Result<bool, Error>, summary: Result<BillSummary, Error>): (h: Handled<BillSummary>)
    ensures h.dispatched != [] <==> isOpen == Ok(false)
    ensures isOpen == Ok(false) ==> h.dispatched == [ReadSummary(billId)]
    ensures h.reply.Ok? <==> isOpen == Ok(false) && summary.Ok?
    ensures h.reply.Ok? ==> h.reply.value == summary.value
    ensures isOpen == Ok(true) ==> h.reply == Err(FailedPrecondition(StillOpen))
  {
    if isOpen.Err? then Handled(Err(InvalidArgument), [])
    else if isOpen.value then Handled(Err(FailedPrecondition(StillOpen)), [])
    else
      var sent := [ReadSummary(billId)];
      match summary
      case Err(_) => Handled(Err(InvalidArgument), sent)
      case Ok(s) => Handled(Ok(s), sent)
  }

  /** ListBills: the listing, or InvalidArgument when the query failed. */
  function ListBills(listed: Result<seq<Bill>, Error>): (h: Handled<seq<Bill>>)
    ensures h.dispatched == []
    ensures h.reply.Ok? <==> listed.Ok?
    ensures listed.Ok? ==> h.reply.value == listed.value
  {
    match listed
    case Err(_) => Handled(Err(InvalidArgument), [])
    case Ok(bills) => Handled(Ok(bills), [])
  }

  // ---------------------------------------------------------------------
  // Handlers over the store and the workflow
  // ---------------------------------------------------------------------

  /** A close date in the past creates no bill and starts no workflow. */
  lemma PastCloseDateStartsNothing(db: Db, closeDate: int, now: int, newId: string, io: Io)
    requires closeDate < now
    ensures CreateBill(CreateBillResult(db, closeDate, now, newId, io)).dispatched == []
    ensures CreateBill(CreateBillResult(db, closeDate, now, newId, io)).reply == Err(Unwrapped(Application(InvalidData)))
    ensures AfterCreateBill(db, closeDate, now, newId, io) == db
  {
  }

  /**
   * A successful create starts exactly one workflow, named by the new id,
   * carrying the new bill, and that bill is open in the store, so the
   * workflow's timer has a bill to close.
   */
  lemma CreatedBillGetsOneWorkflow(db: Db, closeDate: int, now: int, newId: string, io: Io)
    requires now <= closeDate && !Fails(io, 1) && newId !in db.bills
    ensures var h := CreateBill(CreateBillResult(db, closeDate, now, newId, io));
      && h.reply == Ok(newId)
      && |h.dispatched| == 1
      && h.dispatched[0].StartWorkflow? && h.dispatched[0].workflowId == newId
      && h.dispatched[0].bill == Bill(newId, closeDate, StatusOpen, [])
      && Closable(AfterCreateBill(db, closeDate, now, newId, io), newId)
  {
  }

  /** Items for a bill that is not open are refused as FailedPrecondition, and no update is sent. */
  lemma ItemsForClosedBillRefused(db: Db, billId: string, items: seq<BillItem>, io: Io, updateOk: bool)
    requires billId != "" && billId in db.bills && db.bills[billId].status != StatusOpen && !Fails(io, 1)
    ensures AddBillItems(billId, items, CheckOpenBillResult(db, billId, io), updateOk) ==
      Handled(Err(FailedPrecondition(AlreadyClosed)), [])
  {
  }

  /** Items for an unknown bill are refused as InvalidArgument, and no update is sent. */
  lemma ItemsForUnknownBillRefused(db: Db, billId: string, items: seq<BillItem>, io: Io, updateOk: bool)
    requires billId !in db.bills
    ensures AddBillItems(billId, items, CheckOpenBillResult(db, billId, io), updateOk) == Handled(Err(InvalidArgument), [])
  {
  }

  /**
   * Items for an open bill whose workflow is waiting reach the workflow as
   * one update, which the handler applies: the reply is success and the
   * store is the batch's result.
   */
  lemma ItemsForOpenBillApplied(w: WorkflowState, items: seq<BillItem>, io: Io, ios: seq<seq<Io>>)
    requires Waiting(w)
    requires w.bill.billId != "" && Closable(w.db, w.bill.billId) && !Fails(io, 1)
    ensures var h := AddBillItems(w.bill.billId, items, CheckOpenBillResult(w.db, w.bill.billId, io), Waiting(w));
      && h.reply == Ok(Response(ItemsAdded))
      && h.dispatched == [UpdateWorkflow(w.bill.billId, UpdateBillItems, items)]
      && Step(w, ItemsUpdate(items, ios)).db == AfterBatch(w.db, w.bill.billId, items, ios)
  {
  }

  /**
   * As written, once the CLOSE_BILL signal has won the race the bill is
   * still open in the store: an item request passes the open check, its
   * update is sent, the finished workflow refuses it, and the caller gets
   * InvalidArgument rather than FailedPrecondition.
   */
  lemma ItemsAfterSignalReachFinishedWorkflow(db: Db, bill: Bill, events: seq<Event>, items: seq<BillItem>, io: Io)
    requires bill.billId != "" && Closable(db, bill.billId) && !Fails(io, 1)
    requires FirstRaceEvent(events) == Some(SignalBranch)
    ensures var w := Run(Start(db, bill, false), events);
      var h := AddBillItems(bill.billId, items, CheckOpenBillResult(w.db, bill.billId, io), Waiting(w));
      && CheckOpenBillResult(w.db, bill.billId, io) == Ok(true)
      && h.dispatched == [UpdateWorkflow(bill.billId, UpdateBillItems, items)]
      && h.reply == Err(InvalidArgument)
  {
    StartConsistent(db, bill, false);
    SignalWinnerLeavesStatuses(Start(db, bill, false), events);
    SelectResolvesOnce(Start(db, bill, false), events);
  }

  /**
   * The open check runs before the summary is read, so an unknown bill is
   * InvalidArgument and the empty summary the read would give never reaches
   * the client.
   */
  lemma SummaryOfUnknownBillRefused(db: Db, billId: string, io: Io, viewRows: seq<BillItemSummary>)
    requires billId !in db.bills
    ensures GetBillSummary(billId, CheckOpenBillResult(db, billId, io), GetBillSummaryResult(db, billId, viewRows, io)) ==
      Handled(Err(InvalidArgument), [])
  {
  }

  /** A summary of an open bill is refused as FailedPrecondition, and nothing is read. */
  lemma SummaryOfOpenBillRefused(db: Db, billId: string, io: Io, summary: Result<BillSummary, Error>)
    requires billId != "" && Closable(db, billId) && !Fails(io, 1)
    ensures GetBillSummary(billId, CheckOpenBillResult(db, billId, io), summary) ==
      Handled(Err(FailedPrecondition(StillOpen)), [])
  {
  }

  /**
   * The bill's life when its timer wins: created open, one item added, the
   * summary refused while open; after the timer the bill is closed and its
   * summary, with that item, is returned.
   */
  lemma TimerClosedBillSummarised(db: Db, closeDate: int, now: int, newId: string, item: BillItem,
                                  ios: seq<seq<Io>>, closeIos: seq<Io>, viewRows: seq<BillItemSummary>)
    requires newId != "" && newId !in db.bills && now <= closeDate
    requires item.amount > 0 && item.currency in Currencies
    requires IoAt(IosFor(ios, 0), 0) == Healthy && IoAt(closeIos, 0) == Healthy
    ensures var created := AfterCreateBill(db, closeDate, now, newId, Healthy);
      var bill := CreateBillResult(db, closeDate, now, newId, Healthy).value;
      var w1 := Step(Start(created, bill, false), ItemsUpdate([item], ios));
      var w2 := Step(w1, TimerFired(closeDate, closeIos));
      var stored := BillItem(ItemId(db.nextItemId), item.amount, item.currency);
      && GetBillSummary(newId, CheckOpenBillResult(w1.db, newId, Healthy),
                        GetBillSummaryResult(w1.db, newId, viewRows, Healthy)).reply == Err(FailedPrecondition(StillOpen))
      && w2.winner == Some(TimerBranch) && w2.closeCalls == 1 && w2.addCalls == 1
      && GetBillSummary(newId, CheckOpenBillResult(w2.db, newId, Healthy),
                        GetBillSummaryResult(w2.db, newId, viewRows, Healthy)).reply ==
           Ok(BillSummary(newId, closeDate, StatusClosed, [stored], SummaryRowsOf(viewRows, newId)))
  {
    var created := AfterCreateBill(db, closeDate, now, newId, Healthy);
    var bill := CreateBillResult(db, closeDate, now, newId, Healthy).value;
    var w0 := Start(created, bill, false);
    HealthyBatchStoresValidItems(created, newId, [item], ios);
    assert ValidItems([item]) == [item] by {
      assert [item][..0] == [];
    }
    var w1 := Step(w0, ItemsUpdate([item], ios));
    var stored := BillItem(ItemId(db.nextItemId), item.amount, item.currency);
    assert w1.db.bills[newId] == BillRow(StatusOpen, closeDate, None, [stored]);
    assert Stops(CloseOutcomes(w1.db, newId, closeIos)[0]);
    assert CloseError(w1.db, newId, closeIos).None?;
    var w2 := Step(w1, TimerFired(closeDate, closeIos));
    assert w2.db == AfterCloseBill(w1.db, newId, closeDate, Healthy);
    assert w2.db.bills[newId] == BillRow(StatusClosed, closeDate, Some(closeDate), [stored]);
  }
}
