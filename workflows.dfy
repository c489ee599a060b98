/**
 * The bill workflow of billing/workflows/workflows.go (ComposeBill): every
 * activity runs under a retry policy of at most three attempts; an update
 * handler applies a batch of items one at a time and swallows per-item
 * failures; a selector waits once for the first of the close-date timer and
 * the CLOSE_BILL signal. The timer branch runs the CloseBill activity; the
 * signal branch only cancels the timer.
 *
 * The workflow is a state machine over `WorkflowState`, driven by the events
 * the engine delivers (`Event`). `Step` is its specification and the
 * `BillWorkflow` class implements it on fields, calling the store's
 * activities attempt by attempt.
 */
module Workflows {
  import opened Wrappers
  import opened Models
  import opened Errors
  import opened Activities

  /** RetryPolicy.MaximumAttempts of the activity options. */
  const MaximumAttempts: nat := 3

  /** The name the update handler is registered under. */
  const UpdateBillItems: string := "update_bill_items"

  /** The signal that asks for an early close. */
  const CloseBillSignal: string := "CLOSE_BILL"

  // ---------------------------------------------------------------------
  // Retry policy
  // ---------------------------------------------------------------------

  /** An attempt that succeeds or fails non-retryably ends the retries. */
  predicate Stops(outcome: Option<Error>) {
    outcome.None? || !Retryable(outcome.value)
  }

  /**
   * The number of attempts the policy makes when attempt k would end with
   * `outcomes[k]`: up to and including the first attempt that stops, and
   * never more than `|outcomes|`.
   */
  function Attempts(outcomes: seq<Option<Error>>): (n: nat)
    requires |outcomes| > 0
    ensures 1 <= n <= |outcomes|
    ensures forall k :: 0 <= k < n - 1 ==> !Stops(outcomes[k])
    ensures n < |outcomes| ==> Stops(outcomes[n - 1])
  {
    if |outcomes| == 1 || Stops(outcomes[0]) then 1 else 1 + Attempts(outcomes[1..])
  }

  /** The two conditions above determine the attempt count. */
  lemma AttemptsUnique(outcomes: seq<Option<Error>>, n: nat)
    requires 1 <= n <= |outcomes|
    requires forall k :: 0 <= k < n - 1 ==> !Stops(outcomes[k])
    requires n < |outcomes| ==> Stops(outcomes[n - 1])
    ensures Attempts(outcomes) == n
  {
  }

  /** The database behaviour of attempt k; attempts beyond the list are healthy. */
  function IoAt(ios: seq<Io>, k: nat): Io {
    if k < |ios| then ios[k] else Healthy
  }

  // ---------------------------------------------------------------------
  // ExecuteActivity(AddBillItem) and ExecuteActivity(CloseBill)
  // ---------------------------------------------------------------------

  /** The outcome each attempt of AddBillItem would have; a failed attempt changes nothing. */
  function AddOutcomes(db: Db, billId: string, item: BillItem, ios: seq<Io>): seq<Option<Error>> {
    seq(MaximumAttempts, k requires 0 <= k < MaximumAttempts =>
      AddBillItemResult(db, billId, item.amount, item.currency, IoAt(ios, k)))
  }

  /** How many times AddBillItem runs for one item. */
  function AddCalls(db: Db, billId: string, item: BillItem, ios: seq<Io>): (n: nat)
    ensures 1 <= n <= MaximumAttempts
    ensures forall k :: 0 <= k < n - 1 ==>
      var o := AddOutcomes(db, billId, item, ios)[k]; o.Some? && Retryable(o.value)
  {
    Attempts(AddOutcomes(db, billId, item, ios))
  }

  /** The error ExecuteActivity(...).Get reports for one item. */
  function AddError(db: Db, billId: string, item: BillItem, ios: seq<Io>): (r: Option<Error>)
    ensures r.Some? && Retryable(r.value) ==> AddCalls(db, billId, item, ios) == MaximumAttempts
    ensures r.Some? && !Retryable(r.value) ==> r == ValidateBillItem(item.amount, item.currency) && AddCalls(db, billId, item, ios) == 1
    ensures ValidateBillItem(item.amount, item.currency).Some? ==> r == ValidateBillItem(item.amount, item.currency)
  {
    var outs := AddOutcomes(db, billId, item, ios);
    var n := AddCalls(db, billId, item, ios);
    assert ValidateBillItem(item.amount, item.currency).Some? ==> Stops(outs[0]);
    outs[n - 1]
  }

  /** The store after one item's activity: changed only by a successful last attempt. */
  function AfterAdd(db: Db, billId: string, item: BillItem, ios: seq<Io>): (db': Db)
    ensures AddError(db, billId, item, ios).Some? ==> db' == db
    ensures AddError(db, billId, item, ios).None? ==> db' == AfterAddBillItem(db, billId, item.amount, item.currency, Healthy)
  {
    AfterAddBillItem(db, billId, item.amount, item.currency, IoAt(ios, AddCalls(db, billId, item, ios) - 1))
  }

  function CloseOutcomes(db: Db, billId: string, ios: seq<Io>): seq<Option<Error>> {
    seq(MaximumAttempts, k requires 0 <= k < MaximumAttempts => CloseBillResult(db, billId, IoAt(ios, k)))
  }

  /** How many times CloseBill runs when the timer branch executes it. */
  function CloseCalls(db: Db, billId: string, ios: seq<Io>): (n: nat)
    ensures 1 <= n <= MaximumAttempts
    ensures forall k :: 0 <= k < n - 1 ==>
      var o := CloseOutcomes(db, billId, ios)[k]; o.Some? && Retryable(o.value)
  {
    Attempts(CloseOutcomes(db, billId, ios))
  }

  /** The error ExecuteActivity(ctx, CloseBill, ...).Get reports. */
  function CloseError(db: Db, billId: string, ios: seq<Io>): (r: Option<Error>)
    ensures r.None? ==> Closable(db, billId)
    ensures r.Some? && Retryable(r.value) ==> CloseCalls(db, billId, ios) == MaximumAttempts
    ensures !Closable(db, billId) && !db.noRowsIsError ==> r == Some(Plain(Unavailable)) || r == Some(Application(NotFound))
  {
    CloseOutcomes(db, billId, ios)[CloseCalls(db, billId, ios) - 1]
  }

  /** The store after CloseBill's attempts: changed only by a successful UPDATE. */
  function AfterClose(db: Db, billId: string, now: int, ios: seq<Io>): (db': Db)
    ensures !Closable(db, billId) ==> db' == db
    ensures CloseError(db, billId, ios).None? ==> db' == AfterCloseBill(db, billId, now, Healthy)
    ensures db'.bills.Keys == db.bills.Keys
  {
    AfterCloseBill(db, billId, now, IoAt(ios, CloseCalls(db, billId, ios) - 1))
  }

  /** Every attempt's INSERT fails. */
  predicate EveryAttemptFails(ios: seq<Io>) {
    forall k :: 0 <= k < MaximumAttempts ==> Fails(IoAt(ios, k), 1)
  }

  /** An invalid item is tried once, fails INVALID-DATA and stores nothing. */
  lemma InvalidItemTriedOnce(db: Db, billId: string, item: BillItem, ios: seq<Io>)
    requires ValidateBillItem(item.amount, item.currency).Some?
    ensures AddCalls(db, billId, item, ios) == 1
    ensures AddError(db, billId, item, ios) == Some(Application(InvalidData))
    ensures AfterAdd(db, billId, item, ios) == db
  {
    assert Stops(AddOutcomes(db, billId, item, ios)[0]);
  }

  /** A valid item whose insert fails on every attempt is tried exactly MaximumAttempts times. */
  lemma FailingItemTriedToCap(db: Db, billId: string, item: BillItem, ios: seq<Io>)
    requires ValidateBillItem(item.amount, item.currency).None?
    requires EveryAttemptFails(ios) || billId !in db.bills
    ensures AddCalls(db, billId, item, ios) == MaximumAttempts
    ensures AddError(db, billId, item, ios).Some? && Retryable(AddError(db, billId, item, ios).value)
    ensures AfterAdd(db, billId, item, ios) == db
  {
    var outs := AddOutcomes(db, billId, item, ios);
    assert !Stops(outs[0]) && !Stops(outs[1]) && !Stops(outs[2]);
  }

  /** A valid item for an existing bill whose first attempt is healthy is stored after one call. */
  lemma HealthyItemStoredOnce(db: Db, billId: string, item: BillItem, ios: seq<Io>)
    requires ValidateBillItem(item.amount, item.currency).None? && billId in db.bills
    requires IoAt(ios, 0) == Healthy
    ensures AddCalls(db, billId, item, ios) == 1 && AddError(db, billId, item, ios).None?
    ensures AfterAdd(db, billId, item, ios) == AfterAddBillItem(db, billId, item.amount, item.currency, Healthy)
  {
    assert Stops(AddOutcomes(db, billId, item, ios)[0]);
  }

  // ---------------------------------------------------------------------
  // The update handler
  // ---------------------------------------------------------------------

  /** The database behaviour for the attempts of the k-th item of a batch. */
  function IosFor(ios: seq<seq<Io>>, k: nat): seq<Io> {
    if k < |ios| then ios[k] else []
  }

  /** The store after the handler has run the items of `items` in order. */
  function AfterBatch(db: Db, billId: string, items: seq<BillItem>, ios: seq<seq<Io>>): (db': Db)
    ensures db'.bills.Keys == db.bills.Keys && db'.noRowsIsError == db.noRowsIsError
    ensures db.nextItemId <= db'.nextItemId <= db.nextItemId + |items|
    decreases |items|
  {
    if items == [] then db
    else
      var n := |items| - 1;
      AfterAdd(AfterBatch(db, billId, items[..n], ios), billId, items[n], IosFor(ios, n))
  }

  /** How many AddBillItem calls the handler makes for `items`: one to MaximumAttempts per item. */
  function BatchCalls(db: Db, billId: string, items: seq<BillItem>, ios: seq<seq<Io>>): (n: nat)
    ensures |items| <= n <= MaximumAttempts * |items|
    decreases |items|
  {
    if items == [] then 0
    else
      var n := |items| - 1;
      BatchCalls(db, billId, items[..n], ios) + AddCalls(AfterBatch(db, billId, items[..n], ios), billId, items[n], IosFor(ios, n))
  }

  /** The items of a batch that pass validation, in batch order. */
  function ValidItems(items: seq<BillItem>): (r: seq<BillItem>)
    ensures |r| <= |items|
  {
    if items == [] then []
    else
      var n := |items| - 1;
      if ValidateBillItem(items[n].amount, items[n].currency).None? then ValidItems(items[..n]) + [items[n]]
      else ValidItems(items[..n])
  }

  /** The rows the database stores for `items`, numbering their ids from `next`. */
  function Stored(items: seq<BillItem>, next: nat): (r: seq<BillItem>)
    ensures |r| == |items|
  {
    if items == [] then []
    else
      var n := |items| - 1;
      Stored(items[..n], next) + [BillItem(ItemId(next + n), items[n].amount, items[n].currency)]
  }

  /**
   * One item's activity, however its attempts go, keeps every bill's
   * existence, status and close time, and either changes nothing or appends
   * that item, valid, to its bill.
   */
  lemma AddOnlyAppendsValid(db: Db, billId: string, item: BillItem, ios: seq<Io>)
    ensures var after := AfterAdd(db, billId, item, ios);
      && after.bills.Keys == db.bills.Keys
      && after.noRowsIsError == db.noRowsIsError
      && (forall id :: id in db.bills && id != billId ==> after.bills[id] == db.bills[id])
      && (|| after == db
          || (&& billId in db.bills && item.amount > 0 && item.currency in Currencies
              && after.bills[billId] == db.bills[billId].(items := db.bills[billId].items + [BillItem(ItemId(db.nextItemId), item.amount, item.currency)])))
  {
  }

  /** Storing one more item appends its row, numbered after the rows before it. */
  lemma StoredAppend(items: seq<BillItem>, item: BillItem, next: nat)
    ensures Stored(items + [item], next) == Stored(items, next) + [BillItem(ItemId(next + |items|), item.amount, item.currency)]
  {
    assert (items + [item])[..|items|] == items;
  }

  /** Every item the handler stores passed validation, and it touches no other bill and no status. */
  lemma {:induction false} BatchStoresOnlyValidItems(db: Db, billId: string, items: seq<BillItem>, ios: seq<seq<Io>>)
    ensures var after := AfterBatch(db, billId, items, ios);
      && after.bills.Keys == db.bills.Keys
      && after.noRowsIsError == db.noRowsIsError
      && (forall id :: id in db.bills && id != billId ==> after.bills[id] == db.bills[id])
      && (forall id :: id in db.bills ==> after.bills[id].status == db.bills[id].status && after.bills[id].closedAt == db.bills[id].closedAt)
      && (billId in db.bills ==>
            && |db.bills[billId].items| <= |after.bills[billId].items|
            && after.bills[billId].items[..|db.bills[billId].items|] == db.bills[billId].items
            && forall j :: |db.bills[billId].items| <= j < |after.bills[billId].items| ==>
                 after.bills[billId].items[j].amount > 0 && after.bills[billId].items[j].currency in Currencies)
    decreases |items|
  {
    if items != [] {
      var n := |items| - 1;
      var mid := AfterBatch(db, billId, items[..n], ios);
      BatchStoresOnlyValidItems(db, billId, items[..n], ios);
      var item, itemIos := items[n], IosFor(ios, n);
      var after := AfterAdd(mid, billId, item, itemIos);
      AddOnlyAppendsValid(mid, billId, item, itemIos);
      if after != mid {
        var k := |db.bills[billId].items|;
        assert after.bills[billId].items[..k] == mid.bills[billId].items[..k];
      }
    }
  }

  /**
   * Batch isolation: when the first attempt of every item is healthy and the
   * bill exists, each item takes one call, exactly the valid items are
   * stored, in batch order, and nothing else changes.
   */
  lemma {:induction false} HealthyBatchStoresValidItems(db: Db, billId: string, items: seq<BillItem>, ios: seq<seq<Io>>)
    requires billId in db.bills
    requires forall k :: 0 <= k < |items| ==> IoAt(IosFor(ios, k), 0) == Healthy
    ensures BatchCalls(db, billId, items, ios) == |items|
    ensures var after := AfterBatch(db, billId, items, ios);
      && after.bills.Keys == db.bills.Keys
      && after.nextItemId == db.nextItemId + |ValidItems(items)|
      && after.bills[billId] == db.bills[billId].(items := db.bills[billId].items + Stored(ValidItems(items), db.nextItemId))
      && (forall id :: id in db.bills && id != billId ==> after.bills[id] == db.bills[id])
    decreases |items|
  {
    if items != [] {
      var n := |items| - 1;
      var prefix := items[..n];
      HealthyBatchStoresValidItems(db, billId, prefix, ios);
      BatchSnoc(db, billId, items, ios);
      HealthyItemExtends(db, AfterBatch(db, billId, prefix, ios), billId, items[n], IosFor(ios, n), ValidItems(prefix));
    }
  }

  /** The batch is its prefix followed by its last item. */
  lemma BatchSnoc(db: Db, billId: string, items: seq<BillItem>, ios: seq<seq<Io>>)
    requires items != []
    ensures var n := |items| - 1;
      && AfterBatch(db, billId, items, ios) == AfterAdd(AfterBatch(db, billId, items[..n], ios), billId, items[n], IosFor(ios, n))
      && BatchCalls(db, billId, items, ios) ==
           BatchCalls(db, billId, items[..n], ios) + AddCalls(AfterBatch(db, billId, items[..n], ios), billId, items[n], IosFor(ios, n))
  {
  }

  /** The first i + 1 items are the first i followed by item i. */
  lemma BatchStep(db: Db, billId: string, items: seq<BillItem>, ios: seq<seq<Io>>, i: nat)
    requires i < |items|
    ensures AfterBatch(db, billId, items[..i + 1], ios) == AfterAdd(AfterBatch(db, billId, items[..i], ios), billId, items[i], IosFor(ios, i))
    ensures BatchCalls(db, billId, items[..i + 1], ios) ==
      BatchCalls(db, billId, items[..i], ios) + AddCalls(AfterBatch(db, billId, items[..i], ios), billId, items[i], IosFor(ios, i))
  {
    var done := items[..i + 1];
    assert done[..i] == items[..i] && done[i] == items[i];
    BatchSnoc(db, billId, done, ios);
  }

  /**
   * One healthy item on top of a store that already holds the rows of the
   * valid items `v`: one call, and the rows of `v` plus the item if it is
   * valid.
   */
  lemma HealthyItemExtends(db: Db, mid: Db, billId: string, item: BillItem, ios: seq<Io>, v: seq<BillItem>)
    requires billId in db.bills && mid.bills.Keys == db.bills.Keys
    requires mid.nextItemId == db.nextItemId + |v|
    requires mid.bills[billId] == db.bills[billId].(items := db.bills[billId].items + Stored(v, db.nextItemId))
    requires forall id :: id in db.bills && id != billId ==> mid.bills[id] == db.bills[id]
    requires IoAt(ios, 0) == Healthy
    ensures AddCalls(mid, billId, item, ios) == 1
    ensures var v' := if ValidateBillItem(item.amount, item.currency).None? then v + [item] else v;
      var after := AfterAdd(mid, billId, item, ios);
      && after.bills.Keys == db.bills.Keys
      && after.nextItemId == db.nextItemId + |v'|
      && after.bills[billId] == db.bills[billId].(items := db.bills[billId].items + Stored(v', db.nextItemId))
      && (forall id :: id in db.bills && id != billId ==> after.bills[id] == db.bills[id])
  {
    if ValidateBillItem(item.amount, item.currency).None? {
      HealthyItemStoredOnce(mid, billId, item, ios);
      StoredAppend(v, item, db.nextItemId);
      var before := db.bills[billId].items;
      var added := BillItem(ItemId(db.nextItemId + |v|), item.amount, item.currency);
      assert (before + Stored(v, db.nextItemId)) + [added] == before + (Stored(v, db.nextItemId) + [added]);
    } else {
      InvalidItemTriedOnce(mid, billId, item, ios);
    }
  }

  /** Every attempt of every item failing retryably costs MaximumAttempts calls per item and stores nothing. */
  lemma {:induction false} FailingBatchUsesEveryAttempt(db: Db, billId: string, items: seq<BillItem>, ios: seq<seq<Io>>)
    requires forall k :: 0 <= k < |items| ==> ValidateBillItem(items[k].amount, items[k].currency).None?
    requires billId !in db.bills || forall k :: 0 <= k < |items| ==> EveryAttemptFails(IosFor(ios, k))
    ensures BatchCalls(db, billId, items, ios) == MaximumAttempts * |items|
    ensures AfterBatch(db, billId, items, ios) == db
    decreases |items|
  {
    if items != [] {
      var n := |items| - 1;
      FailingBatchUsesEveryAttempt(db, billId, items[..n], ios);
      FailingItemTriedToCap(db, billId, items[n], IosFor(ios, n));
    }
  }

  // ---------------------------------------------------------------------
  // The workflow as a state machine
  // ---------------------------------------------------------------------

  /** The selector callback that ran. */
  datatype Branch = TimerBranch | SignalBranch

  /**
   * The store, the workflow's bill, whether the update handler is
   * registered, which select callback ran, whether the timer was cancelled,
   * whether ComposeBill has returned and with what, and how many times each
   * activity has run.
   */
  datatype WorkflowState = WorkflowState(
    db: Db,
    bill: Bill,
    registered: bool,
    winner: Option<Branch>,
    timerCancelled: bool,
    completed: bool,
    result: Option<Error>,
    closeCalls: nat,
    addCalls: nat)

  /** What the engine delivers to a running workflow. */
  datatype Event =
    | TimerFired(now: int, closeIos: seq<Io>)               // the close-date timer elapses
    | CloseSignal                                           // a CLOSE_BILL signal arrives
    | ItemsUpdate(items: seq<BillItem>, itemIos: seq<seq<Io>>)  // an update_bill_items update arrives

  /** ComposeBill up to the select; a failed handler registration returns WORKFLOW_ERROR at once. */
  function Start(db: Db, bill: Bill, registerFails: bool): (s: WorkflowState)
    ensures s.db == db && s.bill == bill && s.winner.None? && s.closeCalls == 0 && s.addCalls == 0
    ensures s.completed <==> registerFails
    ensures registerFails ==> s.result == Some(Application(WorkflowError))
  {
    if registerFails then WorkflowState(db, bill, false, None, false, true, Some(Application(WorkflowError)), 0, 0)
    else WorkflowState(db, bill, true, None, false, false, None, 0, 0)
  }

  /** The workflow is blocked in the select with the handler registered. */
  predicate Waiting(s: WorkflowState) {
    s.registered && !s.completed
  }

  /**
   * One event: the first timer or signal decides the select and completes
   * the workflow; an update runs the batch and leaves the select waiting;
   * once completed, nothing changes.
   */
  function Step(s: WorkflowState, e: Event): (t: WorkflowState)
    ensures t.bill == s.bill && t.registered == s.registered
    ensures !Waiting(s) ==> t == s
    ensures Waiting(s) && e.TimerFired? ==>
      && t.completed && t.winner == Some(TimerBranch) && t.timerCancelled == s.timerCancelled && t.result.None?
      && t.db == AfterClose(s.db, s.bill.billId, e.now, e.closeIos)
      && s.closeCalls < t.closeCalls <= s.closeCalls + MaximumAttempts
    ensures Waiting(s) && e.CloseSignal? ==>
      t.completed && t.winner == Some(SignalBranch) && t.timerCancelled && t.db == s.db && t.closeCalls == s.closeCalls
    ensures Waiting(s) && e.ItemsUpdate? ==>
      && Waiting(t) && t.winner == s.winner && t.closeCalls == s.closeCalls
      && t.db == AfterBatch(s.db, s.bill.billId, e.items, e.itemIos)
      && s.addCalls + |e.items| <= t.addCalls <= s.addCalls + MaximumAttempts * |e.items|
  {
    match e
    case TimerFired(now, ios) =>
      if !Waiting(s) then s
      else s.(db := AfterClose(s.db, s.bill.billId, now, ios),
              winner := Some(TimerBranch),
              completed := true,
              result := None,
              closeCalls := s.closeCalls + CloseCalls(s.db, s.bill.billId, ios))
    case CloseSignal =>
      if !Waiting(s) then s
      else s.(winner := Some(SignalBranch), timerCancelled := true, completed := true, result := None)
    case ItemsUpdate(items, ios) =>
      if !Waiting(s) then s
      else s.(db := AfterBatch(s.db, s.bill.billId, items, ios),
              addCalls := s.addCalls + BatchCalls(s.db, s.bill.billId, items, ios))
  }

  function Run(s: WorkflowState, events: seq<Event>): WorkflowState
    decreases |events|
  {
    if events == [] then s else Run(Step(s, events[0]), events[1..])
  }

  /**
   * What always holds of the workflow: at most one select callback ran, and
   * only after a successful registration; the timer is cancelled exactly
   * when the signal won; CloseBill ran (at most MaximumAttempts times)
   * exactly when the timer won; a completed workflow with a handler returned
   * nil, one without returned WORKFLOW_ERROR.
   */
  predicate Consistent(s: WorkflowState) {
    && (s.winner.Some? <==> s.registered && s.completed)
    && (s.timerCancelled <==> s.winner == Some(SignalBranch))
    && (s.closeCalls > 0 <==> s.winner == Some(TimerBranch))
    && s.closeCalls <= MaximumAttempts
    && (s.registered ==> s.result.None?)
    && (!s.registered ==> s.completed && s.result == Some(Application(WorkflowError)) && s.addCalls == 0)
  }

  lemma StartConsistent(db: Db, bill: Bill, registerFails: bool)
    ensures Consistent(Start(db, bill, registerFails))
    ensures Waiting(Start(db, bill, registerFails)) <==> !registerFails
  {
  }

  lemma StepConsistent(s: WorkflowState, e: Event)
    requires Consistent(s)
    ensures Consistent(Step(s, e))
    ensures Step(s, e).bill == s.bill && Step(s, e).registered == s.registered
    ensures s.completed ==> Step(s, e) == s
  {
  }

  /** Once ComposeBill has returned, nothing the engine delivers changes anything. */
  lemma {:induction false} CompletedIsFinal(s: WorkflowState, events: seq<Event>)
    requires s.completed
    ensures Run(s, events) == s
    decreases |events|
  {
    if events != [] {
      CompletedIsFinal(Step(s, events[0]), events[1..]);
    }
  }

  /** The branch of the first timer or signal event, if any. */
  function FirstRaceEvent(events: seq<Event>): Option<Branch>
    decreases |events|
  {
    if events == [] then None
    else match events[0]
      case TimerFired(_, _) => Some(TimerBranch)
      case CloseSignal => Some(SignalBranch)
      case ItemsUpdate(_, _) => FirstRaceEvent(events[1..])
  }

  /**
   * The select resolves once, for the first race event: the workflow has
   * completed with nil exactly when a timer or signal event was delivered;
   * if the signal came first the timer is cancelled and CloseBill never
   * runs; if the timer came first CloseBill ran between one and
   * MaximumAttempts times and the timer was not cancelled.
   */
  lemma {:induction false} SelectResolvesOnce(s: WorkflowState, events: seq<Event>)
    requires Consistent(s) && Waiting(s)
    ensures var t := Run(s, events);
      && Consistent(t)
      && t.winner == FirstRaceEvent(events)
      && t.completed == FirstRaceEvent(events).Some?
      && t.result.None?
      && (FirstRaceEvent(events) == Some(SignalBranch) ==> t.timerCancelled && t.closeCalls == 0)
      && (FirstRaceEvent(events) == Some(TimerBranch) ==> !t.timerCancelled && 1 <= t.closeCalls <= MaximumAttempts)
    decreases |events|
  {
    if events != [] {
      var next := Step(s, events[0]);
      StepConsistent(s, events[0]);
      if events[0].ItemsUpdate? {
        SelectResolvesOnce(next, events[1..]);
      } else {
        CompletedIsFinal(next, events[1..]);
      }
    }
  }

  /**
   * As written, the signal branch does not close the bill: when the signal
   * wins, no bill's status or close time is changed by the workflow.
   */
  lemma {:induction false} SignalWinnerLeavesStatuses(s: WorkflowState, events: seq<Event>)
    requires Consistent(s) && Waiting(s)
    requires FirstRaceEvent(events) == Some(SignalBranch)
    ensures var t := Run(s, events);
      && t.db.bills.Keys == s.db.bills.Keys
      && forall id :: id in s.db.bills ==>
           t.db.bills[id].status == s.db.bills[id].status && t.db.bills[id].closedAt == s.db.bills[id].closedAt
    decreases |events|
  {
    var next := Step(s, events[0]);
    match events[0]
    case CloseSignal =>
      CompletedIsFinal(next, events[1..]);
    case ItemsUpdate(items, ios) =>
      BatchStoresOnlyValidItems(s.db, s.bill.billId, items, ios);
      SignalWinnerLeavesStatuses(next, events[1..]);
  }

  /** The timer firing for a waiting workflow whose bill is open closes it with one healthy CloseBill. */
  lemma TimerStepCloses(s: WorkflowState, now: int, ios: seq<Io>)
    requires Waiting(s) && Closable(s.db, s.bill.billId) && s.bill.billId != ""
    requires IoAt(ios, 0) == Healthy
    ensures var t := Step(s, TimerFired(now, ios));
      && t.completed
      && t.closeCalls == s.closeCalls + 1
      && s.bill.billId in t.db.bills
      && t.db.bills[s.bill.billId].status == StatusClosed
      && t.db.bills[s.bill.billId].closedAt == Some(now)
  {
    assert Stops(CloseOutcomes(s.db, s.bill.billId, ios)[0]);
    assert CloseCalls(s.db, s.bill.billId, ios) == 1;
  }

  /** Running a non-empty sequence of events is one step, then the rest. */
  lemma RunCons(s: WorkflowState, events: seq<Event>)
    requires events != []
    ensures Run(s, events) == Run(Step(s, events[0]), events[1..])
  {
  }

  /** An update to a waiting workflow leaves it waiting, consistent, and its bill open. */
  lemma UpdateStepKeepsOpen(s: WorkflowState, items: seq<BillItem>, ios: seq<seq<Io>>)
    requires Consistent(s) && Waiting(s) && Closable(s.db, s.bill.billId)
    ensures var t := Step(s, ItemsUpdate(items, ios));
      && Consistent(t) && Waiting(t) && Closable(t.db, s.bill.billId)
      && t.bill == s.bill && t.closeCalls == s.closeCalls
  {
    BatchStoresOnlyValidItems(s.db, s.bill.billId, items, ios);
    StepConsistent(s, ItemsUpdate(items, ios));
  }

  /**
   * When the timer wins for a bill that is open, and CloseBill's first
   * attempt is healthy, CloseBill runs once and the bill is closed at the
   * timer's time.
   */
  lemma {:induction false} TimerWinnerClosesOpenBill(s: WorkflowState, events: seq<Event>, k: nat, now: int, ios: seq<Io>)
    requires Consistent(s) && Waiting(s)
    requires k < |events| && events[k] == TimerFired(now, ios)
    requires forall j :: 0 <= j < k ==> events[j].ItemsUpdate?
    requires Closable(s.db, s.bill.billId) && s.bill.billId != ""
    requires IoAt(ios, 0) == Healthy
    ensures var t := Run(s, events);
      && t.closeCalls == s.closeCalls + 1
      && s.bill.billId in t.db.bills
      && t.db.bills[s.bill.billId].status == StatusClosed
      && t.db.bills[s.bill.billId].closedAt == Some(now)
    decreases k
  {
    var next := Step(s, events[0]);
    RunCons(s, events);
    if k == 0 {
      TimerStepCloses(s, now, ios);
      CompletedIsFinal(next, events[1..]);
    } else {
      UpdateStepKeepsOpen(s, events[0].items, events[0].itemIos);
      var rest := events[1..];
      assert rest[k - 1] == events[k];
      assert forall j :: 0 <= j < k - 1 ==> rest[j] == events[j + 1];
      TimerWinnerClosesOpenBill(next, rest, k - 1, now, ios);
    }
  }

  // ---------------------------------------------------------------------
  // The workflow object
  // ---------------------------------------------------------------------

  /** One ComposeBill run for one bill, over the activities' store. */
  class BillWorkflow {
    const bill: Bill
    const store: BillStore
    var registered: bool
    var winner: Option<Branch>
    var timerCancelled: bool
    var completed: bool
    var result: Option<Error>
    var closeCalls: nat
    var addCalls: nat

    ghost function State(): WorkflowState
      reads this, store
    {
      WorkflowState(store.Snapshot(), bill, registered, winner, timerCancelled, completed, result, closeCalls, addCalls)
    }

    /** ComposeBill up to the select: register the update handler, arm the timer, listen for the signal. */
    constructor (bill: Bill, store: BillStore, registerFails: bool)
      ensures State() == Start(store.Snapshot(), bill, registerFails)
      ensures Consistent(State())
    {
      this.bill := bill;
      this.store := store;
      winner := None;
      timerCancelled := false;
      closeCalls := 0;
      addCalls := 0;
      registered := !registerFails;
      completed := registerFails;
      result := if registerFails then Some(Application(WorkflowError)) else None;
    }

    /** ExecuteActivity(ctx, AddBillItem, ...).Get under the retry policy. */
    method ExecuteAddBillItem(item: BillItem, ios: seq<Io>) returns (err: Option<Error>)
      modifies this, store
      ensures err == AddError(old(store.Snapshot()), bill.billId, item, ios)
      ensures store.Snapshot() == AfterAdd(old(store.Snapshot()), bill.billId, item, ios)
      ensures addCalls == old(addCalls) + AddCalls(old(store.Snapshot()), bill.billId, item, ios)
      ensures registered == old(registered) && winner == old(winner) && timerCancelled == old(timerCancelled)
      ensures completed == old(completed) && result == old(result) && closeCalls == old(closeCalls)
    {
      ghost var db0 := store.Snapshot();
      ghost var outs := AddOutcomes(db0, bill.billId, item, ios);
      var attempt := 0;
      while true
        invariant attempt < MaximumAttempts
        invariant State() == old(State()).(addCalls := old(addCalls) + attempt)
        invariant forall k :: 0 <= k < attempt ==> !Stops(outs[k])
        decreases MaximumAttempts - attempt
      {
        err := store.AddBillItem(bill.billId, item.amount, item.currency, IoAt(ios, attempt));
        addCalls := addCalls + 1;
        if Stops(err) || attempt + 1 == MaximumAttempts {
          AttemptsUnique(outs, attempt + 1);
          return;
        }
        attempt := attempt + 1;
      }
    }

    /** ExecuteActivity(ctx, CloseBill, bill.BillId).Get under the retry policy. */
    method ExecuteCloseBill(now: int, ios: seq<Io>) returns (err: Option<Error>)
      modifies this, store
      ensures err == CloseError(old(store.Snapshot()), bill.billId, ios)
      ensures store.Snapshot() == AfterClose(old(store.Snapshot()), bill.billId, now, ios)
      ensures closeCalls == old(closeCalls) + CloseCalls(old(store.Snapshot()), bill.billId, ios)
      ensures registered == old(registered) && winner == old(winner) && timerCancelled == old(timerCancelled)
      ensures completed == old(completed) && result == old(result) && addCalls == old(addCalls)
    {
      ghost var db0 := store.Snapshot();
      ghost var outs := CloseOutcomes(db0, bill.billId, ios);
      var attempt := 0;
      while true
        invariant attempt < MaximumAttempts
        invariant State() == old(State()).(closeCalls := old(closeCalls) + attempt)
        invariant forall k :: 0 <= k < attempt ==> !Stops(outs[k])
        decreases MaximumAttempts - attempt
      {
        err := store.CloseBill(bill.billId, now, IoAt(ios, attempt));
        closeCalls := closeCalls + 1;
        if Stops(err) || attempt + 1 == MaximumAttempts {
          AttemptsUnique(outs, attempt + 1);
          return;
        }
        attempt := attempt + 1;
      }
    }

    /** The update_bill_items handler: every item in order, failures logged and dropped. */
    method UpdateHandler(items: seq<BillItem>, ios: seq<seq<Io>>) returns (err: Option<Error>)
      modifies this, store
      ensures err.None?
      ensures store.Snapshot() == AfterBatch(old(store.Snapshot()), bill.billId, items, ios)
      ensures addCalls == old(addCalls) + BatchCalls(old(store.Snapshot()), bill.billId, items, ios)
      ensures registered == old(registered) && winner == old(winner) && timerCancelled == old(timerCancelled)
      ensures completed == old(completed) && result == old(result) && closeCalls == old(closeCalls)
    {
      ghost var db0 := store.Snapshot();
      var i := 0;
      while i < |items|
        invariant 0 <= i <= |items|
        invariant store.Snapshot() == AfterBatch(db0, bill.billId, items[..i], ios)
        invariant addCalls == old(addCalls) + BatchCalls(db0, bill.billId, items[..i], ios)
        invariant registered == old(registered) && winner == old(winner) && timerCancelled == old(timerCancelled)
        invariant completed == old(completed) && result == old(result) && closeCalls == old(closeCalls)
      {
        BatchStep(db0, bill.billId, items, ios, i);
        var itemErr := ExecuteAddBillItem(items[i], IosFor(ios, i));
        i := i + 1;
      }
      assert items[..i] == items;
      err := None;
    }

    /** An update_bill_items update; the engine refuses it unless the workflow is running. */
    method OnUpdate(items: seq<BillItem>, ios: seq<seq<Io>>) returns (accepted: bool)
      requires Consistent(State())
      modifies this, store
      ensures accepted == Waiting(old(State()))
      ensures State() == Step(old(State()), ItemsUpdate(items, ios))
      ensures Consistent(State())
    {
      StepConsistent(State(), ItemsUpdate(items, ios));
      accepted := registered && !completed;
      if accepted {
        var handlerErr := UpdateHandler(items, ios);
      }
    }

    /** The timer callback: run CloseBill and discard its result; ComposeBill then returns nil. */
    method OnTimer(now: int, ios: seq<Io>)
      requires Consistent(State())
      modifies this, store
      ensures State() == Step(old(State()), TimerFired(now, ios))
      ensures Consistent(State())
    {
      StepConsistent(State(), TimerFired(now, ios));
      if !registered || completed {
        return;
      }
      winner := Some(TimerBranch);
      var closeErr := ExecuteCloseBill(now, ios);
      completed := true;
      result := None;
    }

    /** The signal callback: cancel the timer; ComposeBill then returns nil. */
    method OnSignal()
      requires Consistent(State())
      modifies this
      ensures State() == Step(old(State()), CloseSignal)
      ensures Consistent(State())
    {
      StepConsistent(State(), CloseSignal);
      if !registered || completed {
        return;
      }
      timerCancelled := true;
      winner := Some(SignalBranch);
      completed := true;
      result := None;
    }
  }
}
