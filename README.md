# Billing: bills, their items, and the workflow that closes them

This project is a Dafny model of the core of a small billing service.
A client creates a bill with a close date. The service stores the bill in
its database as `open` and starts one long-running `ComposeBill` workflow
for it, named by the bill's id. While the bill is open, the client adds
items, one batch at a time. Each batch goes to the workflow as an
`update_bill_items` update. The workflow runs one `AddBillItem` activity per
item, and each activity is retried up to three attempts. The workflow then
waits for whichever comes first: the close-date timer or a `CLOSE_BILL`
signal. When the timer wins, the workflow runs the `CloseBill` activity,
which sets the bill to `closed` and stamps its close time. A summary can
only be read for a bill that is no longer open.

Files:

- `wrappers.dfy`: `Option` and `Result`.
- `models.dfy`: the records of `billing/models/models.go`.
- `errors.dfy`: the errors the activities raise. An *application error*
  carries a code (`INVALID-DATA`, `NOT_FOUND`, `DB-ERROR`, `WORKFLOW_ERROR`)
  and is never retried. A *plain* error is a database error passed through
  unchanged, and the retry policy retries it.
- `activities.dfy` models `billing/workflows/activities.go`:
  - Each activity is a pure function of a database value `Db`: a `...Result`
    function gives its reply, and an `After...` function gives the database
    it leaves behind.
  - The `BillStore` class holds the database as mutable fields. Its methods
    are proved against those functions.
- `store_properties.dfy`: how one activity's effect is seen by the next.
  Examples: a closed bill reads back closed, close never reopens a bill, the
  open/closed coherence of the store is preserved, and the listing is
  exact.
- `workflows.dfy` models `billing/workflows/workflows.go`:
  - the retry policy with `MaximumAttempts = 3`;
  - the update handler's loop over a batch;
  - the timer-versus-signal select, as a state machine (`Start`, `Step`,
    `Run`);
  - the `BillWorkflow` class, whose methods are proved against `Step`.
- `api.dfy` models `billing/api.go`. Each handler is a function that returns
  the client's reply and the workflow commands it sends: start a workflow,
  send an update, send a signal, or read a summary.

Things outside the model enter as parameters:

- The database's faults: `Io`, which names the SQL statement of an activity
  that fails.
- The current time: `now`.
- The id the database assigns to a new bill: `newId`.
- The rows of the `bill_summary` view: `viewRows`.
- Whether the workflow accepted an update or a signal.

## Behaviour worth knowing

- The `CLOSE_BILL` branch of the select only cancels the timer
  (`billing/workflows/workflows.go:58-61`). It never calls `CloseBill`, so
  the bill stays `open` in the database, although the comment at line 56
  calls the signal a "manual bill closure".
  - `Workflows.SignalWinnerLeavesStatuses` proves this.
  - `Api.ItemsAfterSignalReachFinishedWorkflow` proves the consequence:
    after the signal, an items request still passes the open check. Its
    update then reaches a finished workflow, and the client gets
    `InvalidArgument`, not `FailedPrecondition`.
- Closing a bill that is already closed reports an error
  (`billing/workflows/activities.go:104-117`). The `UPDATE ... WHERE status
  = 'open'` matches no row, so `CloseBill` returns a plain retryable error,
  or `NOT_FOUND`, depending on how the database driver reports an empty
  `RETURNING`. The database is left unchanged
  (`StoreProperties.ClosedBillReadsClosed`).
- `CreateBill` rejects a close date only when it is before the current
  time, so a close date equal to the current time is accepted
  (`billing/workflows/activities.go:14`).
- The update handler logs a failed item and carries on, and it always
  returns `nil` (`billing/workflows/workflows.go:31-38`). The reply to the
  client therefore says nothing about which items of the batch were stored
  (`Workflows.BillWorkflow.UpdateHandler`).
- In `CheckOpenBill` the empty-id test comes before the error test
  (`billing/workflows/activities.go:130-136`). Every lookup failure,
  including a failed query, therefore reports `NOT_FOUND`. The branch that
  returns the database error cannot be reached.
- `GetBillSummary` checks only the error of its first lookup
  (`billing/workflows/activities.go:146-150`); it has no empty-id test. When
  the driver reports a lookup of an unknown bill as zero rows without an
  error, it returns an empty summary (no id, no status, no items) together
  with that id's view rows (`Activities.GetBillSummaryResult`). The API
  never shows it to a client: its open check refuses an unknown bill first
  (`billing/api.go:146-152`, `Api.SummaryOfUnknownBillRefused`).

## Model

| member | source | states |
|---|---|---|
| Activities.ValidateBillItem | billing/workflows/activities.go:32-40 | an item is accepted iff its amount is positive and its currency is USD or GEL; every rejection is a non-retryable INVALID-DATA |
| Activities.CreateBillResult | billing/workflows/activities.go:13-31 | a close date before now is INVALID-DATA; creation succeeds iff the date is not past, the insert does not fail and the id is fresh; the new bill is open with the given close date; every failure is non-retryable |
| Activities.AfterCreateBill | billing/workflows/activities.go:18-27 | a new open bill with no items and no close time is stored only when creation succeeds; otherwise the store is unchanged; the item counter and the driver setting never change |
| Activities.AddBillItemResult | billing/workflows/activities.go:42-57 | validation runs before the insert; a failed insert, or an insert for an unknown bill, is a plain retryable error |
| Activities.AfterAddBillItem | billing/workflows/activities.go:47-51 | a successful insert appends exactly one item, with id ItemId(nextItemId), to that bill, and the counter advances by one; no other bill and no status changes |
| Activities.ScanBill | billing/workflows/activities.go:124-128 | the single-row lookup yields the bill's id and status when the bill exists, nothing otherwise, and an error when it fails or when the driver reports zero rows as an error |
| Activities.GetBillResult | billing/workflows/activities.go:59-100 | the lookup error is checked before the empty id: a failed lookup returns its own plain error, and an unknown bill is NOT_FOUND or the driver's no-rows error; a failed item query is a plain error; a found bill is returned with its status and exactly its stored items |
| Activities.CheckOpenBillResult | billing/workflows/activities.go:121-138 | the result is Ok(true) iff the bill exists and is open, Ok(false) iff it exists and is not open; every error is NOT_FOUND |
| Activities.CloseBillResult | billing/workflows/activities.go:102-119 | closing succeeds iff the update does not fail and the bill exists and is open; closing a closed or unknown bill is an error |
| Activities.AfterCloseBill | billing/workflows/activities.go:104-111 | a successful close sets exactly that bill to closed and stamps closed_at with the current time; otherwise nothing changes |
| Activities.SummaryRowsOf | billing/workflows/activities.go:177-197 | the per-currency totals read are exactly the view rows of that bill, and no more rows than the view has |
| Activities.GetBillSummaryResult | billing/workflows/activities.go:140-202 | a summary is returned iff no statement fails and the bill exists with a close time, or the bill is unknown and the driver reports zero rows without an error; the result is NOT_FOUND iff the lookup fails, the bill has no close time, or the bill is unknown under an erroring driver; every other error is the plain error of a failed item or view query; a summary of a bill carries its id, status, close time, items and view rows; the summary of an unknown bill is empty except for its view rows |
| Activities.BillStore.constructor | billing/db/db.go:1-7 | the store starts empty |
| Activities.BillStore.CreateBill | billing/workflows/activities.go:13-31 | returns CreateBillResult of the old store and leaves AfterCreateBill of it |
| Activities.BillStore.AddBillItem | billing/workflows/activities.go:42-57 | returns AddBillItemResult of the old store and leaves AfterAddBillItem of it |
| Activities.BillStore.CloseBill | billing/workflows/activities.go:102-119 | returns CloseBillResult of the old store and leaves AfterCloseBill of it |
| Activities.BillStore.CheckOpenBill | billing/workflows/activities.go:121-138 | returns CheckOpenBillResult of the store |
| Activities.BillStore.ItemRows | billing/workflows/activities.go:87-97 | the row loop collects exactly the bill's stored items |
| Activities.BillStore.GetBill | billing/workflows/activities.go:59-100 | returns GetBillResult of the store |
| Activities.BillStore.GetBillSummary | billing/workflows/activities.go:140-202 | returns GetBillSummaryResult of the store, including the empty summary of an unknown bill; the loop over the view keeps exactly that bill's rows |
| Activities.BillStore.ListBills | billing/workflows/activities.go:206-240 | a failed query is a plain error; otherwise the list holds every selected bill exactly once, each with its stored status |
| StoreProperties.CreatedBillIsOpen | billing/workflows/activities.go:18-30 | a created bill is open, the open check says true, and GetBill returns it with no items |
| StoreProperties.AddedItemIsListedLast | billing/workflows/activities.go:47-97 | an accepted item is the last item GetBill returns, after all the earlier ones, and the bill's status is unchanged |
| StoreProperties.InvalidItemNeverStored | billing/workflows/activities.go:42-46 | an invalid item is refused with INVALID-DATA whatever the store holds, and the store is unchanged |
| StoreProperties.ClosedBillReadsClosed | billing/workflows/activities.go:102-138 | after a successful close, GetBill reads the bill closed with its items, the open check says false, and a second close is an error that changes nothing |
| StoreProperties.CloseOnlyClosesOpenBills | billing/workflows/activities.go:104-111 | CloseBill changes no bill except the named one, and that one only from open to closed; an unknown bill is an error that changes nothing |
| StoreProperties.CoherenceKept | billing/workflows/activities.go:13-119 | "open with no close time, or closed with one" holds of the empty store and is preserved by create, add item and close |
| StoreProperties.SummaryOnlyOfClosedBills | billing/workflows/activities.go:140-150 | in a coherent store, a summary is returned only for a closed bill, carrying its id, or as the empty summary of an unknown bill when the driver reports no error; an open bill is NOT_FOUND |
| StoreProperties.ItemIdInjective | billing/workflows/activities.go:47-51 | two counter values with the same item id are equal |
| StoreProperties.IdsIssuedKept | billing/workflows/activities.go:13-119 | "every stored item id was handed out by the counter" holds of the empty store and is preserved by create, add item and close |
| StoreProperties.NextItemIdFresh | billing/workflows/activities.go:47-51 | in such a store, the id the next insert gives its item is held by no stored item of any bill, and an accepted item is appended with that id |
| StoreProperties.ListingIsExact | billing/workflows/activities.go:206-238 | the listed ids are exactly the selected ones, with no repeats; no filter lists every bill; a filter lists exactly the bills in that status |
| Workflows.Attempts | billing/workflows/workflows.go:17-23 | an activity runs at least once and at most the cap; every attempt before the last one failed retryably; stopping before the cap means the last attempt succeeded or failed non-retryably |
| Workflows.AttemptsUnique | billing/workflows/workflows.go:17-23 | that characterisation determines the number of attempts |
| Workflows.InvalidItemTriedOnce | billing/workflows/workflows.go:31-36 | an invalid item gets one attempt, with the non-retryable INVALID-DATA error, and stores nothing |
| Workflows.FailingItemTriedToCap | billing/workflows/workflows.go:17-36 | a valid item whose insert keeps failing, or whose bill is unknown, gets exactly 3 attempts, ends in a retryable error and stores nothing |
| Workflows.HealthyItemStoredOnce | billing/workflows/workflows.go:31-32 | a valid item for an existing bill whose first attempt is healthy is stored by one attempt |
| Workflows.AddOnlyAppendsValid | billing/workflows/workflows.go:31-36 | however one item's attempts go, every bill keeps its existence, status and close time, and the store is either unchanged or has that item, valid, appended to its bill |
| Workflows.BatchStoresOnlyValidItems | billing/workflows/workflows.go:28-39 | a batch changes no bill's existence, status or close time, and touches no other bill; it only appends items to the bill, and every appended item is valid |
| Workflows.HealthyBatchStoresValidItems | billing/workflows/workflows.go:28-39 | when each item's first attempt is healthy, the batch takes one call per item and appends exactly the valid items, in batch order, with consecutive ids |
| Workflows.FailingBatchUsesEveryAttempt | billing/workflows/workflows.go:17-39 | a batch of valid items whose inserts keep failing takes 3 calls per item and leaves the store unchanged |
| Workflows.AddCalls | billing/workflows/workflows.go:17-32 | one item's AddBillItem runs between 1 and 3 times, and every attempt before the last failed retryably |
| Workflows.AddError | billing/workflows/workflows.go:17-32 | a retryable final error means all 3 attempts were used; a non-retryable one came from validation on the only attempt; an invalid item ends with exactly its validation error |
| Workflows.AfterAdd | billing/workflows/workflows.go:17-32 | when the item's activity ends in an error the store is unchanged; when it succeeds the store is one healthy AddBillItem applied to it |
| Workflows.CloseCalls | billing/workflows/workflows.go:17-54 | CloseBill runs between 1 and 3 times, and every attempt before the last failed retryably |
| Workflows.CloseError | billing/workflows/workflows.go:17-54 | CloseBill ends without an error only for an open bill; a retryable final error means all 3 attempts were used; when the driver reports zero rows without an error, a bill that is not open ends in a plain error or NOT_FOUND |
| Workflows.AfterClose | billing/workflows/workflows.go:17-54 | a bill that is not open leaves the store unchanged; a successful close is one healthy CloseBill applied to the store; no bill appears or disappears |
| Workflows.AfterBatch | billing/workflows/workflows.go:28-39 | a batch never adds or removes a bill, and its item counter grows by at most the batch's length |
| Workflows.BatchCalls | billing/workflows/workflows.go:28-39 | a batch of N items takes between N and 3N activity calls |
| Workflows.Start | billing/workflows/workflows.go:27-44 | the workflow starts over the store and the bill with no winner and no calls made; it has completed iff registering the update handler failed, and then with WORKFLOW_ERROR |
| Workflows.Step | billing/workflows/workflows.go:28-66 | a workflow that is not waiting in its select ignores every event; a timer completes it with the timer as winner after 1 to 3 CloseBill calls on the store; a signal completes it with the timer cancelled and the store untouched; an update keeps it waiting and applies the batch to the store |
| Workflows.StartConsistent | billing/workflows/workflows.go:27-44 | a workflow waits in its select iff its update handler registered; otherwise it has completed with WORKFLOW_ERROR |
| Workflows.StepConsistent | billing/workflows/workflows.go:46-66 | every event keeps the workflow state consistent, and a completed workflow ignores every event |
| Workflows.CompletedIsFinal | billing/workflows/workflows.go:63-66 | no sequence of events changes a completed workflow |
| Workflows.SelectResolvesOnce | billing/workflows/workflows.go:46-66 | the select is won by the first timer or signal event, and the workflow completes exactly then; a signal win cancels the timer and never runs CloseBill; a timer win runs CloseBill between 1 and 3 times |
| Workflows.SignalWinnerLeavesStatuses | billing/workflows/workflows.go:56-61 | when the signal wins, no bill's status or close time is changed by the workflow |
| Workflows.TimerStepCloses | billing/workflows/workflows.go:49-54 | the timer firing for a waiting workflow whose bill is open, with a healthy first CloseBill attempt, completes it after one call with the bill closed at the timer's time |
| Workflows.UpdateStepKeepsOpen | billing/workflows/workflows.go:28-39 | an update to a waiting workflow whose bill is open keeps it consistent and waiting, keeps the bill open, and makes no CloseBill call |
| Workflows.TimerWinnerClosesOpenBill | billing/workflows/workflows.go:49-54 | when the timer wins for an open bill and CloseBill's first attempt is healthy, CloseBill runs once and the bill is closed at the timer's time |
| Workflows.BillWorkflow.constructor | billing/workflows/workflows.go:14-44 | the new workflow is in the start state over the store, and that state is consistent |
| Workflows.BillWorkflow.ExecuteAddBillItem | billing/workflows/workflows.go:17-32 | the retry loop returns the error of the last attempt, leaves the store as that many attempts leave it, counts them, and changes no other workflow field |
| Workflows.BillWorkflow.ExecuteCloseBill | billing/workflows/workflows.go:17-23 | the retry loop returns the error of the last attempt, leaves the store as that many attempts leave it, counts them, and changes no other workflow field |
| Workflows.BillWorkflow.UpdateHandler | billing/workflows/workflows.go:28-39 | the handler always returns success, whatever its items' errors, leaves the store as the batch leaves it, counts the batch's calls, and changes no other workflow field |
| Workflows.BillWorkflow.OnUpdate | billing/workflows/workflows.go:28-40 | an update is accepted iff the workflow is waiting in its select, that is, its handler is registered and it has not completed; the state moves by one step |
| Workflows.BillWorkflow.OnTimer | billing/workflows/workflows.go:50-54 | the timer moves the state by one step and keeps it consistent |
| Workflows.BillWorkflow.OnSignal | billing/workflows/workflows.go:56-61 | the signal moves the state by one step and keeps it consistent |
| Api.CreateBill | billing/api.go:65-76 | a workflow is started iff the bill was created; it is named by the new id and carries the bill; the reply is that id; a creation error is returned unchanged |
| Api.AddBillItems | billing/api.go:85-128 | an update is sent iff the bill is open, and it carries the whole batch; success iff the bill is open and the update completed; a failed check is InvalidArgument; a closed bill is FailedPrecondition |
| Api.CloseBill | billing/api.go:133-142 | exactly one CLOSE_BILL signal is sent to the bill's workflow; success iff the signal was delivered |
| Api.GetBillSummary | billing/api.go:145-166 | the summary is read iff the bill exists and is not open; success iff that read succeeds, and the reply is the summary read; an open bill is FailedPrecondition |
| Api.ListBills | billing/api.go:24-34 | the listing is returned unchanged, or InvalidArgument when the query failed; nothing is dispatched |
| Api.PastCloseDateStartsNothing | billing/api.go:65-69 | a past close date creates no bill, starts no workflow and returns INVALID-DATA |
| Api.CreatedBillGetsOneWorkflow | billing/api.go:65-76 | a successful create starts exactly one workflow, named by the new id and carrying the new bill, and that bill is open in the store |
| Api.ItemsForClosedBillRefused | billing/api.go:87-99 | items for a closed bill are refused with FailedPrecondition, and no update is sent |
| Api.ItemsForUnknownBillRefused | billing/api.go:87-93 | items for an unknown bill are refused with InvalidArgument, and no update is sent |
| Api.ItemsForOpenBillApplied | billing/api.go:100-127 | items for an open bill whose workflow is waiting reach it as one update, the reply is success, and the store becomes the batch's result |
| Api.ItemsAfterSignalReachFinishedWorkflow | billing/api.go:85-128 | after the signal wins, the bill still reads open, the update is sent to the finished workflow, and the client gets InvalidArgument |
| Api.SummaryOfUnknownBillRefused | billing/api.go:145-152 | the summary of an unknown bill is refused with InvalidArgument, and nothing is read, whatever the driver reports |
| Api.SummaryOfOpenBillRefused | billing/api.go:145-158 | the summary of an open bill is refused with FailedPrecondition, and nothing is read |
| Api.TimerClosedBillSummarised | billing/api.go:145-166 | end to end: a created bill with one item has its summary refused while open; after the timer fires, the bill is closed and its summary, holding that item, is returned |

## Left out

- SQL text, connection handling and `rows.Close`: each statement is modelled
  by its effect on the `Db` value. A failing statement is an `Io` parameter.
  An error while scanning one row inside a loop is not modelled separately.
- Driver behaviour: `Db.noRowsIsError` records how the driver reports a
  single-row query that matches nothing, and every lookup is modelled under
  both settings. The model also assumes the following:
  - scanning a NULL `closed_at` fails;
  - an item insert for an unknown bill fails, as a foreign key would make
    it.
- The `bill_summary` view definition, that is, how totals are computed:
  the view's rows are a parameter.
- Row order: the item and listing queries have no `ORDER BY`.
  - Items are modelled in insertion order.
  - `ListBills` is proved to list the right set of bills, each once, in no
    stated order.
- Ids: the database assigns the bill id, which is a parameter (`newId`).
  An item id is a counter written in decimal; distinct counter values give
  distinct ids.
- Time: `time.Now()` and `NOW()` are the parameter `now`. The timer's
  duration (`time.Until`) is not modelled; only the order of events is.
- Temporal machinery: replay, task queues, the 5-second
  `StartToCloseTimeout`, and retry back-off and intervals. Only the attempt
  cap of 3 and the non-retryable flag are modelled.
- Concurrency inside a workflow: each event runs to completion before the
  next one. The model does not capture an update handler interleaving with
  the timer's `CloseBill` while that activity is waiting on the database.
- The race between the handlers' `CheckOpenBill` and the later update,
  which happens across separate requests: each handler is a function of
  the values it observed.
- Logging, `fmt.Printf`, and the text of error messages: only error codes
  and kinds are modelled.
- `Service.GetBill` (`billing/api.go:39-52`): it queries the workflow with
  `workflows.QueryBill`, which no workflow in the repository defines or
  answers.
- Api.CreateBill: the error returned by `ExecuteWorkflow` is ignored by the
  code, and the model has no parameter for it.
- `billing/service.go`: client setup and worker registration.
