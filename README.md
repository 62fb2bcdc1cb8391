# cybersailor poller, modelled in Dafny

cybersailor is a small polling SDK. A `Sailor` keeps a list of subscribed `Task`s. On each
tick of its run loop it goes through the tasks in subscription order and pulls every task
whose trigger is `pulling_items` and whose interval has passed.

A pull does four things:

- it builds the query options for the remote `getItems` call: the page limit; the sort
  when one is set; one `filters[column][operator]` entry per filter criterion; and the
  lock-owner constraint `unlockedOrLockedBy` unless locked items are included;
- it fetches the items and stamps the task;
- it builds one `Context` for a non-empty batch;
- it turns each item into a `Record` and hands the record to the task's handler.

A handler that raises does not stop the batch. Any other error ends up in the pull's outer
handler, which sleeps 5 seconds. A record's `lock`, `unlock` and `update` return the
requests that the owning sailor sends to the remote API. Those requests carry the record's
identifiers and use the sailor's id as the lock owner.

The model has three modules:

- `Values` (`values.dfy`) defines `Option`, `Result` and a JSON value type. The fetched
  items and the option values are JSON.
- `Query` (`query.dfy`) is the query-option builder. `QueryOptions` is a function that
  specifies the options, and `BuildOptions` is the imperative builder, which loops over the
  filter the way the source does. The lemmas say which keys the options hold and what
  value each key has.
- `Sdk` (`sdk.dfy`) holds the rest.
  - There are classes for `Task` (with the `lastPull` field its methods update) and
    `Sailor` (with its `tasks` list and a `trace` of observable events).
  - `Record` and `Context` are datatypes.
  - There are specification functions for one pull (`PullSpec`), one batch (`Dispatch`)
    and one tick (`TickFrom`), each followed by the lemmas about it.
  - The imperative methods `Sailor.Pull`, `Sailor.DispatchBatch`, `Sailor.Visit` and
    `Sailor.Tick` are proved against those functions.

The model replaces Python's runtime with explicit values:

- **Time** is an integer clock passed in as `now`. A sleep advances that clock.
- **The remote `getItems` call** is a `Fetcher`: a function from the time and the request
  to either a failure or the list of items in `result.data`.
- **The handler** is a function from the context and the record to `Returned` or
  `Raised(message)`.
- **What a sailor does observably** is recorded as `Event`s appended to `Sailor.trace`:
  `Requested(request)`, `ContextCreated(context)`, `Invoked(context, record, outcome)` and
  `BackedOff(cause)`. A logged error followed by the 5-second sleep is a `BackedOff`.

The item objects and the options map are `map<string, Json>`, which has no order. Only
the filter keeps its order: it is a list of columns, each holding a list of (operator,
value) criteria, because the options map is built by writing those entries one after
another, and a later write to the same key wins. The `**options` keyword arguments of the
`getItems` call (`cybersailor/sdk.py:142`) reach the model as that unordered map, so the
order in which Python inserted them is not kept.

Two behaviours of the code are worth spelling out:

- **Malformed items are not isolated.** The record for an item is built outside the
  per-item `try` (`cybersailor/sdk.py:149-150`). An item that is not an object, or that
  lacks one of `id`, `created_at`, `updated_at`, `title` or `fields`, therefore raises into
  the outer handler. The remaining items of that batch are not handled, and the pull sleeps
  5 seconds. The task stays stamped, because `pulling_now()` ran before the batch.
- **Filter keys can coincide.** Two different (column, operator) pairs give the same
  `filters[column][operator]` key when a column name contains `]`: column `a][b` with
  operator `c` and column `a` with operator `b][c` both give `filters[a][b][c]`. The later
  entry then overwrites the earlier one. `Query.FilterKeysCanClash` and
  `Query.ClashingCriterionIsOverwritten` show this. `Query.QueryOptionsFilterEntry` states
  the per-criterion property under the condition that rules this case out: bracket-free
  column names and distinct operators within a column.

## Model

| member | source | states |
|---|---|---|
| Sdk.Task.constructor | cybersailor/sdk.py:8-26 | stores handler, trigger and all pulling options verbatim, with `last_pull` 0, so a new task is pull-able exactly when the clock exceeds its interval |
| Sdk.Task.IsPullAble | cybersailor/sdk.py:31-32 | a task is pull-able at time `now` exactly when `now` is later than its last stamp plus its interval |
| Sdk.Task.PullingNow | cybersailor/sdk.py:28-32 | stamps `last_pull := now`; afterwards the task is pull-able at a time `t` exactly when `t > now + interval` |
| Sdk.MakeRecordOutcome | cybersailor/sdk.py:35-45 | building a record succeeds exactly for an object that has all five keys; a non-object fails as `NotAnObject`, an object missing a key fails naming a missing one of those keys; on success every field is the item's value for its key and `raw` is the whole item |
| Sdk.Record.Get | cybersailor/sdk.py:47-48 | `record[key]` is the item's value for `key`, or None when the item has no such key |
| Sdk.Record.Lock | cybersailor/sdk.py:56-57 | a lock request for this record's app, collection and item id, with the owning sailor's id as lock owner and the given timeout and subject |
| Sdk.Record.Unlock | cybersailor/sdk.py:59-60 | an unlock request for this record's identifiers with the owning sailor's id as lock owner |
| Sdk.Record.Update | cybersailor/sdk.py:62-63 | an update request for this record's identifiers carrying exactly the given fields |
| Sdk.Sailor.constructor | cybersailor/sdk.py:79-87 | a sailor with the given lock identity, no tasks and an empty trace |
| Sdk.Sailor.Subscribe | cybersailor/sdk.py:89-91 | appends exactly one fresh task built from the arguments (with the source's defaults), keeps the earlier tasks unchanged and in order, and keeps the tasks distinct |
| Sdk.Sailor.LockRequest | cybersailor/sdk.py:93-95 | the lock request carries the record's app, collection and item id, `lock_id` = the sailor's id, and the timeout (default 600) and subject (default None) |
| Sdk.Sailor.UnlockRequest | cybersailor/sdk.py:97-99 | the unlock request carries the record's identifiers and `lock_id` = the sailor's id |
| Sdk.Sailor.UpdateRequest | cybersailor/sdk.py:101-103 | the update request carries the record's identifiers and the given field map |
| Sdk.RecordDelegation | cybersailor/sdk.py:56-103 | for a record built from a fetched item, lock/unlock/update forward the task's app and collection and the item's `id`, with the sailor's id, timeout 600 and no subject by default; `record["id"]` is the item id |
| Query.BuildOptions | cybersailor/sdk.py:125-138 | the loop over columns and criteria produces exactly the options map `QueryOptions` specifies |
| Query.QueryOptionsKeys | cybersailor/sdk.py:125-138 | `limit` is always the page limit; `sort` is present exactly when sort is not None and holds it; `unlockedOrLockedBy` is present exactly when locked items are excluded and holds the sailor id; the keys are exactly these plus one `filters[..][..]` key per criterion |
| Query.QueryOptionsWithoutFilter | cybersailor/sdk.py:132 | without a filter, no filter key appears in the options |
| Query.QueryOptionsFilterEntry | cybersailor/sdk.py:132-135 | for a filter with distinct columns, distinct operators per column and bracket-free column names, every criterion appears under `filters[column][operator]` with its own value |
| Query.ConditionsNoClash | cybersailor/sdk.py:133-135 | under those conditions no two criteria write the same key |
| Query.AssignKeys | cybersailor/sdk.py:133-135 | writing the criteria adds exactly their keys to the map |
| Query.AssignElsewhere | cybersailor/sdk.py:133-135 | writing the criteria leaves every other key as it was |
| Query.AssignUnique | cybersailor/sdk.py:133-135 | when no two criteria share a key, each criterion's value is what ends up under its key |
| Query.FilterKeyNotReserved | cybersailor/sdk.py:126-138 | a filter key is never `limit`, `sort` or `unlockedOrLockedBy`, so the filter cannot overwrite them |
| Query.ReservedNotInFilterKeys | cybersailor/sdk.py:126-138 | no key written by the filter is a reserved key, for any filter |
| Query.FilterKeyInjective | cybersailor/sdk.py:135 | for bracket-free columns, equal filter keys come from the same column and operator |
| Query.FilterKeysCanClash | cybersailor/sdk.py:135 | column `a][b` with operator `c` and column `a` with operator `b][c` give the same key |
| Query.ClashingCriterionIsOverwritten | cybersailor/sdk.py:133-135 | in a filter holding both of those, the later criterion's value is the one sent |
| Query.ConditionSource | cybersailor/sdk.py:133-135 | every flattened condition comes from one criterion of one column |
| Query.CriterionListed | cybersailor/sdk.py:133-135 | every criterion of every column is flattened into a condition |
| Sdk.Sailor.Pull | cybersailor/sdk.py:119-158 | one pull appends exactly the events `PullSpec` gives, stamps the task with `now` exactly when the fetch answered, and returns the backoff slept |
| Sdk.Sailor.DispatchBatch | cybersailor/sdk.py:146-155 | the loop over a batch appends exactly the events `Dispatch` gives and reports the record error that ended it, if any |
| Sdk.PullSpec | cybersailor/sdk.py:119-158 | a pull is stamped exactly when the fetch answered, always starts by requesting `getItems` with the built options, and sleeps 0 or 5 seconds |
| Sdk.Dispatch | cybersailor/sdk.py:146-155 | a batch produces at most one invocation per item, exactly one per item when no item fails, all with the batch's single context |
| Sdk.DispatchWellFormedItems | cybersailor/sdk.py:146-155 | when every item has the required keys, the handler is invoked once per item, in order, whatever each call returns or raises; each record carries the task's app and collection and the item's id |
| Sdk.DispatchStopsAtMalformedItem | cybersailor/sdk.py:148-158 | a malformed item at position k ends the batch after exactly the first k invocations, with that item's record error |
| Sdk.PullOnFetchFailure | cybersailor/sdk.py:142-158 | a failed fetch leaves the task unstamped, invokes no handler, logs the error and backs off 5 seconds |
| Sdk.PullOnEmptyBatch | cybersailor/sdk.py:144-146 | an empty batch stamps the task, builds no context and invokes no handler |
| Sdk.PullOnWellFormedBatch | cybersailor/sdk.py:144-155 | a non-empty batch of well-formed items stamps the task, builds one context and invokes the handler once per item in order, with no backoff |
| Sdk.PullOnMalformedItem | cybersailor/sdk.py:145-158 | a malformed item at k keeps the stamp, invokes the handler for the first k items only, and backs off 5 seconds with that item's error |
| Sdk.Sailor.Visit | cybersailor/sdk.py:115-116 | one task of a tick: pulled exactly when its trigger is `pulling_items` and it is pull-able at the current clock, with the resulting stamp, events and clock |
| Sdk.VisitTask | cybersailor/sdk.py:115-116 | a task is pulled exactly when eligible at the clock it is checked at; a task not pulled keeps its stamp, adds no events and takes no time; a pulled task adds events and never moves the clock back |
| Sdk.VisitTaskPulled | cybersailor/sdk.py:115-116 | an eligible task's visit is exactly one pull at the check time: the pull's events, the stamp set to the check time exactly when the fetch answered, and the clock advanced by the pull's backoff |
| Sdk.Sailor.Tick | cybersailor/sdk.py:113-117 | one pass of the run loop updates every stamp, appends every event and advances the clock exactly as `TickFrom` gives for the tasks in order, then sleeps 1 second |
| Sdk.Sailor.TickVisit | cybersailor/sdk.py:115-116 | the loop body for the i-th task of a tick extends the trace, the clock and that task's stamp by exactly the i-th visit `TickFrom` gives |
| Sdk.TickFromVisits | cybersailor/sdk.py:114-116 | the i-th task is visited at the clock the previous visits left, with its own stamp |
| Sdk.TickChecksInOrder | cybersailor/sdk.py:114-116 | tasks are checked in order on a clock that never goes back, and each is pulled exactly when eligible at its check time |
| Sdk.TickWhenNothingIsDue | cybersailor/sdk.py:114-117 | when no task is eligible, a tick fetches nothing, changes no stamp and only sleeps |
| Sdk.PulledTaskIsQuiet | cybersailor/sdk.py:28-32 | a task whose fetch answered in a tick is not eligible again until its interval after the check has passed |

## Left out

- The HTTP client, its access token (`setAccessToken`) and `Sailor.create` are not modelled. The remote `getItems` call is a `Fetcher` parameter. Lock, unlock and update are modelled as the `Request` values they pass, not as the remote calls.
- The default `sailor_id` taken from the host's node name (`os.uname()`) is not modelled. The constructor takes the id as a parameter.
- The logger and the `__str__`/`__repr__` text of a record are not modelled. A logged error appears only as a `BackedOff` event.
- The unbounded `while True` of `run` is not modelled. `Sailor.Tick` models one pass including its 1-second sleep, and the loop is that pass repeated.
- Wall-clock time is an integer clock, and it advances only by the sleeps. A handler call or a fetch takes no time. The clock value that decides eligibility is therefore the same one `pulling_now` stores.
- A handler's side effects on the remote API are not part of the trace. Only its outcome (returned or raised) is recorded.
- A handler's side effects on the sailor are not modelled. Through `context.sailor` and `context.task` (`cybersailor/sdk.py:147`) a Python handler can call `subscribe` or `pulling_now`. Because `for task in self.tasks` (`cybersailor/sdk.py:114`) iterates the live list, a task subscribed during a tick is visited in that same tick. In the model the handler is a pure function, and `Sailor.Tick` walks the task list as it was when the tick began.
- Exceptions that are not `Exception`s are not modelled. `except Exception` (`cybersailor/sdk.py:154`, `cybersailor/sdk.py:156`) does not catch `KeyboardInterrupt` or `SystemExit`, which leave `pull` and `run`. In the model a handler's `Raised` outcome is always caught.
- A `result.data` that is not a list is not modelled (the `Fetcher` returns a list or fails). Non-string filter columns or operators are not modelled. An `include_locked` that is an integer rather than a boolean is not modelled (Python's `0 == False`).
- JSON numbers are integers. Floating-point options are not modelled.
- Fetch failures: the fetch's failure is delivered as one `FetchFailed` value. The different exceptions the client can raise are not distinguished, because the source catches them all alike.
