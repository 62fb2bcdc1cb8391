/** The poller: tasks with their interval gate, records built from fetched items, the
    requests a sailor forwards to the remote API, one pull of one task, and one tick of
    the run loop. Time is an integer clock; a sleep advances it. */
module Sdk {
  import opened Values
  import opened Query

  const PullingItems: string := "pulling_items"
  /** Seconds a pull sleeps after an error escapes to its outer handler. */
  const FetchBackoff: nat := 5
  /** Seconds the run loop sleeps after each pass over the tasks. */
  const IdleDelay: nat := 1
  const DefaultLockTimeout: int := 600
  const DefaultSort: Json := JArr([JStr("created")])
  const DefaultPullingInterval: int := 30

  /** What a handler call did: it returned, or it raised an exception. */
  datatype HandlerOutcome = Returned | Raised(message: string)

  /** The user's handler, invoked with the batch's context and one record. */
  type Handler = (Context, Record) -> HandlerOutcome

  /** The handle a handler receives: the owning sailor and the task being pulled. */
  datatype Context = Context(sailor: Sailor, task: Task)

  /** Why building a record from a fetched item raised. */
  datatype RecordError = NotAnObject | MissingKey(key: string)

  /** An error that reached the outer handler of a pull. */
  datatype PullError = FetchError | BadItem(cause: RecordError)

  /** What the remote getItems call produced: an exception, or the `data` list. */
  datatype FetchResult = FetchFailed | Fetched(items: seq<Json>)

  /** The remote collection as it answers a getItems request at a given time. */
  type Fetcher = (int, Request) -> FetchResult

  /** A call into the remote API client, with the arguments the sailor passes. */
  datatype Request =
    | GetItems(appId: Json, collectionId: Json, options: map<string, Json>)
    | LockItem(appId: Json, collectionId: Json, itemId: Json, lockTimeout: int, lockId: string, subject: Json)
    | UnlockItem(appId: Json, collectionId: Json, itemId: Json, lockId: string)
    | UpdateItem(appId: Json, collectionId: Json, itemId: Json, fields: Json)

  /** What a sailor does that can be observed from outside. */
  datatype Event =
    | Requested(request: Request)
    | ContextCreated(context: Context)
    | Invoked(context: Context, record: Record, outcome: HandlerOutcome)
    | BackedOff(cause: PullError)

  /** The interval gate: strictly more than `interval` seconds have passed since `lastPull`. */
  predicate Due(lastPull: int, interval: int, now: int) {
    now - lastPull > interval
  }

  // ---------------------------------------------------------------------------
  // Task

  /** A subscription: what to poll and how often, plus the time of the last successful fetch. */
  class Task {
    const handler: Handler
    const trigger: string
    const options: PullingOptions
    var lastPull: int

    constructor (handler: Handler, appId: Json, collectionId: Json,
                 trigger: string := PullingItems,
                 filter: Option<Filter> := None,
                 pagelimit: int := 1,
                 includeLocked: bool := false,
                 sort: Json := DefaultSort,
                 pullingInterval: int := DefaultPullingInterval)
      ensures this.handler == handler && this.trigger == trigger
      ensures options == PullingOptions(appId, collectionId, filter, sort, pullingInterval, pagelimit, includeLocked)
      ensures lastPull == 0
      ensures forall now :: IsPullAble(now) <==> now > pullingInterval
    {
      this.handler := handler;
      this.trigger := trigger;
      this.options := PullingOptions(appId, collectionId, filter, sort, pullingInterval, pagelimit, includeLocked);
      this.lastPull := 0;
    }

    /** `is_pull_able()` at time `now`: the interval has run out since the last stamp. */
    predicate IsPullAble(now: int)
      reads this
      ensures IsPullAble(now) <==> now > lastPull + options.pullingInterval
    {
      Due(lastPull, options.pullingInterval, now)
    }

    /** Stamps the current time; the task then stays quiet for its whole interval. */
    method PullingNow(now: int)
      modifies this`lastPull
      ensures lastPull == now
      ensures forall later :: IsPullAble(later) <==> later > now + options.pullingInterval
    {
      lastPull := now;
    }
  }

  // ---------------------------------------------------------------------------
  // Record

  const RecordKeys: seq<string> := ["id", "created_at", "updated_at", "title", "fields"]

  predicate WellFormedItem(item: Json) {
    item.JObj? && forall k :: k in RecordKeys ==> k in item.members
  }

  /** A snapshot of one fetched item, with a reference to the sailor that fetched it. */
  datatype Record = Record(
    sailor: Sailor,
    appId: Json,
    collectionId: Json,
    itemId: Json,
    raw: map<string, Json>,
    id: Json,
    createdAt: Json,
    updatedAt: Json,
    title: Json,
    data: Json)
  {
    /** `record[key]`: the item's value for `key`, or None when the item has no such key. */
    function Get(key: string): (v: Json)
      ensures key in raw ==> v == raw[key]
      ensures key !in raw ==> v == JNull
    {
      if key in raw then raw[key] else JNull
    }

    /** `record.lock()`: asks the owning sailor to lock this item under the sailor's id. */
    function Lock(lockTimeout: int := DefaultLockTimeout, subject: Json := JNull): (r: Request)
      ensures r == LockItem(appId, collectionId, itemId, lockTimeout, sailor.sailorId, subject)
    {
      sailor.LockRequest(this, lockTimeout, subject)
    }

    /** `record.unlock()`: asks the owning sailor to release this item's lock. */
    function Unlock(): (r: Request)
      ensures r == UnlockItem(appId, collectionId, itemId, sailor.sailorId)
    {
      sailor.UnlockRequest(this)
    }

    /** `record.update(map)`: asks the owning sailor to write `fields` to this item. */
    function Update(fields: Json): (r: Request)
      ensures r == UpdateItem(appId, collectionId, itemId, fields)
    {
      sailor.UpdateRequest(this, fields)
    }
  }

  /** Builds the record for a fetched item: `item['id']` is read first, then the keys the
      record copies, in order; the first one missing raises. */
  function MakeRecord(sailor: Sailor, appId: Json, collectionId: Json, item: Json): Result<Record, RecordError>
  {
    if !item.JObj? then Failure(NotAnObject)
    else
      var m := item.members;
      if "id" !in m then Failure(MissingKey("id"))
      else if "created_at" !in m then Failure(MissingKey("created_at"))
      else if "updated_at" !in m then Failure(MissingKey("updated_at"))
      else if "title" !in m then Failure(MissingKey("title"))
      else if "fields" !in m then Failure(MissingKey("fields"))
      else Success(Record(sailor, appId, collectionId, m["id"], m, m["id"], m["created_at"],
                          m["updated_at"], m["title"], m["fields"]))
  }

  /** Building a record succeeds exactly for an object holding all of `RecordKeys`; a
      non-object fails as `NotAnObject`, an object lacking a key fails naming one it lacks;
      on success every field of the record is the item's value for its key. */
  lemma MakeRecordOutcome(sailor: Sailor, appId: Json, collectionId: Json, item: Json)
    ensures var r := MakeRecord(sailor, appId, collectionId, item);
      && (r.Success? <==> WellFormedItem(item))
      && (r.Failure? ==> (r.error == NotAnObject <==> !item.JObj?))
      && (r.Failure? && item.JObj? ==> r.error.MissingKey? && r.error.key in RecordKeys && r.error.key !in item.members)
      && (r.Success? ==>
           && r.value.sailor == sailor && r.value.appId == appId && r.value.collectionId == collectionId
           && r.value.raw == item.members && r.value.itemId == item.members["id"] && r.value.id == item.members["id"]
           && r.value.createdAt == item.members["created_at"] && r.value.updatedAt == item.members["updated_at"]
           && r.value.title == item.members["title"] && r.value.data == item.members["fields"])
  {
  }

  // ---------------------------------------------------------------------------
  // Sailor

  /** The poller: its registered tasks, its lock identity, and what it has done so far. */
  class Sailor {
    const sailorId: string
    var tasks: seq<Task>
    var trace: seq<Event>

    /** Every registered task is its own object. */
    ghost predicate Valid()
      reads this
    {
      forall i, j :: 0 <= i < j < |tasks| ==> tasks[i] != tasks[j]
    }

    constructor (sailorId: string)
      ensures Valid()
      ensures this.sailorId == sailorId && tasks == [] && trace == []
    {
      this.sailorId := sailorId;
      tasks := [];
      trace := [];
    }

    /** Registers one new task at the end of the task list. */
    method Subscribe(handler: Handler, appId: Json, collectionId: Json,
                     trigger: string := PullingItems,
                     filter: Option<Filter> := None,
                     pagelimit: int := 1,
                     includeLocked: bool := false,
                     sort: Json := DefaultSort,
                     pullingInterval: int := DefaultPullingInterval)
      requires Valid()
      modifies this`tasks
      ensures Valid()
      ensures |tasks| == |old(tasks)| + 1 && tasks[..|old(tasks)|] == old(tasks)
      ensures var t := tasks[|tasks| - 1];
        && fresh(t) && t.handler == handler && t.trigger == trigger && t.lastPull == 0
        && t.options == PullingOptions(appId, collectionId, filter, sort, pullingInterval, pagelimit, includeLocked)
      ensures forall i :: 0 <= i < |old(tasks)| ==> tasks[i].lastPull == old(tasks[i].lastPull)
    {
      var t := new Task(handler, appId, collectionId, trigger, filter, pagelimit, includeLocked, sort, pullingInterval);
      tasks := tasks + [t];
    }

    /** The lock request for a record: its identifiers, with this sailor as the lock owner. */
    function LockRequest(record: Record, lockTimeout: int := DefaultLockTimeout, subject: Json := JNull): (r: Request)
      ensures r.LockItem?
      ensures r.appId == record.appId && r.collectionId == record.collectionId && r.itemId == record.itemId
      ensures r.lockId == sailorId && r.lockTimeout == lockTimeout && r.subject == subject
    {
      LockItem(record.appId, record.collectionId, record.itemId, lockTimeout, sailorId, subject)
    }

    function UnlockRequest(record: Record): (r: Request)
      ensures r.UnlockItem?
      ensures r.appId == record.appId && r.collectionId == record.collectionId && r.itemId == record.itemId
      ensures r.lockId == sailorId
    {
      UnlockItem(record.appId, record.collectionId, record.itemId, sailorId)
    }

    function UpdateRequest(record: Record, fields: Json): (r: Request)
      ensures r.UpdateItem?
      ensures r.appId == record.appId && r.collectionId == record.collectionId && r.itemId == record.itemId
      ensures r.fields == fields
    {
      UpdateItem(record.appId, record.collectionId, record.itemId, fields)
    }

    /** The last-pull stamps of the tasks, in registration order. */
    function Stamps(): (s: seq<int>)
      reads this, tasks
      ensures |s| == |tasks|
      ensures forall i :: 0 <= i < |tasks| ==> s[i] == tasks[i].lastPull
    {
      StampsOf(tasks)
    }

    /** One pull of one task at time `now`: fetch, stamp, dispatch each item to the handler. */
    method Pull(task: Task, now: int, fetch: Fetcher) returns (slept: nat)
      modifies this`trace, task`lastPull
      ensures var out := PullSpec(this, task, now, fetch);
        && task.lastPull == (if out.fetched then now else old(task.lastPull))
        && trace == old(trace) + out.events
        && slept == out.slept
    {
      var appId := task.options.appId;
      var collectionId := task.options.collectionId;
      var options := BuildOptions(task.options, sailorId);
      var request := GetItems(appId, collectionId, options);
      trace := trace + [Requested(request)];
      var result := fetch(now, request);
      if result.FetchFailed? {
        trace := trace + [BackedOff(FetchError)];
        slept := FetchBackoff;
        return;
      }
      var items := result.items;
      task.PullingNow(now);
      slept := 0;
      if |items| > 0 {
        var ctx := Context(this, task);
        trace := trace + [ContextCreated(ctx)];
        var failure := DispatchBatch(ctx, items);
        if failure.Some? {
          trace := trace + [BackedOff(BadItem(failure.value))];
          slept := FetchBackoff;
        }
      }
    }

    /** The loop over one non-empty batch; an item that cannot become a record ends it. */
    method DispatchBatch(ctx: Context, items: seq<Json>) returns (failure: Option<RecordError>)
      requires ctx.sailor == this
      modifies this`trace
      ensures trace == old(trace) + Dispatch(ctx, items).events
      ensures failure == Dispatch(ctx, items).failure
    {
      var task := ctx.task;
      ghost var all := Dispatch(ctx, items);
      ghost var before := trace;
      ghost var done: seq<Event> := [];
      failure := None;
      var i := 0;
      while i < |items| && failure.None?
        invariant 0 <= i <= |items|
        invariant trace == before + done
        invariant failure.None? ==>
          var rest := Dispatch(ctx, items[i..]); all == DispatchOut(done + rest.events, rest.failure)
        invariant failure.Some? ==> all == DispatchOut(done, failure)
        decreases |items| - i, if failure.None? then 1 else 0
      {
        ghost var rest := Dispatch(ctx, items[i..]);
        ghost var next := Dispatch(ctx, items[i + 1..]);
        var r := MakeRecord(this, task.options.appId, task.options.collectionId, items[i]);
        if r.Failure? {
          assert rest == DispatchOut([], Some(r.error)) by {
            DispatchStep(ctx, items, i);
          }
          failure := Some(r.error);
        } else {
          var outcome := task.handler(ctx, r.value);
          var e := Invoked(ctx, r.value, outcome);
          assert rest == DispatchOut([e] + next.events, next.failure) by {
            DispatchStep(ctx, items, i);
          }
          assert done + rest.events == (done + [e]) + next.events;
          trace := trace + [e];
          done := done + [e];
          i := i + 1;
        }
      }
    }

    /** The run loop's treatment of one task: pull it when its trigger is `pulling_items` and it is pull-able now. */
    method Visit(t: Task, clock: int, fetch: Fetcher) returns (after: int)
      modifies this`trace, t`lastPull
      ensures var v := VisitTask(this, t, old(t.lastPull), clock, fetch);
        && t.lastPull == v.lastPull && trace == old(trace) + v.events && after == v.clockAfter
    {
      after := clock;
      if t.trigger == PullingItems && t.IsPullAble(clock) {
        var slept := Pull(t, clock, fetch);
        after := clock + slept;
      }
    }

    /** The run loop's body for the i-th task of a tick: the visit extends the tick's
        events, clock and stamps by the i-th visit of `TickFrom`. */
    method TickVisit(t: Task, ghost ts: seq<Task>, ghost stamps: seq<int>, now: int, fetch: Fetcher, ghost i: nat,
                     clock: int, ghost before: seq<Event>) returns (after: int)
      requires |ts| == |stamps| && i < |ts| && t == ts[i] && t.lastPull == stamps[i]
      requires var full := TickFrom(this, ts, stamps, now, fetch);
        clock == ClockAfter(full[..i], now) && trace == before + EventsOf(full[..i])
      modifies this`trace, t`lastPull
      ensures var full := TickFrom(this, ts, stamps, now, fetch);
        && after == ClockAfter(full[..i + 1], now)
        && trace == before + EventsOf(full[..i + 1])
        && t.lastPull == full[i].lastPull
    {
      ghost var full := TickFrom(this, ts, stamps, now, fetch);
      ghost var v := full[i];
      ghost var done := EventsOf(full[..i]);
      TickStep(this, ts, stamps, now, fetch, i);
      after := Visit(t, clock, fetch);
      assert trace == before + (done + v.events) by {
        ConcatAssoc(before, done, v.events);
      }
    }

    /** One pass of the run loop at time `now`, ending with its idle sleep. */
    method Tick(now: int, fetch: Fetcher) returns (later: int)
      requires Valid()
      modifies this`trace, tasks
      ensures var vs := TickFrom(this, tasks, old(Stamps()), now, fetch);
        && (forall j :: 0 <= j < |tasks| ==> tasks[j].lastPull == vs[j].lastPull)
        && trace == old(trace) + EventsOf(vs)
        && later == ClockAfter(vs, now) + IdleDelay
    {
      var ts := tasks;
      ghost var stamps := Stamps();
      ghost var full := TickFrom(this, ts, stamps, now, fetch);
      ghost var before := trace;
      var clock := now;
      var i := 0;
      while i < |ts|
        invariant 0 <= i <= |ts|
        invariant tasks == ts
        invariant forall a, b :: 0 <= a < b < |ts| ==> ts[a] != ts[b]
        invariant clock == ClockAfter(full[..i], now)
        invariant trace == before + EventsOf(full[..i])
        invariant forall j :: 0 <= j < i ==> ts[j].lastPull == full[j].lastPull
        invariant forall j :: i <= j < |ts| ==> ts[j].lastPull == stamps[j]
      {
        clock := TickVisit(ts[i], ts, stamps, now, fetch, i, clock, before);
        i := i + 1;
      }
      assert full[..i] == full;
      later := clock + IdleDelay;
    }
  }

  function StampsOf(ts: seq<Task>): (s: seq<int>)
    reads ts
    ensures |s| == |ts|
    ensures forall i :: 0 <= i < |ts| ==> s[i] == ts[i].lastPull
    decreases |ts|
  {
    if ts == [] then [] else [ts[0].lastPull] + StampsOf(ts[1..])
  }

  // ---------------------------------------------------------------------------
  // One pull, as a function of the task, the time and the remote collection

  /** The getItems request a pull sends for a task. */
  function PullRequest(s: Sailor, t: Task): Request {
    GetItems(t.options.appId, t.options.collectionId, QueryOptions(t.options, s.sailorId))
  }

  datatype DispatchOut = DispatchOut(events: seq<Event>, failure: Option<RecordError>)

  /** Hands each item of a batch to the task's handler in order; a handler that raises
      does not stop the batch, an item that cannot become a record does. */
  function Dispatch(ctx: Context, items: seq<Json>): (r: DispatchOut)
    ensures |r.events| <= |items|
    ensures r.failure.None? ==> |r.events| == |items|
    ensures forall i :: 0 <= i < |r.events| ==> r.events[i].Invoked? && r.events[i].context == ctx
    decreases |items|
  {
    if items == [] then DispatchOut([], None)
    else
      match MakeRecord(ctx.sailor, ctx.task.options.appId, ctx.task.options.collectionId, items[0])
      case Failure(e) => DispatchOut([], Some(e))
      case Success(rec) =>
        var rest := Dispatch(ctx, items[1..]);
        DispatchOut([Invoked(ctx, rec, ctx.task.handler(ctx, rec))] + rest.events, rest.failure)
  }

  lemma DispatchStep(ctx: Context, items: seq<Json>, i: nat)
    requires i < |items|
    ensures var r := MakeRecord(ctx.sailor, ctx.task.options.appId, ctx.task.options.collectionId, items[i]);
      Dispatch(ctx, items[i..]) == match r
        case Failure(e) => DispatchOut([], Some(e))
        case Success(rec) => DispatchOut([Invoked(ctx, rec, ctx.task.handler(ctx, rec))] + Dispatch(ctx, items[i + 1..]).events,
                                         Dispatch(ctx, items[i + 1..]).failure)
  {
    assert items[i..][0] == items[i];
    assert items[i..][1..] == items[i + 1..];
  }

  /** What one pull does: whether the fetch succeeded (and so the task was stamped), the events, and how long it slept. */
  datatype PullOut = PullOut(fetched: bool, events: seq<Event>, slept: nat)

  function PullSpec(s: Sailor, t: Task, now: int, fetch: Fetcher): (r: PullOut)
    ensures r.fetched <==> fetch(now, PullRequest(s, t)).Fetched?
    ensures |r.events| >= 1 && r.events[0] == Requested(PullRequest(s, t))
    ensures r.slept == 0 || r.slept == FetchBackoff
  {
    var request := PullRequest(s, t);
    match fetch(now, request)
    case FetchFailed => PullOut(false, [Requested(request), BackedOff(FetchError)], FetchBackoff)
    case Fetched(items) =>
      if |items| == 0 then PullOut(true, [Requested(request)], 0)
      else
        var ctx := Context(s, t);
        var d := Dispatch(ctx, items);
        match d.failure
        case None => PullOut(true, [Requested(request), ContextCreated(ctx)] + d.events, 0)
        case Some(e) => PullOut(true, [Requested(request), ContextCreated(ctx)] + d.events + [BackedOff(BadItem(e))], FetchBackoff)
  }

  // ---------------------------------------------------------------------------
  // One tick of the run loop

  /** What the run loop did with one task: when it checked it, whether it pulled it,
      the task's stamp afterwards, the events, and the clock afterwards. */
  datatype VisitOut = VisitOut(checkedAt: int, pulled: bool, lastPull: int, events: seq<Event>, clockAfter: int)

  predicate Eligible(t: Task, lastPull: int, now: int) {
    t.trigger == PullingItems && Due(lastPull, t.options.pullingInterval, now)
  }

  function VisitTask(s: Sailor, t: Task, lastPull: int, clock: int, fetch: Fetcher): (v: VisitOut)
    ensures v.checkedAt == clock
    ensures v.pulled <==> Eligible(t, lastPull, clock)
    ensures !v.pulled ==> v.events == [] && v.lastPull == lastPull && v.clockAfter == clock
    ensures v.pulled ==> v.clockAfter >= clock && v.events != []
  {
    if Eligible(t, lastPull, clock) then
      var p := PullSpec(s, t, clock, fetch);
      VisitOut(clock, true, if p.fetched then clock else lastPull, p.events, clock + p.slept)
    else VisitOut(clock, false, lastPull, [], clock)
  }

  /** A task that is eligible when checked is pulled: its events, its new stamp and the
      clock it leaves are exactly those of one pull at the check time. */
  lemma VisitTaskPulled(s: Sailor, t: Task, lastPull: int, clock: int, fetch: Fetcher)
    requires Eligible(t, lastPull, clock)
    ensures var v := VisitTask(s, t, lastPull, clock, fetch);
      var p := PullSpec(s, t, clock, fetch);
      && v.pulled
      && v.events == p.events
      && v.lastPull == (if p.fetched then clock else lastPull)
      && v.clockAfter == clock + p.slept
  {
  }

  /** The visits of the tasks from the given one on, each checked at the clock the previous one left. */
  function TickFrom(s: Sailor, ts: seq<Task>, stamps: seq<int>, clock: int, fetch: Fetcher): (vs: seq<VisitOut>)
    requires |ts| == |stamps|
    ensures |vs| == |ts|
    decreases |ts|
  {
    if ts == [] then []
    else
      var v := VisitTask(s, ts[0], stamps[0], clock, fetch);
      [v] + TickFrom(s, ts[1..], stamps[1..], v.clockAfter, fetch)
  }

  /** The run loop visits the tasks in registration order, each at the clock the previous visit left. */
  lemma {:induction false} TickFromVisits(s: Sailor, ts: seq<Task>, stamps: seq<int>, clock: int, fetch: Fetcher)
    requires |ts| == |stamps|
    ensures var vs := TickFrom(s, ts, stamps, clock, fetch);
      forall i :: 0 <= i < |ts| ==> vs[i] == VisitTask(s, ts[i], stamps[i], ClockAfter(vs[..i], clock), fetch)
    decreases |ts|
  {
    if ts != [] {
      var vs := TickFrom(s, ts, stamps, clock, fetch);
      var v := vs[0];
      var rest := TickFrom(s, ts[1..], stamps[1..], v.clockAfter, fetch);
      assert vs == [v] + rest;
      TickFromVisits(s, ts[1..], stamps[1..], v.clockAfter, fetch);
      forall i | 0 < i < |ts|
        ensures vs[i] == VisitTask(s, ts[i], stamps[i], ClockAfter(vs[..i], clock), fetch)
      {
        assert vs[i] == rest[i - 1] && ts[i] == ts[1..][i - 1] && stamps[i] == stamps[1..][i - 1];
        assert ClockAfter(rest[..i - 1], v.clockAfter) == ClockAfter(vs[..i], clock);
      }
    }
  }

  /** What the i-th iteration of a tick needs: the i-th visit, and how it extends the
      events and the clock of the visits before it. */
  lemma TickStep(s: Sailor, ts: seq<Task>, stamps: seq<int>, clock: int, fetch: Fetcher, i: nat)
    requires |ts| == |stamps| && i < |ts|
    ensures var vs := TickFrom(s, ts, stamps, clock, fetch);
      && vs[i] == VisitTask(s, ts[i], stamps[i], ClockAfter(vs[..i], clock), fetch)
      && EventsOf(vs[..i + 1]) == EventsOf(vs[..i]) + vs[i].events
      && ClockAfter(vs[..i + 1], clock) == vs[i].clockAfter
  {
    var vs := TickFrom(s, ts, stamps, clock, fetch);
    assert vs[i] == VisitTask(s, ts[i], stamps[i], ClockAfter(vs[..i], clock), fetch) by {
      TickFromVisits(s, ts, stamps, clock, fetch);
    }
    assert vs[..i + 1] == vs[..i] + [vs[i]];
    EventsOfAppend(vs[..i], vs[i]);
  }

  function StampsAfter(vs: seq<VisitOut>): (s: seq<int>)
    ensures |s| == |vs| && forall i :: 0 <= i < |vs| ==> s[i] == vs[i].lastPull
  {
    seq(|vs|, i requires 0 <= i < |vs| => vs[i].lastPull)
  }

  function EventsOf(vs: seq<VisitOut>): seq<Event>
    decreases |vs|
  {
    if vs == [] then [] else vs[0].events + EventsOf(vs[1..])
  }

  function ClockAfter(vs: seq<VisitOut>, start: int): int {
    if vs == [] then start else vs[|vs| - 1].clockAfter
  }

  lemma {:induction false} EventsOfAppend(vs: seq<VisitOut>, v: VisitOut)
    ensures EventsOf(vs + [v]) == EventsOf(vs) + v.events
    decreases |vs|
  {
    if vs != [] {
      assert (vs + [v])[1..] == vs[1..] + [v];
      EventsOfAppend(vs[1..], v);
    } else {
      assert [v][1..] == [];
    }
  }

  lemma ConcatAssoc<T>(a: seq<T>, b: seq<T>, c: seq<T>)
    ensures a + (b + c) == (a + b) + c
  {
  }

  // ---------------------------------------------------------------------------
  // What a pull does with a batch

  /** The event a batch produces for an item that becomes a record. */
  function Invocation(ctx: Context, item: Json): Event
    requires WellFormedItem(item)
  {
    var rec := MakeRecord(ctx.sailor, ctx.task.options.appId, ctx.task.options.collectionId, item).value;
    Invoked(ctx, rec, ctx.task.handler(ctx, rec))
  }

  /** When every item has the keys a record needs, the handler runs once per item, in
      order, with the batch's context, whatever each call returns or raises. Each record
      carries the task's app and collection and the item's `id`. */
  lemma {:induction false} DispatchWellFormedItems(ctx: Context, items: seq<Json>)
    requires forall i :: 0 <= i < |items| ==> WellFormedItem(items[i])
    ensures var d := Dispatch(ctx, items);
      && d.failure.None? && |d.events| == |items|
      && forall i :: 0 <= i < |items| ==>
           && d.events[i] == Invocation(ctx, items[i])
           && d.events[i].record.itemId == items[i].members["id"]
           && d.events[i].record.appId == ctx.task.options.appId
           && d.events[i].record.collectionId == ctx.task.options.collectionId
    decreases |items|
  {
    if items != [] {
      DispatchWellFormedItems(ctx, items[1..]);
      var d := Dispatch(ctx, items);
      var rest := Dispatch(ctx, items[1..]);
      assert d.events == [Invocation(ctx, items[0])] + rest.events;
      forall i | 0 < i < |items| ensures d.events[i] == Invocation(ctx, items[i]) {
        assert d.events[i] == rest.events[i - 1] && items[1..][i - 1] == items[i];
      }
    }
  }

  /** An item without one of those keys ends the batch: the items before it were handled,
      the ones after it are never handed to the handler. */
  lemma {:induction false} DispatchStopsAtMalformedItem(ctx: Context, items: seq<Json>, k: nat)
    requires k < |items| && !WellFormedItem(items[k])
    requires forall i :: 0 <= i < k ==> WellFormedItem(items[i])
    ensures var d := Dispatch(ctx, items);
      && d.failure == Some(MakeRecord(ctx.sailor, ctx.task.options.appId, ctx.task.options.collectionId, items[k]).error)
      && |d.events| == k
      && forall i :: 0 <= i < k ==> d.events[i] == Invocation(ctx, items[i])
    decreases k
  {
    if k > 0 {
      assert items[1..][k - 1] == items[k];
      DispatchStopsAtMalformedItem(ctx, items[1..], k - 1);
      var d := Dispatch(ctx, items);
      var rest := Dispatch(ctx, items[1..]);
      assert d.events == [Invocation(ctx, items[0])] + rest.events;
      forall i | 0 < i < k ensures d.events[i] == Invocation(ctx, items[i]) {
        assert d.events[i] == rest.events[i - 1] && items[1..][i - 1] == items[i];
      }
    }
  }

  /** A failed fetch is contained: the task is not stamped, no handler runs, and the pull backs off. */
  lemma PullOnFetchFailure(s: Sailor, t: Task, now: int, fetch: Fetcher)
    requires fetch(now, PullRequest(s, t)) == FetchFailed
    ensures PullSpec(s, t, now, fetch) == PullOut(false, [Requested(PullRequest(s, t)), BackedOff(FetchError)], FetchBackoff)
  {
  }

  /** An empty batch still stamps the task, but builds no context and runs no handler. */
  lemma PullOnEmptyBatch(s: Sailor, t: Task, now: int, fetch: Fetcher)
    requires fetch(now, PullRequest(s, t)) == Fetched([])
    ensures PullSpec(s, t, now, fetch) == PullOut(true, [Requested(PullRequest(s, t))], 0)
  {
  }

  /** A non-empty batch of well-formed items: the task is stamped, one context is built,
      and the handler runs once per item in order. */
  lemma PullOnWellFormedBatch(s: Sailor, t: Task, now: int, fetch: Fetcher)
    requires fetch(now, PullRequest(s, t)).Fetched?
    requires var items := fetch(now, PullRequest(s, t)).items;
      |items| > 0 && forall i :: 0 <= i < |items| ==> WellFormedItem(items[i])
    ensures var items := fetch(now, PullRequest(s, t)).items;
      var out := PullSpec(s, t, now, fetch);
      && out.fetched && out.slept == 0
      && |out.events| == |items| + 2
      && out.events[..2] == [Requested(PullRequest(s, t)), ContextCreated(Context(s, t))]
      && forall i :: 0 <= i < |items| ==> out.events[i + 2] == Invocation(Context(s, t), items[i])
  {
    var items := fetch(now, PullRequest(s, t)).items;
    var ctx := Context(s, t);
    DispatchWellFormedItems(ctx, items);
    var out := PullSpec(s, t, now, fetch);
    assert out.events == [Requested(PullRequest(s, t)), ContextCreated(ctx)] + Dispatch(ctx, items).events;
  }

  /** A malformed item at position k: the task stays stamped, the first k items were
      handled, and the error reaches the outer handler, which backs off. */
  lemma PullOnMalformedItem(s: Sailor, t: Task, now: int, fetch: Fetcher, k: nat)
    requires fetch(now, PullRequest(s, t)).Fetched?
    requires var items := fetch(now, PullRequest(s, t)).items;
      k < |items| && !WellFormedItem(items[k]) && forall i :: 0 <= i < k ==> WellFormedItem(items[i])
    ensures var items := fetch(now, PullRequest(s, t)).items;
      var out := PullSpec(s, t, now, fetch);
      && out.fetched && out.slept == FetchBackoff
      && |out.events| == k + 3
      && out.events[..2] == [Requested(PullRequest(s, t)), ContextCreated(Context(s, t))]
      && (forall i :: 0 <= i < k ==> out.events[i + 2] == Invocation(Context(s, t), items[i]))
      && out.events[k + 2] == BackedOff(BadItem(MakeRecord(s, t.options.appId, t.options.collectionId, items[k]).error))
  {
    var items := fetch(now, PullRequest(s, t)).items;
    var ctx := Context(s, t);
    DispatchStopsAtMalformedItem(ctx, items, k);
    var d := Dispatch(ctx, items);
    var out := PullSpec(s, t, now, fetch);
    var head := [Requested(PullRequest(s, t)), ContextCreated(ctx)];
    assert out.events == (head + d.events) + [BackedOff(BadItem(d.failure.value))];
    forall i | 0 <= i < k ensures out.events[i + 2] == Invocation(ctx, items[i]) {
      assert out.events[i + 2] == d.events[i];
    }
  }

  // ---------------------------------------------------------------------------
  // What a tick does

  /** When no task is eligible at the start of a tick, nothing is fetched, no stamp
      changes and the clock does not move before the idle sleep. */
  lemma {:induction false} TickWhenNothingIsDue(s: Sailor, ts: seq<Task>, stamps: seq<int>, clock: int, fetch: Fetcher)
    requires |ts| == |stamps|
    requires forall i :: 0 <= i < |ts| ==> !Eligible(ts[i], stamps[i], clock)
    ensures var vs := TickFrom(s, ts, stamps, clock, fetch);
      EventsOf(vs) == [] && StampsAfter(vs) == stamps && ClockAfter(vs, clock) == clock
    decreases |ts|
  {
    if ts != [] {
      var vs := TickFrom(s, ts, stamps, clock, fetch);
      var v := VisitTask(s, ts[0], stamps[0], clock, fetch);
      assert v == VisitOut(clock, false, stamps[0], [], clock);
      var rest := TickFrom(s, ts[1..], stamps[1..], clock, fetch);
      assert vs == [v] + rest;
      assert forall i :: 0 <= i < |ts| - 1 ==> ts[1..][i] == ts[i + 1] && stamps[1..][i] == stamps[i + 1];
      TickWhenNothingIsDue(s, ts[1..], stamps[1..], clock, fetch);
      assert vs[1..] == rest;
      assert StampsAfter(vs) == [stamps[0]] + StampsAfter(rest);
      if |rest| > 0 {
        assert vs[|vs| - 1] == rest[|rest| - 1];
      }
    }
  }

  /** The tasks are checked in subscription order on a clock that never goes back; a task
      is pulled exactly when it is eligible at the time it is checked. */
  lemma {:induction false} TickChecksInOrder(s: Sailor, ts: seq<Task>, stamps: seq<int>, clock: int, fetch: Fetcher)
    requires |ts| == |stamps|
    ensures var vs := TickFrom(s, ts, stamps, clock, fetch);
      && (forall i :: 0 <= i < |ts| ==> (vs[i].pulled <==> Eligible(ts[i], stamps[i], vs[i].checkedAt)))
      && (forall i, j :: 0 <= i <= j < |ts| ==> clock <= vs[i].checkedAt <= vs[j].checkedAt <= ClockAfter(vs, clock))
      && clock <= ClockAfter(vs, clock)
    decreases |ts|
  {
    if ts != [] {
      var vs := TickFrom(s, ts, stamps, clock, fetch);
      var v := vs[0];
      var rest := TickFrom(s, ts[1..], stamps[1..], v.clockAfter, fetch);
      assert vs == [v] + rest;
      TickChecksInOrder(s, ts[1..], stamps[1..], v.clockAfter, fetch);
      assert ClockAfter(vs, clock) == ClockAfter(rest, v.clockAfter);
      forall i | 0 < i < |ts| ensures vs[i].pulled <==> Eligible(ts[i], stamps[i], vs[i].checkedAt) {
        assert vs[i] == rest[i - 1] && ts[i] == ts[1..][i - 1] && stamps[i] == stamps[1..][i - 1];
      }
      forall i, j | 0 <= i <= j < |ts| ensures clock <= vs[i].checkedAt <= vs[j].checkedAt <= ClockAfter(vs, clock) {
        if j > 0 {
          assert vs[j] == rest[j - 1];
          if i > 0 {
            assert vs[i] == rest[i - 1];
          }
        }
      }
    }
  }

  /** A task pulled with a successful fetch is quiet for its whole interval after the check. */
  lemma PulledTaskIsQuiet(s: Sailor, ts: seq<Task>, stamps: seq<int>, clock: int, fetch: Fetcher, i: nat, later: int)
    requires |ts| == |stamps| && i < |ts|
    requires var vs := TickFrom(s, ts, stamps, clock, fetch);
      vs[i].pulled && PullSpec(s, ts[i], vs[i].checkedAt, fetch).fetched
    requires later <= TickFrom(s, ts, stamps, clock, fetch)[i].checkedAt + ts[i].options.pullingInterval
    ensures !Eligible(ts[i], StampsAfter(TickFrom(s, ts, stamps, clock, fetch))[i], later)
  {
    var vs := TickFrom(s, ts, stamps, clock, fetch);
    TickFromVisits(s, ts, stamps, clock, fetch);
    assert vs[i] == VisitTask(s, ts[i], stamps[i], ClockAfter(vs[..i], clock), fetch);
  }

  // ---------------------------------------------------------------------------
  // Records and the requests they delegate

  /** A record built from an item forwards exactly the identifiers it captured: the task's
      app and collection and the item's `id`, with the sailor's id as the lock owner,
      600 seconds and no subject by default; `record[key]` reads the item. */
  lemma RecordDelegation(s: Sailor, appId: Json, collectionId: Json, item: Json, fields: Json, key: string)
    requires WellFormedItem(item)
    ensures var rec := MakeRecord(s, appId, collectionId, item).value;
      && rec.Lock() == LockItem(appId, collectionId, item.members["id"], DefaultLockTimeout, s.sailorId, JNull)
      && rec.Unlock() == UnlockItem(appId, collectionId, item.members["id"], s.sailorId)
      && rec.Update(fields) == UpdateItem(appId, collectionId, item.members["id"], fields)
      && rec.Get(key) == (if key in item.members then item.members[key] else JNull)
      && rec.Get("id") == rec.itemId
  {
  }
}
