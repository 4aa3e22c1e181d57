/** The task logger: it turns task lifecycle events into write-once conditional upserts on the
    tasks table, keyed by task ARN. The table is a map from task ARN to an item whose
    attributes are each optional, as in the store. */
module TaskLedger {
  import opened Wrappers
  import opened Calendar
  import opened TaskEvents

  /** One item of the tasks table (the key `task_arn` is the map key). */
  datatype TaskItem = TaskItem(
    userIdentity: Option<string>,
    deviceArn: Option<string>,
    taskCreation: Option<DateTime>,
    taskExecution: Option<DateTime>,
    shots: Option<int>,
    cost: Option<real>,
    ttl: Option<int>)

  const EmptyItem: TaskItem := TaskItem(None, None, None, None, None, None, None)

  type Table = map<string, TaskItem>

  /** The two `update_item` calls the logger makes, with the values of their SET clauses. */
  datatype Write =
    | IdentityWrite(user: string, device: string, created: DateTime)
    | CostWrite(execution: DateTime, device: string, shots: int, cost: real, ttl: int)

  function Lookup(items: Table, arn: string): Option<TaskItem>
  {
    if arn in items then Some(items[arn]) else None
  }

  /** The condition `attribute_not_exists(user_identity)` resp. `attribute_not_exists(cost)`;
      an absent item has no attributes. */
  predicate GateOpen(item: Option<TaskItem>, w: Write)
  {
    match item
    case None => true
    case Some(it) => if w.IdentityWrite? then it.userIdentity.None? else it.cost.None?
  }

  /** The SET clause of each write, applied to the item (or to an empty one: upsert). */
  function Updated(item: TaskItem, w: Write): TaskItem
  {
    match w
    case IdentityWrite(user, device, created) =>
      item.(userIdentity := Some(user), deviceArn := Some(device), taskCreation := Some(created))
    case CostWrite(execution, device, shots, cost, ttl) =>
      item.(taskExecution := Some(execution), deviceArn := Some(device), shots := Some(shots),
            cost := Some(cost), ttl := Some(ttl))
  }

  /** The conditional upsert on one item: when the gate fails the item is left as it is. */
  function Apply(item: Option<TaskItem>, w: Write): (r: TaskItem)
    ensures item.Some? && !GateOpen(item, w) ==> r == item.value
    ensures w.IdentityWrite? ==> r.userIdentity.Some?
    ensures w.CostWrite? ==> r.cost.Some?
  {
    if GateOpen(item, w) then Updated(if item.Some? then item.value else EmptyItem, w) else item.value
  }

  /** One committed conditional write on the table. */
  function Commit(items: Table, arn: string, w: Write): (r: Table)
    ensures r.Keys == items.Keys + {arn}
    ensures forall k :: k in items && k != arn ==> r[k] == items[k]
    ensures !GateOpen(Lookup(items, arn), w) ==> r == items
  {
    items[arn := Apply(Lookup(items, arn), w)]
  }

  // ---- which attributes each write touches ----

  /** The attributes only the identity write sets. */
  function IdentityPart(item: Option<TaskItem>): (Option<string>, Option<DateTime>)
  {
    if item.Some? then (item.value.userIdentity, item.value.taskCreation) else (None, None)
  }

  /** The attributes only the cost write sets. */
  function CostPart(item: Option<TaskItem>): (Option<DateTime>, Option<int>, Option<real>, Option<int>)
  {
    if item.Some? then (item.value.taskExecution, item.value.shots, item.value.cost, item.value.ttl)
    else (None, None, None, None)
  }

  /** When its gate is open the identity write sets exactly `user_identity`, `device_arn` and
      `task_creation`; nothing else of that item and no other item changes. */
  lemma IdentityWriteSets(items: Table, arn: string, w: Write)
    requires w.IdentityWrite?
    ensures var r := Commit(items, arn, w);
      && (GateOpen(Lookup(items, arn), w) ==>
            r[arn].userIdentity == Some(w.user) && r[arn].deviceArn == Some(w.device)
            && r[arn].taskCreation == Some(w.created))
      && forall k :: CostPart(Lookup(r, k)) == CostPart(Lookup(items, k))
  {
    var r := Commit(items, arn, w);
    forall k ensures CostPart(Lookup(r, k)) == CostPart(Lookup(items, k)) {
      if k == arn && arn !in items {
        assert r[arn].cost == None;
      }
    }
  }

  /** When its gate is open the cost write sets `task_execution`, `device_arn`, `shots`, `cost`
      and the TTL together; it never touches the identity attributes of any item. */
  lemma CostWriteSets(items: Table, arn: string, w: Write)
    requires w.CostWrite?
    ensures var r := Commit(items, arn, w);
      && (GateOpen(Lookup(items, arn), w) ==>
            r[arn].taskExecution == Some(w.execution) && r[arn].deviceArn == Some(w.device)
            && r[arn].shots == Some(w.shots) && r[arn].cost == Some(w.cost) && r[arn].ttl == Some(w.ttl))
      && forall k :: IdentityPart(Lookup(r, k)) == IdentityPart(Lookup(items, k))
  {
    var r := Commit(items, arn, w);
    forall k ensures IdentityPart(Lookup(r, k)) == IdentityPart(Lookup(items, k)) {
      if k == arn && arn !in items {
        assert r[arn].userIdentity == None;
      }
    }
  }

  /** Both writes are write-once: after one write of a kind, any later write of the same kind
      to the same task leaves the table as it is, so the first identity (resp. cost) stays. */
  lemma WriteOnce(items: Table, arn: string, w: Write, again: Write)
    requires w.IdentityWrite? == again.IdentityWrite?
    ensures Commit(Commit(items, arn, w), arn, again) == Commit(items, arn, w)
  {
    var r := Commit(items, arn, w);
    assert Lookup(r, arn) == Some(r[arn]);
    assert !GateOpen(Lookup(r, arn), again);
  }

  /** The two writes commute when they name the same device: whichever arrives first, the
      task ends with the same item. */
  lemma WritesCommute(items: Table, arn: string, i: Write, c: Write)
    requires i.IdentityWrite? && c.CostWrite? && i.device == c.device
    ensures Commit(Commit(items, arn, i), arn, c) == Commit(Commit(items, arn, c), arn, i)
  {
    var ic := Commit(Commit(items, arn, i), arn, c);
    var ci := Commit(Commit(items, arn, c), arn, i);
    assert Lookup(Commit(items, arn, i), arn).Some?;
    assert Lookup(Commit(items, arn, c), arn).Some?;
    assert ic[arn] == ci[arn];
  }

  /** The cost attributes are written in one step: an item either has all of them or none. */
  predicate CostFieldsTogether(item: TaskItem)
  {
    item.cost.Some? <==> (item.taskExecution.Some? && item.shots.Some? && item.ttl.Some?)
  }

  predicate TableInvariant(items: Table)
  {
    forall k :: k in items ==> CostFieldsTogether(items[k])
  }

  /** Every write keeps the cost attributes together. */
  lemma CommitKeepsInvariant(items: Table, arn: string, w: Write)
    requires TableInvariant(items)
    ensures TableInvariant(Commit(items, arn, w))
  {
  }

  // ---- the handler ----

  /** `(event_time + timedelta(days=ttl_days)).timestamp()`: `None` is the OverflowError of
      the date arithmetic. */
  function TaskTtl(time: DateTime, ttlDays: int): (t: Option<int>)
    requires IsValidDateTime(time)
    ensures t.Some? <==> 1 <= Ordinal(time.date) + ttlDays <= MaxOrdinal
    ensures t.Some? ==> t.value == EpochSeconds(time) + ttlDays * SecondsPerDay
  {
    match AddDays(time, ttlDays)
    case None => None
    case Some(expiry) => Some(EpochSeconds(expiry))
  }

  /** The Braket SDK's minimum billed simulator duration, 3 seconds. */
  const MinSimulatorDurationMs: int := 3000

  /** The simulator's billed duration: the realised duration, but never less than the floor. */
  function BilledDuration(executionMs: int): (billed: int)
    ensures billed >= executionMs && billed >= MinSimulatorDurationMs
    ensures billed == executionMs || billed == MinSimulatorDurationMs
  {
    if executionMs >= MinSimulatorDurationMs then executionMs else MinSimulatorDurationMs
  }

  /** The pricing oracle of the Braket SDK. `None` stands for an exception raised by it or by
      the task-metadata lookup that precedes it. */
  datatype Pricing = Pricing(
    qpuCost: Detail -> Option<real>,
    simulatorCost: (Detail, int) -> Option<real>)

  /** What the handler's environment supplies for one invocation: the pricing oracle, the
      simulator execution duration from the task's result (`None` when fetching it raised),
      and whether the table call raises an exception other than a failed condition. */
  datatype Env = Env(pricing: Pricing, executionMs: Option<int>, storeFails: bool)

  datatype Action = RecordIdentity | RecordQpuCost | RecordSimulatorCost | Ignore | Raise(error: Error)

  /** The handler's dispatch on status and device class, with the exceptions Python raises
      when the branch taken reads an attribute the other shape has, or the device ARN has no '/'. */
  function Dispatch(e: TaskEvent): (a: Action)
    ensures a == RecordIdentity ==> Status(e) == "INITIALIZED"
    ensures a == RecordQpuCost ==> Status(e) == "RUNNING" && e.detail.StateChange?
    ensures a == RecordSimulatorCost ==> Status(e) == "COMPLETED" && e.detail.StateChange?
    ensures a.Raise? ==> Status(e) in {"INITIALIZED", "RUNNING", "COMPLETED"}
  {
    var status := Status(e);
    if status == "INITIALIZED" then
      if e.detail.Creation? then RecordIdentity else Raise(MissingAttribute)
    else if status == "RUNNING" then
      if '/' !in DeviceArn(e) then Raise(IndexOutOfRange)
      else if !IsQpuTask(e) then Ignore
      else if e.detail.StateChange? then RecordQpuCost else Raise(MissingAttribute)
    else if status == "COMPLETED" then
      if '/' !in DeviceArn(e) then Raise(IndexOutOfRange)
      else if !IsSimulatorTask(e) then Ignore
      else if e.detail.StateChange? then RecordSimulatorCost else Raise(MissingAttribute)
    else Ignore
  }

  /** The dispatch is exclusive: an identity write exactly for INITIALIZED creation records, a
      cost write exactly for a QPU task RUNNING or a simulator task COMPLETED, and nothing for
      any other status or device class. */
  lemma DispatchCases(e: TaskEvent)
    ensures Dispatch(e) == RecordIdentity <==> Status(e) == "INITIALIZED" && e.detail.Creation?
    ensures Dispatch(e) == RecordQpuCost <==>
      Status(e) == "RUNNING" && '/' in DeviceArn(e) && IsQpuTask(e) && e.detail.StateChange?
    ensures Dispatch(e) == RecordSimulatorCost <==>
      Status(e) == "COMPLETED" && '/' in DeviceArn(e) && IsSimulatorTask(e) && e.detail.StateChange?
    ensures Status(e) !in {"INITIALIZED", "RUNNING", "COMPLETED"} ==> Dispatch(e) == Ignore
    ensures Status(e) in {"RUNNING", "COMPLETED"} && '/' !in DeviceArn(e) ==> Dispatch(e) == Raise(IndexOutOfRange)
    ensures Status(e) == "RUNNING" && '/' in DeviceArn(e) && !IsQpuTask(e) ==> Dispatch(e) == Ignore
    ensures Status(e) == "COMPLETED" && '/' in DeviceArn(e) && !IsSimulatorTask(e) ==> Dispatch(e) == Ignore
  {
  }

  /** A state-change event that passes the routing rule (status RUNNING or COMPLETED) never
      reaches the identity branch and never reads a missing attribute. */
  lemma RoutedStateChange(e: TaskEvent)
    requires e.detail.StateChange? && e.detail.status in {"RUNNING", "COMPLETED"}
    ensures Dispatch(e) != RecordIdentity && Dispatch(e) != Raise(MissingAttribute)
  {
  }

  datatype Plan = Nothing | Perform(arn: string, write: Write) | Abort(error: Error)

  /** What one event asks of the table: the write (with its cost priced first), nothing, or the
      exception that escapes before any write is attempted. */
  function PlanFor(e: TaskEvent, env: Env, ttlDays: int): (p: Plan)
    requires IsValidDateTime(e.time)
    ensures p.Nothing? <==> Dispatch(e) == Ignore
    ensures Dispatch(e).Raise? ==> p == Abort(Dispatch(e).error)
    ensures p.Abort? && !Dispatch(e).Raise? ==> p.error == PricingFailed || p.error == DateOverflow
    ensures p.Perform? ==> p.arn == TaskArn(e) && (p.write.IdentityWrite? <==> Dispatch(e) == RecordIdentity)
    ensures p.Perform? && p.write.CostWrite? ==>
      p.write.execution == e.time && p.write.ttl == EpochSeconds(e.time) + ttlDays * SecondsPerDay
    ensures Dispatch(e) == RecordIdentity ==>
      p == Perform(TaskArn(e), IdentityWrite(e.detail.userIdentity.arn, e.detail.requestParameters.deviceArn, e.time))
    ensures Dispatch(e) == RecordQpuCost ==>
      if env.pricing.qpuCost(e.detail).None? then p == Abort(PricingFailed)
      else p == CostOf(e, env.pricing.qpuCost(e.detail).value, ttlDays)
    ensures Dispatch(e) == RecordSimulatorCost ==>
      if env.executionMs.None? then p == Abort(PricingFailed)
      else
        var price := env.pricing.simulatorCost(e.detail, BilledDuration(env.executionMs.value));
        if price.None? then p == Abort(PricingFailed) else p == CostOf(e, price.value, ttlDays)
  {
    match Dispatch(e)
    case RecordIdentity =>
      Perform(TaskArn(e), IdentityWrite(e.detail.userIdentity.arn, e.detail.requestParameters.deviceArn, e.time))
    case RecordQpuCost =>
      (match env.pricing.qpuCost(e.detail)
       case None => Abort(PricingFailed)
       case Some(cost) => CostOf(e, cost, ttlDays))
    case RecordSimulatorCost =>
      (match env.executionMs
       case None => Abort(PricingFailed)
       case Some(ms) =>
         (match env.pricing.simulatorCost(e.detail, BilledDuration(ms))
          case None => Abort(PricingFailed)
          case Some(cost) => CostOf(e, cost, ttlDays)))
    case Ignore => Nothing
    case Raise(err) => Abort(err)
  }

  /** The cost write of a priced event; computing its TTL may overflow before the write. */
  function CostOf(e: TaskEvent, cost: real, ttlDays: int): (p: Plan)
    requires IsValidDateTime(e.time) && e.detail.StateChange?
    ensures p.Abort? <==> TaskTtl(e.time, ttlDays).None?
    ensures p.Abort? ==> p.error == DateOverflow
    ensures TaskTtl(e.time, ttlDays).Some? ==>
      p == Perform(TaskArn(e), CostWrite(e.time, e.detail.deviceArn, e.detail.shots, cost, TaskTtl(e.time, ttlDays).value))
    ensures p.Perform? ==>
      p.arn == TaskArn(e) && p.write.CostWrite? && p.write.cost == cost && p.write.execution == e.time
      && p.write.ttl == EpochSeconds(e.time) + ttlDays * SecondsPerDay
  {
    match TaskTtl(e.time, ttlDays)
    case None => Abort(DateOverflow)
    case Some(ttl) => Perform(e.detail.quantumTaskArn, CostWrite(e.time, e.detail.deviceArn, e.detail.shots, cost, ttl))
  }

  /** The whole handler as a function of the table before it: the table after it, and whether
      an exception escapes. */
  function Handle(items: Table, e: TaskEvent, env: Env, ttlDays: int): (r: (Table, Outcome))
    requires IsValidDateTime(e.time)
    ensures r.1 == Pass <==> PlanFor(e, env, ttlDays).Nothing? || (PlanFor(e, env, ttlDays).Perform? && !env.storeFails)
    ensures r.0 != items ==>
      PlanFor(e, env, ttlDays).Perform? && r.0 == Commit(items, TaskArn(e), PlanFor(e, env, ttlDays).write)
    ensures PlanFor(e, env, ttlDays).Perform? && !env.storeFails ==>
      r.0 == Commit(items, TaskArn(e), PlanFor(e, env, ttlDays).write)
  {
    match PlanFor(e, env, ttlDays)
    case Nothing => (items, Pass)
    case Abort(err) => (items, Fail(err))
    case Perform(arn, w) => if env.storeFails then (items, Fail(StoreFailed)) else (Commit(items, arn, w), Pass)
  }

  /** Any exception escapes the handler with the table unchanged, so no partial item is ever
      written; a failed condition is no exception. */
  lemma FailureWritesNothing(items: Table, e: TaskEvent, env: Env, ttlDays: int)
    requires IsValidDateTime(e.time)
    ensures Handle(items, e, env, ttlDays).1.Fail? ==> Handle(items, e, env, ttlDays).0 == items
    ensures Dispatch(e).Raise? ==> Handle(items, e, env, ttlDays) == (items, Fail(Dispatch(e).error))
  {
  }

  /** A QPU task's RUNNING event whose price the oracle gives, with a TTL in range and a working
      store, returns normally and leaves that price on the task, unless an earlier cost write
      already set one (write-once). */
  lemma QpuCostRecorded(items: Table, e: TaskEvent, env: Env, ttlDays: int, c: real)
    requires IsValidDateTime(e.time)
    requires Dispatch(e) == RecordQpuCost && env.pricing.qpuCost(e.detail) == Some(c)
    requires TaskTtl(e.time, ttlDays).Some? && !env.storeFails
    ensures var (r, out) := Handle(items, e, env, ttlDays);
      && out == Pass && TaskArn(e) in r && r[TaskArn(e)].cost.Some?
      && (Lookup(items, TaskArn(e)).Some? && items[TaskArn(e)].cost.Some? ==> r == items)
      && (TaskArn(e) !in items || items[TaskArn(e)].cost.None? ==>
            r[TaskArn(e)].cost == Some(c) && r[TaskArn(e)].shots == Some(e.detail.shots))
  {
  }

  /** A simulator task's COMPLETED event is priced at its billed duration: a run shorter than
      3 seconds is priced as 3 seconds. Otherwise it records the price as a QPU event does. */
  lemma SimulatorCostRecorded(items: Table, e: TaskEvent, env: Env, ttlDays: int, ms: int, c: real)
    requires IsValidDateTime(e.time)
    requires Dispatch(e) == RecordSimulatorCost && env.executionMs == Some(ms)
    requires env.pricing.simulatorCost(e.detail, BilledDuration(ms)) == Some(c)
    requires TaskTtl(e.time, ttlDays).Some? && !env.storeFails
    ensures ms < MinSimulatorDurationMs ==> env.pricing.simulatorCost(e.detail, MinSimulatorDurationMs) == Some(c)
    ensures ms >= MinSimulatorDurationMs ==> env.pricing.simulatorCost(e.detail, ms) == Some(c)
    ensures var (r, out) := Handle(items, e, env, ttlDays);
      && out == Pass && TaskArn(e) in r && r[TaskArn(e)].cost.Some?
      && (Lookup(items, TaskArn(e)).Some? && items[TaskArn(e)].cost.Some? ==> r == items)
      && (TaskArn(e) !in items || items[TaskArn(e)].cost.None? ==> r[TaskArn(e)].cost == Some(c))
  {
  }

  /** What one event does to the table: an INITIALIZED event touches only identity attributes,
      a priced cost event only cost attributes (and the device), and every other event nothing.
      A cost write carries the TTL of its event. */
  lemma HandleEffect(items: Table, e: TaskEvent, env: Env, ttlDays: int)
    requires IsValidDateTime(e.time)
    ensures var r := Handle(items, e, env, ttlDays).0;
      && (Dispatch(e) == RecordIdentity ==> forall k :: CostPart(Lookup(r, k)) == CostPart(Lookup(items, k)))
      && (Dispatch(e) in {RecordQpuCost, RecordSimulatorCost} ==>
            forall k :: IdentityPart(Lookup(r, k)) == IdentityPart(Lookup(items, k)))
      && (Dispatch(e) == RecordIdentity || Dispatch(e) == RecordQpuCost || Dispatch(e) == RecordSimulatorCost || r == items)
      && (r != items ==> r.Keys == items.Keys + {TaskArn(e)} && forall k :: k in items && k != TaskArn(e) ==> r[k] == items[k])
      && (Dispatch(e) in {RecordQpuCost, RecordSimulatorCost} && r != items ==>
            r[TaskArn(e)].ttl == Some(EpochSeconds(e.time) + ttlDays * SecondsPerDay))
    ensures var r := Handle(items, e, env, ttlDays).0;
      && (Dispatch(e) == RecordIdentity && !env.storeFails ==>
            TaskArn(e) in r && r[TaskArn(e)].userIdentity.Some?)
      && (PlanFor(e, env, ttlDays).Perform? && Dispatch(e) != RecordIdentity && !env.storeFails ==>
            TaskArn(e) in r && r[TaskArn(e)].cost.Some?)
  {
    var p := PlanFor(e, env, ttlDays);
    var r := Handle(items, e, env, ttlDays).0;
    if r != items {
      assert p.Perform? && p.arn == TaskArn(e) && r == Commit(items, p.arn, p.write);
      if p.write.IdentityWrite? {
        IdentityWriteSets(items, p.arn, p.write);
      } else {
        CostWriteSets(items, p.arn, p.write);
      }
    }
  }

  /** The tasks table, updated in place by the logger. */
  class Ledger {
    var items: Table
    /** `int(TASK_ITEM_TTL_DAYS)`. */
    const ttlDays: int

    constructor (ttlDays: int)
      ensures items == map[] && this.ttlDays == ttlDays
    {
      items := map[];
      this.ttlDays := ttlDays;
    }

    /** `record_task_user_identity`: the identity write, gated on `user_identity` being absent;
        a failed gate is swallowed, any other failure of the call escapes. */
    method RecordTaskUserIdentity(time: DateTime, detail: Detail, storeFails: bool) returns (res: Outcome)
      requires detail.Creation?
      modifies this
      ensures storeFails ==> res == Fail(StoreFailed) && items == old(items)
      ensures !storeFails ==>
        res == Pass
        && items == Commit(old(items), detail.responseElements.quantumTaskArn,
                           IdentityWrite(detail.userIdentity.arn, detail.requestParameters.deviceArn, time))
    {
      var arn := detail.responseElements.quantumTaskArn;
      var w := IdentityWrite(detail.userIdentity.arn, detail.requestParameters.deviceArn, time);
      if storeFails {
        return Fail(StoreFailed);
      }
      var current := Lookup(items, arn);
      if GateOpen(current, w) {
        items := items[arn := Updated(if current.Some? then current.value else EmptyItem, w)];
      }
      res := Pass;
    }

    /** `record_task_cost`: the cost write, gated on `cost` being absent. */
    method RecordTaskCost(time: DateTime, cost: real, detail: Detail, storeFails: bool) returns (res: Outcome)
      requires detail.StateChange? && IsValidDateTime(time)
      modifies this
      ensures TaskTtl(time, ttlDays).None? ==> res == Fail(DateOverflow) && items == old(items)
      ensures TaskTtl(time, ttlDays).Some? && storeFails ==> res == Fail(StoreFailed) && items == old(items)
      ensures TaskTtl(time, ttlDays).Some? && !storeFails ==>
        res == Pass
        && items == Commit(old(items), detail.quantumTaskArn,
                           CostWrite(time, detail.deviceArn, detail.shots, cost, TaskTtl(time, ttlDays).value))
    {
      var arn := detail.quantumTaskArn;
      var ttl := TaskTtl(time, ttlDays);
      if ttl.None? {
        return Fail(DateOverflow);
      }
      var w := CostWrite(time, detail.deviceArn, detail.shots, cost, ttl.value);
      if storeFails {
        return Fail(StoreFailed);
      }
      var current := Lookup(items, arn);
      if GateOpen(current, w) {
        items := items[arn := Updated(if current.Some? then current.value else EmptyItem, w)];
      }
      res := Pass;
    }

    /** `handler`: dispatch, price, record. */
    method Handler(e: TaskEvent, env: Env) returns (res: Outcome)
      requires IsValidDateTime(e.time)
      modifies this
      ensures (items, res) == Handle(old(items), e, env, ttlDays)
    {
      var action := Dispatch(e);
      match action {
        case RecordIdentity =>
          res := RecordTaskUserIdentity(e.time, e.detail, env.storeFails);
        case RecordQpuCost =>
          var priced := env.pricing.qpuCost(e.detail);
          if priced.None? {
            return Fail(PricingFailed);
          }
          res := RecordTaskCost(e.time, priced.value, e.detail, env.storeFails);
        case RecordSimulatorCost =>
          if env.executionMs.None? {
            return Fail(PricingFailed);
          }
          var billed := BilledDuration(env.executionMs.value);
          var priced := env.pricing.simulatorCost(e.detail, billed);
          if priced.None? {
            return Fail(PricingFailed);
          }
          res := RecordTaskCost(e.time, priced.value, e.detail, env.storeFails);
        case Ignore =>
          res := Pass;
        case Raise(err) =>
          res := Fail(err);
      }
    }
  }
}
