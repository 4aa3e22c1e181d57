# Amazon Braket cost control — a verified model of the cost accounting

This project models, in Dafny, the cost-accounting core of the Amazon Braket cost control
solution: the Lambda handlers that log quantum tasks, meter their cost, enforce a budget by
attaching a deny policy, and report month-to-date costs on a dashboard. The AWS services they
call are abstract state:

- the tasks table and the cost table are maps;
- the IAM attachments of the deny policy are a set of principals;
- the SNS notifications, the CloudWatch metric data and the Cost Explorer queries are output
  sequences.

Costs are exact decimals (`real`). Dates and times are structured values in UTC.

Modules, one per file:

- `Wrappers`: `Option` and the `Outcome` of a handler. `Pass` means it returned;
  `Fail(error)` means an exception escaped.
- `Prefixes`: generic facts about sequence prefixes, slices and concatenation.
- `Text`: the string operations the handlers use: `split`, `join`, `strip`,
  `filter(None, ...)` and decimal rendering.
- `Calendar`: dates, ordinals, epoch seconds, `isoformat` and `strftime('%Y-%m')`.
- `TaskEvents` (`quantum_task_logger/models.py`): the two shapes of `detail` and the
  accessors.
- `TaskLedger` (`quantum_task_logger/index.py`):
  - the dispatch on status and device class;
  - the two write-once conditional upserts;
  - the TTL and the billed simulator duration;
  - class `Ledger`, the tasks table updated in place.
- `LedgerStream`: the tasks table's change stream and the meter's event source filter.
  Exactly one stream record per task passes the filter.
- `CostMeter` (`quantum_task_cost_meter/index.py`): the four bins per record, the
  insert-or-add update, and the reported totals. Class `CostTable` holds the cost table and
  the published metric data.
- `CostControl` (`quantum_task_cost_control/index.py`):
  - the parsing of the principal lists;
  - attach on ALARM and detach on OK, one principal at a time, then one notification;
  - class `Enforcement` holds the attached set, the IAM calls and the notifications.
- `CostReport` (`cost_explorer_report/index.py`):
  - the report window;
  - half-up rounding to cents and the rendered amount;
  - the services dictionary that persists across invocations and the rows of the table;
  - class `ServiceReport`.

## Model

| member | source | states |
|---|---|---|
| TaskEvents.AccessorsByShape | lambda/quantum_task_logger/models.py:39-56 | status, task ARN and device ARN come from the state change's own fields, or from `responseElements`/`requestParameters` of a creation record |
| TaskEvents.DeviceTypeOf | lambda/quantum_task_logger/models.py:45-47 | defined only for an ARN that contains '/' (otherwise IndexError); the result contains no '/' |
| TaskEvents.DeviceTypeIsSecondSegment | lambda/quantum_task_logger/models.py:45-47 | the device type is exactly the text between the first and the second '/' (or the end) |
| TaskEvents.SampleQpuDeviceType | create_quantum_tasks.py:14 | the sample IonQ device ARN has device type `qpu` |
| TaskEvents.IsQpuTask | lambda/quantum_task_logger/models.py:49-50 | a QPU task is never a simulator task |
| TaskEvents.IsSimulatorTask | lambda/quantum_task_logger/models.py:52-53 | a simulator task is never a QPU task |
| TaskEvents.DeviceClasses | lambda/quantum_task_logger/models.py:49-53 | QPU task iff the second segment is `qpu`, simulator task iff it is `quantum-simulator`; never both, and any other segment is neither |
| TaskLedger.Apply | lambda/quantum_task_logger/index.py:99-124 | with the gate closed the item is unchanged (the condition failure is swallowed); the identity write leaves `user_identity` set, the cost write leaves `cost` set |
| TaskLedger.Commit | lambda/quantum_task_logger/index.py:141-161 | the upsert adds the task's key if absent and changes no other item; with the gate closed the table is unchanged |
| TaskLedger.IdentityWriteSets | lambda/quantum_task_logger/index.py:145-150 | an open identity write sets `user_identity`, `device_arn` and `task_creation` to the event's values and changes no cost attribute of any item |
| TaskLedger.CostWriteSets | lambda/quantum_task_logger/index.py:103-114 | an open cost write sets `task_execution`, `device_arn`, `shots`, `cost` and the TTL together and changes no identity attribute of any item |
| TaskLedger.WriteOnce | lambda/quantum_task_logger/index.py:114 | a second write of the same kind to the same task leaves the table as the first one left it |
| TaskLedger.WritesCommute | lambda/quantum_task_logger/index.py:100-152 | the identity write and the cost write of a task give the same table in either order when they name the same device |
| TaskLedger.CommitKeepsInvariant | lambda/quantum_task_logger/index.py:103 | every write keeps each item's cost attributes all present or all absent |
| Calendar.NextDayOrdinal | lambda/quantum_task_logger/index.py:89 | the day after a date other than 9999-12-31 is one ordinal later |
| Calendar.ShiftDate | lambda/quantum_task_logger/index.py:89 | adding `n` days succeeds exactly when the target ordinal lies between those of 0001-01-01 and 9999-12-31 (otherwise OverflowError), and then gives a valid date `n` ordinals later |
| Calendar.AddDays | lambda/quantum_task_logger/index.py:89 | adding `n` days to an instant succeeds under the same bound and moves its epoch seconds by exactly `n` × 86400 |
| TaskLedger.TaskTtl | lambda/quantum_task_logger/index.py:89 | OverflowError exactly when the expiry date leaves the years 1 to 9999; otherwise the TTL is the event time in epoch seconds plus `TASK_ITEM_TTL_DAYS` × 86400 |
| TaskLedger.BilledDuration | lambda/quantum_task_logger/index.py:69 | the billed duration is the larger of the realised duration and the 3000 ms floor |
| TaskLedger.Dispatch | lambda/quantum_task_logger/index.py:34-41 | the identity write only for INITIALIZED, the QPU cost only for RUNNING and the simulator cost only for COMPLETED state changes; exceptions only on those three statuses |
| TaskLedger.DispatchCases | lambda/quantum_task_logger/index.py:34-41 | identity write exactly for INITIALIZED creation records; cost write exactly for a QPU task RUNNING or a simulator task COMPLETED; nothing (and no exception) for other statuses, for a RUNNING non-QPU task and for a COMPLETED non-simulator task; IndexError for an ARN without '/' |
| TaskLedger.RoutedStateChange | amazon_braket_cost_control/amazon_braket_cost_control_stack.py:58-67 | a state-change event the routing rule lets through never takes the identity branch and never reads a missing attribute |
| TaskLedger.PlanFor | lambda/quantum_task_logger/index.py:24-74 | nothing exactly for ignored events; dispatch exceptions pass through; an INITIALIZED creation event writes the event's user, device and time; a QPU RUNNING event is priced by the QPU oracle, a simulator COMPLETED event by the simulator oracle at the billed duration, an oracle or metadata exception aborts, and a price becomes the cost write |
| TaskLedger.CostOf | lambda/quantum_task_logger/index.py:84-124 | OverflowError exactly when the TTL overflows; otherwise the cost write for the event's task with the event time, its device, its shots, the priced cost and the TTL |
| TaskLedger.QpuCostRecorded | lambda/quantum_task_logger/index.py:36-38 | a priced QPU RUNNING event with a TTL in range and a working store returns normally and leaves the task with a cost: the oracle's price and the event's shots unless a cost was already there, in which case nothing changes |
| TaskLedger.SimulatorCostRecorded | lambda/quantum_task_logger/index.py:39-41 | a priced simulator COMPLETED event is priced at the 3-second floor when it ran shorter and at its own duration otherwise, and is recorded like a QPU cost |
| TaskLedger.Handle | lambda/quantum_task_logger/index.py:24-44 | the handler returns normally exactly when the event is ignored or its write reaches the table; the table changes only by the planned write, and with a working store that write is committed |
| TaskLedger.FailureWritesNothing | lambda/quantum_task_logger/index.py:42-44 | whenever an exception escapes, the table is unchanged (no partial item) |
| TaskLedger.HandleEffect | lambda/quantum_task_logger/index.py:34-41 | an identity event changes only identity attributes; a cost event changes only cost attributes and carries the event's TTL; any other event changes nothing; only the task's own item changes; with a working store an identity event leaves the task with a user identity and a priced cost event leaves it with a cost |
| TaskLedger.Ledger.RecordTaskUserIdentity | lambda/quantum_task_logger/index.py:127-161 | the table becomes the gated identity upsert of the old table; a store failure escapes and changes nothing |
| TaskLedger.Ledger.RecordTaskCost | lambda/quantum_task_logger/index.py:84-124 | an overflowing TTL escapes before the call; otherwise the table becomes the gated cost upsert with the computed TTL, and a store failure escapes and changes nothing |
| TaskLedger.Ledger.Handler | lambda/quantum_task_logger/index.py:24-44 | the table and the outcome are those of `Handle`: dispatch, price, then record |
| LedgerStream.Change | lambda/quantum_task_logger/index.py:100-115 | a write produces a stream record exactly when it changes the table: MODIFY for an existing item (with its old image), INSERT for a new one, with the item as new image |
| LedgerStream.FilterMeansCompletion | amazon_braket_cost_control/amazon_braket_cost_control_stack.py:262-272 | a record passes the filter only if the old image lacked `cost` or `user_identity` and the new image has both |
| LedgerStream.FiresExactlyOnce | amazon_braket_cost_control/amazon_braket_cost_control_stack.py:262-272 | for any sequence of writes in any order, exactly one stream record about a task that starts incomplete passes the filter if the task ends with both attributes, and none otherwise |
| LedgerStream.EitherOrderFiresOnce | lambda/quantum_task_logger/index.py:141-152 | identity-then-cost and cost-then-identity each let exactly one stream record pass the filter |
| LedgerStream.PassedImageIsCosted | lambda/quantum_task_cost_meter/models.py:17-21 | every image that passes the filter has the execution time, user, device and cost the meter's record requires |
| CostMeter.AddToBin | lambda/quantum_task_cost_meter/index.py:37-47 | the bin's new cost is its old cost (0 if absent) plus the task cost; it records the execution time; no other bin changes |
| CostMeter.AddToBinsAt | lambda/quantum_task_cost_meter/index.py:36-47 | after a record's updates each bin gained the cost once per listing and records the execution time; other bins are untouched |
| CostMeter.Totals | lambda/quantum_task_cost_meter/index.py:48 | the aggregated totals are keyed by exactly the record's bin keys |
| CostMeter.AggregatedIsTotals | lambda/quantum_task_cost_meter/index.py:35-48 | the dictionary filled from the update responses is the post-update cost of each of the record's bins |
| CostMeter.BinTotal | lambda/quantum_task_cost_meter/index.py:26-48 | after a batch every bin holds its old cost plus the costs the batch's records contribute to it |
| CostMeter.BinKeyCounts | lambda/quantum_task_cost_meter/index.py:31-34 | `all_time` and the month are each listed once; month-user and month-device once each unless user and device coincide; those two keys split back into the month key, `_`, and the user or the device |
| CostMeter.AllTimeGrowsBySum | lambda/quantum_task_cost_meter/index.py:26-48 | after a batch `all_time` has grown by exactly the sum of the records' costs |
| CostMeter.BinsNonDecreasing | lambda/quantum_task_cost_meter/index.py:40 | with non-negative costs no bin decreases |
| CostMeter.DuplicateCountedTwice | lambda/quantum_task_cost_meter/index.py:40 | the same record delivered twice adds its cost twice (no deduplication) |
| CostMeter.RecordUpdate | lambda/quantum_task_cost_meter/index.py:34-47 | one record changes exactly its four bins and leaves every other bin as it was |
| CostMeter.MetricData | lambda/quantum_task_cost_meter/index.py:52-102 | six metrics: the task cost twice as `QuantumTaskCost` (with user and device, then without), then the totals of the record's four bins in bin order, the all-time one as `AggregatedQuantumTaskCostAllTime` and the three monthly ones as `AggregatedQuantumTaskCostMonth`; the per-user and per-device aggregates carry the user and the device |
| CostMeter.MetricsAt | lambda/quantum_task_cost_meter/index.py:26-48 | later records of a batch do not change the metric call made for an earlier one |
| CostMeter.ReportedValues | lambda/quantum_task_cost_meter/index.py:26-102 | one metric call per record; the `i`-th reports the `i`-th record's cost twice and each aggregate as its bin's total right after that record's update |
| CostMeter.CostTable.Handler | lambda/quantum_task_cost_meter/index.py:24-105 | without a fault the table and metrics are those of the whole batch; a raising update stops the batch and the updates before it persist |
| CostMeter.CostTable.UpdateBins | lambda/quantum_task_cost_meter/index.py:35-48 | the four bin updates for one record, and the totals they return; a raising update leaves the updates before it |
| Calendar.MonthKeyIsIsoPrefix | lambda/quantum_task_cost_meter/index.py:31 | from year 1000 on, the month key is the first seven characters of the ISO time the logger wrote |
| Calendar.MonthKeyDetermines | lambda/quantum_task_cost_meter/index.py:31 | equal month keys mean the same year and month |
| Calendar.MonthKey | lambda/quantum_task_cost_meter/index.py:31 | the key is decimal digits, a dash, then two more digits |
| Calendar.IsoFormat | lambda/quantum_task_logger/index.py:90 | the rendering is 25 characters, `YYYY-MM-DDTHH:MM:SS+00:00`: digits except for the separators at their fixed places |
| Calendar.IsoFormatFields | lambda/quantum_task_logger/index.py:90 | the six numeric fields of the rendering read back as year, month, day, hour, minute and second |
| Text.Strip | lambda/quantum_task_cost_control/index.py:12-14 | the result is the infix left after removing the leading and the trailing whitespace: what is removed is whitespace, and the result neither starts nor ends with it |
| Text.NonEmpty | lambda/quantum_task_cost_control/index.py:12-14 | the filtered list holds exactly the non-empty strings of the input |
| Text.NonEmptyConcat | lambda/quantum_task_cost_control/index.py:12-14 | the filter keeps a non-empty string, drops an empty one and distributes over concatenation, so the kept strings stay in input order |
| Text.ParseList | lambda/quantum_task_cost_control/index.py:12-14 | the parsed list holds exactly the non-empty comma-separated segments of the stripped value, none empty or containing a comma |
| Text.ParseListJoin | lambda/quantum_task_cost_control/index.py:12-14 | parsing the comma-joined list gives the list back when no name is empty, contains a comma or has outer whitespace |
| CostControl.ParseConfig | lambda/quantum_task_cost_control/index.py:10-14 | the topic and the policy come from the environment; each principal list holds exactly the non-empty comma-separated segments of its stripped variable, none empty or containing a comma |
| CostControl.Applied | lambda/quantum_task_cost_control/index.py:29-68 | principals not in the list keep their state; the last principal processed has the policy exactly when attaching |
| CostControl.Calls | lambda/quantum_task_cost_control/index.py:29-68 | one IAM call per principal, in list order, each in the direction taken |
| CostControl.Notice | lambda/quantum_task_cost_control/index.py:39-48 | the notification goes to the configured topic, with the Attached subject exactly on ALARM and the Detached subject exactly on OK |
| CostControl.MessageLayout | lambda/quantum_task_cost_control/index.py:42-47 | the message holds the policy after its opening and each joined list after its label, at the offsets the label lengths give |
| CostControl.AppliedConcat | lambda/quantum_task_cost_control/index.py:30-38 | processing the roles, then the groups, then the users is processing their concatenation |
| CostControl.AppliedIsEffect | lambda/quantum_task_cost_control/index.py:30-38 | one call at a time gives the closed form: all named principals added (ALARM) or removed (OK) |
| CostControl.AppliedMembership | lambda/quantum_task_cost_control/index.py:30-58 | after the calls a named principal has the policy iff attaching; any other principal is as it was |
| CostControl.AlarmAndOkEffect | lambda/quantum_task_cost_control/index.py:29-58 | after ALARM every configured principal has the policy, after OK none has; principals not listed are untouched |
| CostControl.ReplayIdempotent | lambda/quantum_task_cost_control/index.py:30-38 | replaying the same alarm state leaves the same attached set |
| CostControl.NoticeListsReadBack | lambda/quantum_task_cost_control/index.py:42-47 | the message of either direction is laid out as above, and each list named in it parses back to the configured list when no name has outer whitespace |
| CostControl.Enforcement.ApplyAll | lambda/quantum_task_cost_control/index.py:30-38 | every principal processed in order; a raising call stops the loop, and its predecessors' effects and all calls up to it remain |
| CostControl.Enforcement.Handler | lambda/quantum_task_cost_control/index.py:24-71 | any other value does nothing; ALARM/OK apply every call, then one notification with the matching subject; a raising call stops later calls and the notification; a raising publish sends nothing after all calls |
| Calendar.PrevDay | lambda/cost_explorer_report/index.py:47 | the day before a valid date other than 0001-01-01 is a valid date |
| Calendar.PrevDayOrdinal | lambda/cost_explorer_report/index.py:47 | the day before is one ordinal earlier |
| CostReport.ReportWindow | lambda/cost_explorer_report/index.py:45-49 | end is today, or yesterday on day 1 (none for 0001-01-01); start is day 1 of the end's month; both valid |
| CostReport.WindowBounds | lambda/cost_explorer_report/index.py:45-49 | start ≤ end ≤ today; on day 1 the end is the day before, in the previous month |
| CostReport.Cents | lambda/cost_explorer_report/index.py:79 | the rounded cents have the sign of the amount |
| CostReport.CentsNearest | lambda/cost_explorer_report/index.py:79 | the rounded amount is within half a cent, and no whole number of cents is nearer |
| CostReport.CentsTiesAwayFromZero | lambda/cost_explorer_report/index.py:79 | a tie rounds away from zero (ROUND_HALF_UP) |
| CostReport.FormatAmount | lambda/cost_explorer_report/index.py:79 | `$`, a minus exactly for negative amounts, units, a point and two digits |
| CostReport.ReadFormattedAmount | lambda/cost_explorer_report/index.py:79 | the rendered amount reads back as the rounded number of cents |
| CostReport.Initial | lambda/cost_explorer_report/index.py:19-32 | the initial dictionary is consistent and holds the three monitored services |
| CostReport.Upsert | lambda/cost_explorer_report/index.py:78-86 | the service gets an entry with its rendered amount; an existing entry keeps its comment and place, a new one gets the solution-resources comment and goes last; other entries are unchanged |
| CostReport.MergeGroups | lambda/cost_explorer_report/index.py:76-86 | no key and no place in the order is lost, and the last group's service has an entry |
| CostReport.MergeEntry | lambda/cost_explorer_report/index.py:76-86 | a service in the response holds its last group's amount and keeps its comment (solution-resources comment if new); others keep their entry; nothing is removed |
| CostReport.MergeOrder | lambda/cost_explorer_report/index.py:83-86 | a merge keeps the dictionary consistent and only appends keys to the insertion order |
| CostReport.MonitoredStay | lambda/cost_explorer_report/index.py:83-86 | the three monitored services are never lost |
| CostReport.RowsOf | lambda/cost_explorer_report/index.py:95-102 | one row per key, in insertion order, each with that key's amount and comment |
| CostReport.ServiceReport.Handler | lambda/cost_explorer_report/index.py:38-113 | `describe` returns the docs and queries nothing; otherwise one query for the window and the current keys, then the merged table and its rows, or a failure with the table unchanged |
| CostReport.ServiceReport.Merge | lambda/cost_explorer_report/index.py:76-86 | the dictionary becomes the merge of every group of every result, in order, and stays consistent |
| CostReport.ServiceReport.Store | lambda/cost_explorer_report/index.py:78-86 | one group stored: amount rendered, comment kept (or the solution-resources comment), new key appended |
| CostReport.ServiceReport.Rows | lambda/cost_explorer_report/index.py:95-102 | the rows are the entries in insertion order |

## Left out

- Logging, Powertools event parsing, and the HTML text of the report. The four comment texts
  are the named values of `Comment`. Each is non-empty, so the source's test for an empty
  comment always passes.
- The pricing library and the task-metadata calls. They are an uninterpreted pricing oracle
  with a duration input; `None` stands for any exception they raise.
- The 3000 ms `MIN_SIMULATOR_DURATION` is the Braket SDK's value. The SDK is not part of
  this model.
- AWS itself:
  - every `update_item`, IAM call, `publish` and `put_metric_data` is one atomic step;
  - failures are parameters (`storeFails`, `failAt`, `fault`, `publishFails`,
    `response == None`);
  - there is no concurrency between invocations;
  - IAM's NoSuchEntity on detaching is covered only by the generic failure.
- TaskLedger.TaskTtl: the TTL is whole epoch seconds, not the float-seconds string. A
  `TASK_ITEM_TTL_DAYS` that is not an integer (ValueError) is not modelled.
- Redelivery of stream records. The meter's event source takes batches of 5, splits a failed
  batch and retries it up to 10 times. A retried record whose bin updates had already
  succeeded is counted again (`CostMeter.DuplicateCountedTwice`). The model proves only that
  one record per task passes the filter, not that the meter sees it once.
- Timestamps of the metric data and the report's response timestamp.
- The `TASK_ITEM_TTL_DAYS` and `TAG_KEY` variables are parameters or left out.
  `date.today()` is an input.
- CostMeter.CostTable.Handler: a raising `put_metric_data` is not modelled; only the bin
  updates can fail.
- `quantum_task_cost_meter/models.py` is mirrored as the datatype `CostedRecord`.
- Calendar.MonthKeyIsIsoPrefix holds only from year 1000 on. Below that, `strftime('%Y')`
  does not pad the year.
- CostControl.Enforcement.ApplyAll: the three loops over roles, groups and users are written
  as one loop over their concatenation. They issue the same calls in the same order.
- CostReport.Cents: a decimal amount is an exact `real`.
  - A negative zero string ("-0") is not modelled.
  - Decimal precision and InvalidOperation are not modelled.
  - A malformed Cost Explorer response (KeyError) is not modelled.
- CostReport.ServiceReport.Handler: any exception is `Failed` with nothing changed. A failure
  on 0001-01-01 (no day before) is included.
