/** The cost meter: for each costed task record from the tasks table's change stream it adds
    the task's cost to four bins of the cost table (`all_time`, the month, the month per user,
    the month per device) and publishes the task cost and the updated totals as metrics. */
module CostMeter {
  import opened Prefixes
  import opened Wrappers
  import opened Calendar

  const AllTime: string := "all_time"

  /** The new image of a tasks-table item, with the four attributes the meter requires. */
  datatype CostedRecord = CostedRecord(taskExecution: DateTime, userIdentity: string, deviceArn: string, cost: real)

  /** One item of the cost table (the key `bin` is the map key). */
  datatype Bin = Bin(cost: real, lastTaskExecution: DateTime)

  type Bins = map<string, Bin>

  datatype Dimension = Dimension(name: string, value: string)
  datatype Metric = Metric(name: string, value: real, dimensions: seq<Dimension>)

  /** The update_item call that raises (the first one; none after it is made). */
  datatype Call = Call(record: nat, bin: nat)

  /** The bins a record is counted in: all time, its month, its month and user, its month and
      device, in this order. */
  function BinKeys(r: CostedRecord): (keys: seq<string>)
    ensures |keys| == 4 && keys[0] == AllTime
    ensures keys[1] == MonthKey(r.taskExecution.date)
    ensures keys[2] == keys[1] + "_" + r.userIdentity && keys[3] == keys[1] + "_" + r.deviceArn
  {
    var month := MonthKey(r.taskExecution.date);
    [AllTime, month, month + "_" + r.userIdentity, month + "_" + r.deviceArn]
  }

  /** The cost a bin holds; an absent bin counts as 0 (`if_not_exists(cost, :initial_cost)`). */
  function CostIn(bins: Bins, key: string): real
  {
    if key in bins then bins[key].cost else 0.0
  }

  /** One bin update: `SET cost = if_not_exists(cost, 0) + :task_cost, last_task_execution = :task_execution`. */
  function AddToBin(bins: Bins, key: string, r: CostedRecord): (result: Bins)
    ensures result.Keys == bins.Keys + {key}
    ensures result[key] == Bin(CostIn(bins, key) + r.cost, r.taskExecution)
    ensures forall k :: k in bins && k != key ==> result[k] == bins[k]
  {
    bins[key := Bin(CostIn(bins, key) + r.cost, r.taskExecution)]
  }

  /** The updates for `keys`, in order. */
  function AddToBins(bins: Bins, keys: seq<string>, r: CostedRecord): (result: Bins)
    ensures forall k :: k in keys ==> k in result
    ensures forall k :: k in bins ==> k in result
  {
    if keys == [] then bins
    else AddToBin(AddToBins(bins, keys[..|keys| - 1], r), keys[|keys| - 1], r)
  }

  /** How often `k` occurs in `keys`. */
  function Count(keys: seq<string>, k: string): nat
  {
    if keys == [] then 0
    else Count(keys[..|keys| - 1], k) + (if keys[|keys| - 1] == k then 1 else 0)
  }

  /** Each listed bin gains the task's cost once per listing and records the task's execution
      time; every other bin is left exactly as it was. */
  lemma {:induction false} AddToBinsAt(bins: Bins, keys: seq<string>, r: CostedRecord, k: string)
    ensures CostIn(AddToBins(bins, keys, r), k) == CostIn(bins, k) + Repeated(Count(keys, k), r.cost)
    ensures k in keys ==> AddToBins(bins, keys, r)[k].lastTaskExecution == r.taskExecution
    ensures k !in keys ==> (k in AddToBins(bins, keys, r) <==> k in bins)
    ensures k !in keys && k in bins ==> AddToBins(bins, keys, r)[k] == bins[k]
  {
    if keys != [] {
      var init, key := keys[..|keys| - 1], keys[|keys| - 1];
      AddToBinsAt(bins, init, r, k);
      var before := AddToBins(bins, init, r);
      assert AddToBins(bins, keys, r) == AddToBin(before, key, r);
      assert k in keys <==> k in init || k == key by {
        assert keys == init + [key];
      }
      var n := Count(init, k);
      if key == k {
        assert Count(keys, k) == n + 1;
      } else {
        assert Count(keys, k) == n;
      }
    }
  }

  /** `n` copies of `c`, added up. */
  function Repeated(n: nat, c: real): (sum: real)
    ensures c >= 0.0 ==> sum >= 0.0
    ensures n == 1 ==> sum == c
  {
    if n == 0 then 0.0 else Repeated(n - 1, c) + c
  }

  /** The multiplicity of a key among four. */
  lemma CountFour(a: string, b: string, c: string, d: string, k: string)
    ensures Count([a, b, c, d], k) ==
      (if a == k then 1 else 0) + (if b == k then 1 else 0) + (if c == k then 1 else 0) + (if d == k then 1 else 0)
  {
    assert [a][..0] == [];
    assert Count([a], k) == (if a == k then 1 else 0);
    assert [a, b][..1] == [a];
    assert Count([a, b], k) == Count([a], k) + (if b == k then 1 else 0);
    assert [a, b, c][..2] == [a, b];
    assert Count([a, b, c], k) == Count([a, b], k) + (if c == k then 1 else 0);
    assert [a, b, c, d][..3] == [a, b, c];
  }

  /** The totals reported for the bins of one record: the post-update cost of each. */
  function Totals(bins: Bins, keys: seq<string>): (totals: map<string, real>)
    ensures totals.Keys == set k | k in keys
  {
    map k | k in keys :: CostIn(bins, k)
  }

  /** The metric data published for one record, from the totals its update produced. */
  function MetricData(r: CostedRecord, aggregated: map<string, real>): (ms: seq<Metric>)
    requires forall k :: k in BinKeys(r) ==> k in aggregated
    ensures |ms| == 6
    ensures ms[0].name == "QuantumTaskCost" && ms[1].name == "QuantumTaskCost"
    ensures ms[2].name == "AggregatedQuantumTaskCostAllTime"
    ensures forall i :: 3 <= i < 6 ==> ms[i].name == "AggregatedQuantumTaskCostMonth"
    ensures ms[0].value == r.cost && ms[1].value == r.cost
    ensures forall i :: 2 <= i < 6 ==> ms[i].value == aggregated[BinKeys(r)[i - 2]]
    ensures ms[4].dimensions == [Dimension("User Identity", r.userIdentity)]
    ensures ms[5].dimensions == [Dimension("Device", r.deviceArn)]
    ensures ms[0].dimensions == ms[4].dimensions + ms[5].dimensions
    ensures ms[1].dimensions == [] && ms[2].dimensions == [] && ms[3].dimensions == []
  {
    var keys := BinKeys(r);
    var user := Dimension("User Identity", r.userIdentity);
    var device := Dimension("Device", r.deviceArn);
    [ Metric("QuantumTaskCost", r.cost, [user, device]),
      Metric("QuantumTaskCost", r.cost, []),
      Metric("AggregatedQuantumTaskCostAllTime", aggregated[keys[0]], []),
      Metric("AggregatedQuantumTaskCostMonth", aggregated[keys[1]], []),
      Metric("AggregatedQuantumTaskCostMonth", aggregated[keys[2]], [user]),
      Metric("AggregatedQuantumTaskCostMonth", aggregated[keys[3]], [device]) ]
  }

  /** The cost table after the records, processed in order. */
  function BinsAfter(bins: Bins, records: seq<CostedRecord>): (result: Bins)
  {
    if records == [] then bins
    else
      var last := records[|records| - 1];
      AddToBins(BinsAfter(bins, records[..|records| - 1]), BinKeys(last), last)
  }

  /** The metrics published for the records, processed in order. */
  function MetricsAfter(bins: Bins, records: seq<CostedRecord>): (calls: seq<seq<Metric>>)
    ensures |calls| == |records|
  {
    if records == [] then []
    else
      var last := records[|records| - 1];
      MetricsAfter(bins, records[..|records| - 1])
        + [MetricData(last, Totals(BinsAfter(bins, records), BinKeys(last)))]
  }

  function SumCosts(records: seq<CostedRecord>): real
  {
    if records == [] then 0.0 else SumCosts(records[..|records| - 1]) + records[|records| - 1].cost
  }

  /** What the records contribute to bin `k`: each record's cost, once per listing of `k`
      among its bin keys. */
  function Contribution(records: seq<CostedRecord>, k: string): real
  {
    if records == [] then 0.0
    else
      var last := records[|records| - 1];
      Contribution(records[..|records| - 1], k) + Repeated(Count(BinKeys(last), k), last.cost)
  }

  /** The cost of every bin after a batch is its cost before plus what the batch's records
      contribute to it. */
  lemma {:induction false} BinTotal(bins: Bins, records: seq<CostedRecord>, k: string)
    ensures CostIn(BinsAfter(bins, records), k) == CostIn(bins, k) + Contribution(records, k)
  {
    if records != [] {
      var init, last := records[..|records| - 1], records[|records| - 1];
      BinTotal(bins, init, k);
      AddToBinsAt(BinsAfter(bins, init), BinKeys(last), last, k);
    }
  }

  /** `all_time` and the month are listed once among a record's bin keys; the month-user and
      month-device bins once each, unless user and device coincide. */
  lemma BinKeyCounts(r: CostedRecord)
    ensures Count(BinKeys(r), AllTime) == 1
    ensures Count(BinKeys(r), BinKeys(r)[1]) == 1
    ensures r.userIdentity != r.deviceArn ==> Count(BinKeys(r), BinKeys(r)[2]) == 1 && Count(BinKeys(r), BinKeys(r)[3]) == 1
    ensures var keys, m := BinKeys(r), |BinKeys(r)[1]|;
      && keys[2][..m + 1] == keys[1] + "_" && keys[2][m + 1..] == r.userIdentity
      && keys[3][..m + 1] == keys[1] + "_" && keys[3][m + 1..] == r.deviceArn
  {
    var keys := BinKeys(r);
    var month := keys[1];
    assert month[0] != AllTime[0];
    assert |keys[2]| > |month| && |keys[3]| > |month|;
    assert keys[2][..|month|] == month && keys[3][..|month|] == month;
    assert keys == [keys[0], keys[1], keys[2], keys[3]];
    CountFour(keys[0], keys[1], keys[2], keys[3], AllTime);
    CountFour(keys[0], keys[1], keys[2], keys[3], month);
    if r.userIdentity != r.deviceArn {
      assert keys[2] != keys[3] by {
        assert keys[2][|month| + 1..] == r.userIdentity;
        assert keys[3][|month| + 1..] == r.deviceArn;
      }
      CountFour(keys[0], keys[1], keys[2], keys[3], keys[2]);
      CountFour(keys[0], keys[1], keys[2], keys[3], keys[3]);
    }
  }

  /** After a batch, `all_time` has grown by exactly the sum of the batch's costs. */
  lemma {:induction false} AllTimeGrowsBySum(bins: Bins, records: seq<CostedRecord>)
    ensures CostIn(BinsAfter(bins, records), AllTime) == CostIn(bins, AllTime) + SumCosts(records)
  {
    BinTotal(bins, records, AllTime);
    ContributionToAllTime(records);
  }

  lemma {:induction false} ContributionToAllTime(records: seq<CostedRecord>)
    ensures Contribution(records, AllTime) == SumCosts(records)
  {
    if records != [] {
      ContributionToAllTime(records[..|records| - 1]);
      BinKeyCounts(records[|records| - 1]);
    }
  }

  /** With non-negative task costs no bin ever decreases. */
  lemma {:induction false} BinsNonDecreasing(bins: Bins, records: seq<CostedRecord>, k: string)
    requires forall i :: 0 <= i < |records| ==> records[i].cost >= 0.0
    ensures CostIn(BinsAfter(bins, records), k) >= CostIn(bins, k)
  {
    BinTotal(bins, records, k);
    ContributionNonNegative(records, k);
  }

  lemma {:induction false} ContributionNonNegative(records: seq<CostedRecord>, k: string)
    requires forall i :: 0 <= i < |records| ==> records[i].cost >= 0.0
    ensures Contribution(records, k) >= 0.0
  {
    if records != [] {
      ContributionNonNegative(records[..|records| - 1], k);
    }
  }

  /** There is no deduplication: the same record delivered twice is counted twice. */
  lemma DuplicateCountedTwice(bins: Bins, r: CostedRecord)
    ensures CostIn(BinsAfter(bins, [r, r]), AllTime) == CostIn(bins, AllTime) + 2.0 * r.cost
  {
    AllTimeGrowsBySum(bins, [r, r]);
    assert [r, r][..1] == [r];
    assert [r][..0] == [];
    assert SumCosts([r]) == r.cost;
  }

  /** One record changes exactly its four bins: each gains the cost and records the execution
      time; every other bin is untouched. */
  lemma RecordUpdate(bins: Bins, r: CostedRecord, k: string)
    ensures var after := BinsAfter(bins, [r]);
      && (k in BinKeys(r) ==> after[k].lastTaskExecution == r.taskExecution
                              && after[k].cost == CostIn(bins, k) + Repeated(Count(BinKeys(r), k), r.cost))
      && (k !in BinKeys(r) ==> (k in after <==> k in bins) && (k in bins ==> after[k] == bins[k]))
  {
    assert [r][..0] == [];
    AddToBinsAt(bins, BinKeys(r), r, k);
  }

  /** Later records do not change the calls made before them: the `i`-th call of a batch is
      the last call of the batch's first `i + 1` records. */
  lemma {:induction false} MetricsAt(bins: Bins, records: seq<CostedRecord>, i: nat)
    requires i < |records|
    ensures MetricsAfter(bins, records)[i] == MetricsAfter(bins, records[..i + 1])[i]
  {
    var init := records[..|records| - 1];
    if i < |init| {
      var pre := records[..i + 1];
      assert init[..i + 1] == pre;
      assert MetricsAfter(bins, records)[i] == MetricsAfter(bins, init)[i] by {
        MetricsInit(bins, records, i);
      }
      assert MetricsAfter(bins, init)[i] == MetricsAfter(bins, pre)[i] by {
        MetricsAt(bins, init, i);
      }
    } else {
      assert records[..i + 1] == records;
    }
  }

  /** The last call is made from the last record and the bins after the whole batch. */
  lemma MetricsLast(bins: Bins, records: seq<CostedRecord>)
    requires records != []
    ensures var last := records[|records| - 1];
      MetricsAfter(bins, records)[|records| - 1] == MetricData(last, Totals(BinsAfter(bins, records), BinKeys(last)))
  {
  }

  /** A call made before the batch's last record is the call made without that record. */
  lemma MetricsInit(bins: Bins, records: seq<CostedRecord>, i: nat)
    requires i + 1 < |records|
    ensures MetricsAfter(bins, records)[i] == MetricsAfter(bins, records[..|records| - 1])[i]
  {
    var calls := MetricsAfter(bins, records[..|records| - 1]);
    assert MetricsAfter(bins, records) == calls + [MetricsAfter(bins, records)[|records| - 1]];
  }

  /** Each put_metric_data call of a batch reports its record's cost twice (per device type
      and per user) and, for each aggregate, the total its bin holds right after that record's
      update. */
  lemma ReportedValues(bins: Bins, records: seq<CostedRecord>, i: nat)
    requires i < |records|
    ensures var r := records[i];
      var after := BinsAfter(bins, records[..i + 1]);
      var calls := MetricsAfter(bins, records);
      var keys := BinKeys(r);
      && |calls| == |records|
      && |calls[i]| == 6
      && calls[i][0].value == r.cost && calls[i][1].value == r.cost
      && calls[i][2] == Metric("AggregatedQuantumTaskCostAllTime", CostIn(after, AllTime), [])
      && calls[i][3].value == CostIn(after, keys[1])
      && calls[i][4].value == CostIn(after, keys[2])
      && calls[i][5].value == CostIn(after, keys[3])
  {
    MetricsAt(bins, records, i);
    MetricsLast(bins, records[..i + 1]);
  }

  lemma AggregatedIsTotals(aggregated: map<string, real>, bins: Bins, keys: seq<string>)
    requires forall k :: k in aggregated <==> k in keys
    requires forall k :: k in aggregated ==> k in bins && aggregated[k] == bins[k].cost
    ensures forall k :: k in keys ==> k in bins
    ensures aggregated == Totals(bins, keys)
  {
  }

  /** Processing one more record of a batch: its four updates on the bins left by the records
      before it, then one put_metric_data call with the totals they produced. */
  lemma BatchStep(bins: Bins, done: seq<CostedRecord>, r: CostedRecord, next: Bins, aggregated: map<string, real>)
    requires next == AddToBins(BinsAfter(bins, done), BinKeys(r), r)
    requires aggregated == Totals(next, BinKeys(r))
    ensures next == BinsAfter(bins, done + [r])
    ensures MetricsAfter(bins, done + [r]) == MetricsAfter(bins, done) + [MetricData(r, aggregated)]
  {
    assert (done + [r])[..|done|] == done;
  }

  /** One iteration of the handler's loop, on the state it leaves. */
  lemma HandlerStep(bins0: Bins, published0: seq<seq<Metric>>, records: seq<CostedRecord>, i: nat,
                    bins: Bins, published: seq<seq<Metric>>, next: Bins, aggregated: map<string, real>)
    requires i < |records|
    requires bins == BinsAfter(bins0, records[..i]) && published == published0 + MetricsAfter(bins0, records[..i])
    requires next == AddToBins(bins, BinKeys(records[i]), records[i]) && aggregated == Totals(next, BinKeys(records[i]))
    ensures next == BinsAfter(bins0, records[..i + 1])
    ensures published + [MetricData(records[i], aggregated)] == published0 + MetricsAfter(bins0, records[..i + 1])
  {
    BatchStep(bins0, records[..i], records[i], next, aggregated);
    PrefixStep(records, i);
  }

  /** The cost table, updated in place, and the metrics published so far. */
  class CostTable {
    var bins: Bins
    var published: seq<seq<Metric>>

    constructor ()
      ensures bins == map[] && published == []
    {
      bins := map[];
      published := [];
    }

    /** `handler`: for each record, the four bin updates, then the six metrics. A raising
        update stops the batch; the updates made before it stay. */
    method Handler(records: seq<CostedRecord>, fault: Option<Call>) returns (res: Outcome)
      modifies this
      ensures !Reached(fault, |records|) ==>
        && res == Pass
        && bins == BinsAfter(old(bins), records)
        && published == old(published) + MetricsAfter(old(bins), records)
      ensures Reached(fault, |records|) ==>
        var i, j := fault.value.record, fault.value.bin;
        && res == Fail(StoreFailed)
        && bins == AddToBins(BinsAfter(old(bins), records[..i]), BinKeys(records[i])[..j], records[i])
        && published == old(published) + MetricsAfter(old(bins), records[..i])
    {
      ghost var bins0, published0 := bins, published;
      var i := 0;
      while i < |records|
        invariant 0 <= i <= |records|
        invariant !Reached(fault, i)
        invariant bins == BinsAfter(bins0, records[..i])
        invariant published == published0 + MetricsAfter(bins0, records[..i])
      {
        var r := records[i];
        ghost var before := bins;
        var stop := StopAt(fault, i);
        var aggregated, ok := UpdateBins(r, stop);
        if !ok {
          assert Reached(fault, |records|);
          return Fail(StoreFailed);
        }
        HandlerStep(bins0, published0, records, i, before, published, bins, aggregated);
        published := published + [MetricData(r, aggregated)];
        i := i + 1;
      }
      PrefixAll(records);
      res := Pass;
    }

    /** The four bin updates for one record, the one numbered `stop` (if any) raising. On
        success, `aggregated` maps each of the record's keys to its bin's new total. */
    method UpdateBins(r: CostedRecord, stop: nat) returns (aggregated: map<string, real>, ok: bool)
      requires stop <= 4
      modifies this`bins
      ensures ok <==> stop == 4
      ensures ok ==> bins == AddToBins(old(bins), BinKeys(r), r) && aggregated == Totals(bins, BinKeys(r))
      ensures !ok ==> bins == AddToBins(old(bins), BinKeys(r)[..stop], r)
    {
      var keys := BinKeys(r);
      aggregated := map[];
      var j := 0;
      while j < |keys|
        invariant 0 <= j <= 4 && j <= stop
        invariant bins == AddToBins(old(bins), keys[..j], r)
        invariant forall k :: k in aggregated <==> k in keys[..j]
        invariant forall k :: k in aggregated ==> k in bins && aggregated[k] == bins[k].cost
      {
        if j == stop {
          return aggregated, false;
        }
        var key := keys[j];
        PrefixStep(keys, j);
        bins := AddToBin(bins, key, r);
        aggregated := aggregated[key := bins[key].cost];
        j := j + 1;
      }
      PrefixAll(keys);
      AggregatedIsTotals(aggregated, bins, keys);
      ok := true;
    }
  }

  /** The number of record `i`'s bin updates that succeed: all four unless one of them is
      the raising call. */
  function StopAt(fault: Option<Call>, i: nat): (stop: nat)
    ensures stop <= 4
    ensures stop < 4 <==> fault.Some? && fault.value.record == i && fault.value.bin < 4
    ensures stop < 4 ==> stop == fault.value.bin
  {
    if fault.Some? && fault.value.record == i && fault.value.bin < 4 then fault.value.bin else 4
  }

  /** Whether the raising call is among the first `n` records' updates. */
  predicate Reached(fault: Option<Call>, n: nat)
  {
    fault.Some? && fault.value.record < n && fault.value.bin < 4
  }
}
