/** The tasks table's change stream as the cost meter sees it. Every write that changes an item
    produces a stream record (INSERT for a new item, MODIFY for an existing one); the meter's
    event source lets through only MODIFY records whose new image holds both `cost` and
    `user_identity`. Because both writes of the logger are write-once, exactly one stream record
    per task passes the filter: the one of whichever of the two writes lands second. How often
    the event source hands that record to the meter (a failed batch is retried) is not part of
    this module. */
module LedgerStream {
  import opened Wrappers
  import opened TaskLedger
  import CostMeter

  /** A change stream record, with the images the meter reads. */
  datatype StreamRecord =
    | Insert(newImage: TaskItem)
    | Modify(oldImage: TaskItem, newImage: TaskItem)

  predicate HasBoth(item: TaskItem)
  {
    item.cost.Some? && item.userIdentity.Some?
  }

  /** The stream record of one conditional write: none when its gate is closed. */
  function Change(items: Table, arn: string, w: Write): (rec: Option<StreamRecord>)
    ensures rec.None? <==> Commit(items, arn, w) == items
    ensures rec.Some? ==> rec.value.newImage == Commit(items, arn, w)[arn]
    ensures rec.Some? ==> (rec.value.Modify? <==> arn in items)
    ensures rec.Some? && rec.value.Modify? ==> rec.value.oldImage == items[arn]
  {
    var before := Lookup(items, arn);
    if !GateOpen(before, w) then None
    else
      var after := Apply(before, w);
      assert arn in items ==> after != items[arn];
      assert arn !in items ==> Commit(items, arn, w).Keys != items.Keys;
      if arn in items then Some(Modify(items[arn], after)) else Some(Insert(after))
  }

  /** The event source filter: a MODIFY whose new image has `cost` and `user_identity`. */
  predicate PassesFilter(rec: StreamRecord)
  {
    rec.Modify? && HasBoth(rec.newImage)
  }

  /** A record passes the filter only when it completes an item: the old image lacked one of the
      two attributes and the new one has both. */
  lemma FilterMeansCompletion(items: Table, arn: string, w: Write)
    requires Change(items, arn, w).Some? && PassesFilter(Change(items, arn, w).value)
    ensures arn in items && !HasBoth(items[arn]) && HasBoth(Commit(items, arn, w)[arn])
  {
  }

  /** The writes of a run of logger invocations, applied in order. */
  function Run(items: Table, ws: seq<(string, Write)>): Table
  {
    if ws == [] then items
    else
      var last := ws[|ws| - 1];
      Commit(Run(items, ws[..|ws| - 1]), last.0, last.1)
  }

  /** How many records about task `k` pass the filter during the run. */
  function Firings(items: Table, ws: seq<(string, Write)>, k: string): nat
  {
    if ws == [] then 0
    else
      var init, last := ws[..|ws| - 1], ws[|ws| - 1];
      var rec := Change(Run(items, init), last.0, last.1);
      Firings(items, init, k) + (if last.0 == k && rec.Some? && PassesFilter(rec.value) then 1 else 0)
  }

  predicate Complete(items: Table, k: string)
  {
    k in items && HasBoth(items[k])
  }

  /** Starting from a task that is not yet complete, whatever the writes and their order,
      exactly one record about it passes the filter if the task ends complete, and none
      otherwise. */
  lemma {:induction false} FiresExactlyOnce(items: Table, ws: seq<(string, Write)>, k: string)
    requires !Complete(items, k)
    ensures Firings(items, ws, k) == if Complete(Run(items, ws), k) then 1 else 0
  {
    if ws != [] {
      var init, last := ws[..|ws| - 1], ws[|ws| - 1];
      FiresExactlyOnce(items, init, k);
      var r := Run(items, init);
      var rec := Change(r, last.0, last.1);
      if last.0 == k && rec.Some? {
        if k !in r {
          var after := Commit(r, k, last.1)[k];
          assert after == Updated(EmptyItem, last.1);
          assert !HasBoth(after);
        }
      }
    }
  }

  /** In either arrival order of a task's identity and cost writes, exactly one record about the
      task passes the filter. */
  lemma EitherOrderFiresOnce(items: Table, arn: string, i: Write, c: Write)
    requires i.IdentityWrite? && c.CostWrite? && arn !in items
    ensures Firings(items, [(arn, i), (arn, c)], arn) == 1
    ensures Firings(items, [(arn, c), (arn, i)], arn) == 1
  {
    FiresExactlyOnce(items, [(arn, i), (arn, c)], arn);
    FiresExactlyOnce(items, [(arn, c), (arn, i)], arn);
    assert [(arn, i), (arn, c)][..1] == [(arn, i)];
    assert [(arn, c), (arn, i)][..1] == [(arn, c)];
  }

  /** The record the meter reads from a new image that passed the filter. */
  function Costed(item: TaskItem): CostMeter.CostedRecord
    requires HasBoth(item) && item.taskExecution.Some? && item.deviceArn.Some?
  {
    CostMeter.CostedRecord(item.taskExecution.value, item.userIdentity.value, item.deviceArn.value, item.cost.value)
  }

  /** Every image that passes the filter carries the four attributes the meter requires: the
      cost write sets the execution time with the cost, and either write sets the device. */
  lemma PassedImageIsCosted(items: Table, arn: string, w: Write)
    requires TableInvariant(items)
    requires Change(items, arn, w).Some? && PassesFilter(Change(items, arn, w).value)
    ensures var item := Change(items, arn, w).value.newImage;
      item.taskExecution.Some? && item.deviceArn.Some?
      && Costed(item).cost == item.cost.value && Costed(item).userIdentity == item.userIdentity.value
  {
    CommitKeepsInvariant(items, arn, w);
    assert CostFieldsTogether(Commit(items, arn, w)[arn]);
  }
}
