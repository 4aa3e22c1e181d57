/** The dashboard widget that reports month-to-date costs per service: the date window it
    asks Cost Explorer about, the rounding of amounts to cents, and the table of services it
    keeps between invocations and merges every response into. */
module CostReport {
  import opened Wrappers
  import opened Text
  import opened Calendar
  import opened Prefixes

  // ---- the report window ----

  /** The `TimePeriod` of the query: from the first of the month up to the end date. */
  datatype Window = Window(start: Date, end: Date)

  /** The end date is today, or yesterday on the first of a month; the start date is the first
      of the end date's month. `None` where Python raises OverflowError (there is no day
      before 0001-01-01). */
  function ReportWindow(today: Date): (w: Option<Window>)
    requires IsValidDate(today)
    ensures w.None? <==> today == Date(1, 1, 1)
    ensures w.Some? ==>
      && IsValidDate(w.value.start) && IsValidDate(w.value.end)
      && w.value.start == Date(w.value.end.year, w.value.end.month, 1)
      && (today.day != 1 ==> w.value.end == today)
  {
    if today.day != 1 then Some(Window(Date(today.year, today.month, 1), today))
    else if today == Date(1, 1, 1) then None
    else
      var end := PrevDay(today);
      Some(Window(Date(end.year, end.month, 1), end))
  }

  /** The window never reaches past today, never starts after it ends, and on the first of a
      month it is the whole of the previous month up to its last day. */
  lemma WindowBounds(today: Date)
    requires IsValidDate(today) && today != Date(1, 1, 1)
    ensures var w := ReportWindow(today).value;
      && Ordinal(w.start) <= Ordinal(w.end) <= Ordinal(today)
      && (today.day == 1 ==> Ordinal(w.end) == Ordinal(today) - 1 && w.end.month != today.month)
  {
    if today.day == 1 {
      PrevDayOrdinal(today);
    }
  }

  // ---- amounts ----

  /** `Decimal(x).quantize(Decimal('.01'), ROUND_HALF_UP)`, as a whole number of cents: the
      nearest one, with ties going away from zero. */
  function Cents(x: real): (c: int)
    ensures x >= 0.0 ==> c >= 0
    ensures x <= 0.0 ==> c <= 0
  {
    if x >= 0.0 then (x * 100.0 + 0.5).Floor else -((-x) * 100.0 + 0.5).Floor
  }

  function Abs(r: real): real
  {
    if r < 0.0 then -r else r
  }

  /** The rounded amount is within half a cent of the exact one, and no whole number of
      cents is nearer. */
  lemma CentsNearest(x: real, d: int)
    ensures Abs(x * 100.0 - Cents(x) as real) <= 0.5
    ensures Abs(x * 100.0 - Cents(x) as real) <= Abs(x * 100.0 - d as real)
  {
    var c := Cents(x);
    var e := x * 100.0;
    if x >= 0.0 {
      assert c as real <= e + 0.5 < c as real + 1.0;
    } else {
      assert c as real - 1.0 < e - 0.5 <= c as real;
    }
    if d < c {
      assert d as real <= c as real - 1.0;
    } else if d > c {
      assert d as real >= c as real + 1.0;
    }
  }

  /** A tie (an amount exactly half-way between two cents) goes away from zero. */
  lemma CentsTiesAwayFromZero(x: real)
    ensures x * 100.0 - Cents(x) as real == 0.5 ==> x < 0.0
    ensures x * 100.0 - Cents(x) as real == -0.5 ==> x > 0.0
  {
    var c := Cents(x);
    if x >= 0.0 {
      assert c as real <= x * 100.0 + 0.5 < c as real + 1.0;
    } else {
      assert c as real - 1.0 < x * 100.0 - 0.5 <= c as real;
    }
  }

  /** `'$' + str(...)` of the quantized amount: an optional minus sign (a negative amount keeps
      it even when it rounds to zero), the whole units, a point and two digits. */
  function FormatAmount(x: real): (s: string)
    ensures |s| >= 5 && s[0] == '$' && s[|s| - 3] == '.'
    ensures IsDigit(s[|s| - 2]) && IsDigit(s[|s| - 1])
    ensures s[1] == '-' <==> x < 0.0
  {
    var c := Cents(x);
    var sign := if x < 0.0 then "-" else "";
    "$" + (sign + UnitsAndCents(if c < 0 then -c else c))
  }

  /** A number of cents as whole units, a point and two digits. */
  function UnitsAndCents(a: nat): (t: string)
    ensures |t| >= 4 && IsDigit(t[0]) && t[|t| - 3] == '.'
    ensures IsDigit(t[|t| - 2]) && IsDigit(t[|t| - 1])
  {
    var units := NatToString(a / 100);
    assert IsDigit(units[0]);
    units + "." + Padded(a % 100, 2)
  }

  predicate AllDigits(s: string)
  {
    forall k :: 0 <= k < |s| ==> IsDigit(s[k])
  }

  /** Reads an amount back as a whole number of cents. */
  function ReadCents(s: string): Option<int>
  {
    if s == [] || s[0] != '$' then None else ReadSigned(s[1..])
  }

  function ReadSigned(t: string): Option<int>
  {
    if t != [] && t[0] == '-' then
      match ReadUnsigned(t[1..])
      case Some(v) => Some(-v)
      case None => None
    else ReadUnsigned(t)
  }

  /** Whole units, a point and two digits. */
  function ReadUnsigned(t: string): Option<int>
  {
    if |t| < 4 || t[|t| - 3] != '.' then None
    else
      var units, frac := t[..|t| - 3], t[|t| - 2..];
      if AllDigits(units) && AllDigits(frac) then Some(DigitsValue(units) * 100 + DigitsValue(frac)) else None
  }

  /** The rendered amount reads back as the rounded number of cents. */
  lemma ReadFormattedAmount(x: real)
    ensures ReadCents(FormatAmount(x)) == Some(Cents(x))
  {
    var c := Cents(x);
    var a: nat := if c < 0 then -c else c;
    var neg := x < 0.0;
    assert FormatAmount(x) == "$" + ((if neg then "-" else "") + UnitsAndCents(a));
    assert c == if neg then -(a as int) else a as int;
    ReadSignedAmount(neg, a);
  }

  /** A sign and a number of cents, rendered after the dollar sign, read back as the signed cents. */
  lemma ReadSignedAmount(neg: bool, a: nat)
    ensures ReadCents("$" + ((if neg then "-" else "") + UnitsAndCents(a))) == Some(if neg then -(a as int) else a as int)
  {
    var u := (if neg then "-" else "") + UnitsAndCents(a);
    ReadUnitsAndCents(a);
    ReadSignedPieces(neg, UnitsAndCents(a));
    assert ("$" + u)[1..] == u;
  }

  /** Whole units and cents read back as the number of cents they render. */
  lemma ReadUnitsAndCents(a: nat)
    ensures ReadUnsigned(UnitsAndCents(a)) == Some(a)
  {
    var units, frac := NatToString(a / 100), Padded(a % 100, 2);
    ReadUnsignedPieces(units, frac);
    NatToStringRoundTrip(a / 100);
    assert Pow10(2) == 100;
    PaddedRoundTrip(a % 100, 2);
    SplitCents(a);
  }

  /** Whole units and two digits, joined by a point, read back as units and cents. */
  lemma ReadUnsignedPieces(units: string, frac: string)
    requires |units| >= 1 && |frac| == 2 && AllDigits(units) && AllDigits(frac)
    ensures ReadUnsigned(units + "." + frac) == Some(DigitsValue(units) * 100 + DigitsValue(frac))
  {
    var t := units + "." + frac;
    assert t[|t| - 3] == '.';
    assert t[..|t| - 3] == units;
    assert t[|t| - 2..] == frac;
  }

  lemma SplitCents(a: nat)
    ensures (a / 100) * 100 + a % 100 == a
  {
  }

  lemma ReadSignedPieces(neg: bool, t: string)
    requires t != [] && IsDigit(t[0])
    ensures ReadSigned((if neg then "-" else "") + t)
      == match ReadUnsigned(t) case Some(v) => Some(if neg then -v else v) case None => None
  {
    if neg {
      assert ("-" + t)[1..] == t;
    } else {
      assert "" + t == t;
    }
  }

  // ---- the table of services ----

  /** The four explanatory HTML texts the table shows, by name: the pricing notes of the three
      monitored services and the note for resources tagged by the solution. */
  datatype Comment = BraketPricing | SageMakerPricing | CostExplorerPricing | SolutionResources

  /** What the table holds for one service. */
  datatype ServiceInfo = ServiceInfo(amount: string, comment: Comment)

  /** One entry of a response's `Groups`: `Keys[0]` and the `UnblendedCost` amount. */
  datatype Group = Group(service: string, amount: real)

  /** The services dictionary: its keys in insertion order and its entries. */
  datatype Services = Services(order: seq<string>, info: map<string, ServiceInfo>)

  /** A row of the rendered table. */
  datatype Row = Row(service: string, amount: string, comment: Comment)

  /** One `get_cost_and_usage` call: its window and the service names it filters on. */
  datatype Query = Query(window: Window, services: seq<string>)

  /** What the handler returns: the documentation, or the report's window and rows. */
  datatype Reply = Docs | Report(window: Window, rows: seq<Row>) | Failed

  const Braket: string := "Amazon Braket"
  const SageMaker: string := "Amazon SageMaker"
  const CostExplorer: string := "AWS Cost Explorer"
  const ZeroAmount: string := "$0.00"

  /** Every key is listed once in the order, and every listed key has an entry. */
  ghost predicate Consistent(s: Services)
  {
    && (forall k :: k in s.info <==> k in s.order)
    && (forall i, j :: 0 <= i < j < |s.order| ==> s.order[i] != s.order[j])
  }

  /** The table as the module is loaded: the three monitored services at zero. */
  function Initial(): (s: Services)
    ensures Consistent(s)
    ensures Monitored(s)
  {
    Services([Braket, SageMaker, CostExplorer],
      map[Braket := ServiceInfo(ZeroAmount, BraketPricing),
          SageMaker := ServiceInfo(ZeroAmount, SageMakerPricing),
          CostExplorer := ServiceInfo(ZeroAmount, CostExplorerPricing)])
  }

  predicate Monitored(s: Services)
  {
    Braket in s.info && SageMaker in s.info && CostExplorer in s.info
  }

  /** The comment an entry gets when a group for `service` is merged: the one it has (every
      comment text is non-empty, so the test for an empty one always passes), otherwise the
      one for the solution's tagged resources. */
  function CommentFor(s: Services, service: string): Comment
  {
    if service in s.info then s.info[service].comment else SolutionResources
  }

  /** Storing one group's amount (a new key goes to the end of the order). */
  function Upsert(s: Services, g: Group): (r: Services)
    ensures r.info.Keys == s.info.Keys + {g.service}
    ensures r.info[g.service].amount == FormatAmount(g.amount)
    ensures g.service in s.info ==> r.order == s.order && r.info[g.service].comment == s.info[g.service].comment
    ensures g.service !in s.info ==> r.order == s.order + [g.service] && r.info[g.service].comment == SolutionResources
    ensures forall k :: k in s.info && k != g.service ==> r.info[k] == s.info[k]
  {
    Services(if g.service in s.info then s.order else s.order + [g.service],
      s.info[g.service := ServiceInfo(FormatAmount(g.amount), CommentFor(s, g.service))])
  }

  /** Storing the groups one after another. */
  function MergeGroups(s: Services, gs: seq<Group>): (r: Services)
    ensures s.info.Keys <= r.info.Keys && s.order <= r.order
    ensures gs != [] ==> gs[|gs| - 1].service in r.info
  {
    if gs == [] then s else Upsert(MergeGroups(s, gs[..|gs| - 1]), gs[|gs| - 1])
  }

  /** The groups of all the `ResultsByTime` entries, in order. */
  function Flatten(results: seq<seq<Group>>): seq<Group>
  {
    if results == [] then [] else Flatten(results[..|results| - 1]) + results[|results| - 1]
  }

  /** The amount of the last group for `service`, if there is one. */
  function Latest(gs: seq<Group>, service: string): Option<real>
  {
    if gs == [] then None
    else if gs[|gs| - 1].service == service then Some(gs[|gs| - 1].amount)
    else Latest(gs[..|gs| - 1], service)
  }

  /** The rows of the table, one per key in insertion order. */
  function RowsOf(s: Services): (rows: seq<Row>)
    requires Consistent(s)
    ensures |rows| == |s.order|
    ensures forall i :: 0 <= i < |rows| ==>
      rows[i] == Row(s.order[i], s.info[s.order[i]].amount, s.info[s.order[i]].comment)
  {
    seq(|s.order|, i requires 0 <= i < |s.order| => Row(s.order[i], s.info[s.order[i]].amount, s.info[s.order[i]].comment))
  }

  /** After a merge, a service that had a group holds the amount of its last group and keeps
      the comment it had (a new one gets the tagged-resources one); every other entry is as
      it was, and nothing is removed. */
  lemma {:induction false} MergeEntry(s: Services, gs: seq<Group>, k: string)
    ensures k in MergeGroups(s, gs).info <==> k in s.info || Latest(gs, k).Some?
    ensures Latest(gs, k).Some? ==>
      MergeGroups(s, gs).info[k] == ServiceInfo(FormatAmount(Latest(gs, k).value), CommentFor(s, k))
    ensures Latest(gs, k).None? && k in s.info ==> MergeGroups(s, gs).info[k] == s.info[k]
  {
    if gs != [] {
      var init, g := gs[..|gs| - 1], gs[|gs| - 1];
      MergeEntry(s, init, k);
      var before := MergeGroups(s, init);
      if g.service == k && Latest(init, k).Some? {
        assert CommentFor(before, k) == CommentFor(s, k);
      }
    }
  }

  /** A merge keeps the table consistent and only appends to the order. */
  lemma {:induction false} MergeOrder(s: Services, gs: seq<Group>)
    requires Consistent(s)
    ensures Consistent(MergeGroups(s, gs))
    ensures s.order <= MergeGroups(s, gs).order
  {
    if gs != [] {
      var init := gs[..|gs| - 1];
      MergeOrder(s, init);
      UpsertConsistent(MergeGroups(s, init), gs[|gs| - 1]);
    }
  }

  lemma UpsertConsistent(s: Services, g: Group)
    requires Consistent(s)
    ensures Consistent(Upsert(s, g)) && s.order <= Upsert(s, g).order
  {
    var t := Upsert(s, g);
    if g.service !in s.info {
      forall i, j | 0 <= i < j < |t.order|
        ensures t.order[i] != t.order[j]
      {
        if j == |s.order| {
          assert t.order[i] == s.order[i];
        }
      }
    }
  }

  /** The three monitored services are never lost. */
  lemma MonitoredStay(s: Services, gs: seq<Group>)
    requires Monitored(s)
    ensures Monitored(MergeGroups(s, gs))
  {
    MergeEntry(s, gs, Braket);
    MergeEntry(s, gs, SageMaker);
    MergeEntry(s, gs, CostExplorer);
  }

  /** The widget's state: the services dictionary, which outlives each invocation, and the
      Cost Explorer queries issued so far. */
  class ServiceReport {
    var order: seq<string>
    var info: map<string, ServiceInfo>
    var queries: seq<Query>

    ghost predicate Valid()
      reads this
    {
      Consistent(Services(order, info)) && Monitored(Services(order, info))
    }

    constructor ()
      ensures Services(order, info) == Initial() && queries == []
      ensures Valid()
    {
      order := [Braket, SageMaker, CostExplorer];
      info := Initial().info;
      queries := [];
    }

    /** `handler`: `describe` requests the documentation; otherwise the window is computed,
        the API queried (`response` is its answer, `None` when the call raises) and the
        answer merged and rendered. */
    method Handler(describe: bool, today: Date, response: Option<seq<seq<Group>>>) returns (reply: Reply)
      requires Valid() && IsValidDate(today)
      modifies this
      ensures Valid()
      ensures describe ==>
        reply == Docs && order == old(order) && info == old(info) && queries == old(queries)
      ensures !describe && today == Date(1, 1, 1) ==>
        reply == Failed && order == old(order) && info == old(info) && queries == old(queries)
      ensures !describe && today != Date(1, 1, 1) ==>
        var w := ReportWindow(today).value;
        && queries == old(queries) + [Query(w, old(order))]
        && (response.None? ==> reply == Failed && order == old(order) && info == old(info))
        && (response.Some? ==>
             && Services(order, info) == MergeGroups(old(Services(order, info)), Flatten(response.value))
             && reply == Report(w, RowsOf(Services(order, info))))
    {
      if describe {
        return Docs;
      }
      var w := ReportWindow(today);
      if w.None? {
        return Failed;
      }
      queries := queries + [Query(w.value, order)];
      if response.None? {
        return Failed;
      }
      Merge(response.value);
      var rows := Rows();
      reply := Report(w.value, rows);
    }

    /** The nested loop over `ResultsByTime` and their `Groups`. */
    method Merge(results: seq<seq<Group>>)
      requires Valid()
      modifies this`order, this`info
      ensures Valid()
      ensures Services(order, info) == MergeGroups(old(Services(order, info)), Flatten(results))
    {
      ghost var s0 := Services(order, info);
      ghost var merged: seq<Group> := [];
      var i := 0;
      while i < |results|
        invariant i <= |results| && merged == Flatten(results[..i])
        invariant Services(order, info) == MergeGroups(s0, merged)
      {
        var groups := results[i];
        ghost var before := merged;
        var j := 0;
        while j < |groups|
          invariant j <= |groups| && merged == before + groups[..j]
          invariant Services(order, info) == MergeGroups(s0, merged)
        {
          var g := groups[j];
          Store(g);
          MergeSnoc(s0, merged, g);
          PrefixStep(groups, j);
          AppendAssoc(before, groups[..j], [g]);
          merged := merged + [g];
          j := j + 1;
        }
        PrefixAll(groups);
        FlattenStep(results, i);
        i := i + 1;
      }
      PrefixAll(results);
      MergeOrder(s0, merged);
      MonitoredStay(s0, merged);
    }

    /** One group of a result: its amount is rendered and stored under its service, keeping the
        comment the service already has (the solution-resources comment for a new one); a new
        service is appended to the order. */
    method Store(g: Group)
      modifies this`order, this`info
      ensures Services(order, info) == Upsert(old(Services(order, info)), g)
    {
      var comment := SolutionResources;
      if g.service in info {
        comment := info[g.service].comment;
      }
      if g.service !in info {
        order := order + [g.service];
      }
      info := info[g.service := ServiceInfo(FormatAmount(g.amount), comment)];
    }

    /** The loop over `MONITORED_SERVICES_INFO.items()`. */
    method Rows() returns (rows: seq<Row>)
      requires Valid()
      ensures |rows| == |order|
      ensures forall i :: 0 <= i < |rows| ==>
        rows[i] == Row(order[i], info[order[i]].amount, info[order[i]].comment)
      ensures rows == RowsOf(Services(order, info))
    {
      rows := [];
      var i := 0;
      while i < |order|
        invariant i <= |order| && |rows| == i
        invariant forall k :: 0 <= k < i ==> rows[k] == Row(order[k], info[order[k]].amount, info[order[k]].comment)
      {
        var key := order[i];
        rows := rows + [Row(key, info[key].amount, info[key].comment)];
        i := i + 1;
      }
    }
  }

  lemma MergeSnoc(s0: Services, xs: seq<Group>, g: Group)
    ensures MergeGroups(s0, xs + [g]) == Upsert(MergeGroups(s0, xs), g)
  {
    assert (xs + [g])[..|xs|] == xs;
  }

  lemma FlattenStep(results: seq<seq<Group>>, i: nat)
    requires i < |results|
    ensures Flatten(results[..i + 1]) == Flatten(results[..i]) + results[i]
  {
    assert results[..i + 1][..i] == results[..i];
  }
}
