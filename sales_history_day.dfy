/**
 * The per-day summary of the sales history: group the sales by the day they
 * were made, keep a running total per day, and the overall total.
 * The calendar day of a timestamp depends on the platform's locale and time
 * zone, so it is a parameter `dayOf`.
 */
module SalesHistoryDay {
  import opened Common
  import opened ProductActions

  /** The calendar day of a sale, as `toLocaleDateString` prints it. */
  datatype DayKey = DayKey(text: string)

  /** One entry of the grouping: the day's sales in input order and their running total. */
  datatype DayGroup = DayGroup(sales: seq<SaleRow>, total: Money)

  function One(r: SaleRow): int { 1 }

  function DayOf(dayOf: Timestamp -> DayKey, r: SaleRow): DayKey { dayOf(r.createdAt) }

  /** The sales of `day`, in input order. */
  function OnDay(sales: seq<SaleRow>, dayOf: Timestamp -> DayKey, day: DayKey): seq<SaleRow>
  {
    if sales == [] then []
    else
      var last := sales[|sales| - 1];
      OnDay(sales[..|sales| - 1], dayOf, day) + (if DayOf(dayOf, last) == day then [last] else [])
  }

  /** The distinct days of `sales`, in the order each is first seen (the order `Object.keys` reports them). */
  function FirstSeen(sales: seq<SaleRow>, dayOf: Timestamp -> DayKey): seq<DayKey>
  {
    if sales == [] then []
    else
      var days := FirstSeen(sales[..|sales| - 1], dayOf);
      var d := DayOf(dayOf, sales[|sales| - 1]);
      if d in days then days else days + [d]
  }

  /** What `groupSalesByDay` builds: one group per day seen, holding that day's sales and their sum. */
  ghost predicate IsGrouping(grouped: map<DayKey, DayGroup>, days: seq<DayKey>, sales: seq<SaleRow>,
                             dayOf: Timestamp -> DayKey)
  {
    && days == FirstSeen(sales, dayOf)
    && (forall d :: d in grouped <==> d in days)
    && forall d :: d in grouped ==>
         grouped[d].sales == OnDay(sales, dayOf, d) && grouped[d].total == Sum(grouped[d].sales, RowTotal)
  }

  /**
   * `groupSalesByDay`: walk the sales once; the first sale of a day creates
   * its group with no sales and total 0, and every sale is appended to its
   * day's group and added to that group's total. `days` is the key order.
   */
  method GroupSalesByDay(sales: seq<SaleRow>, dayOf: Timestamp -> DayKey)
    returns (grouped: map<DayKey, DayGroup>, days: seq<DayKey>)
    ensures IsGrouping(grouped, days, sales, dayOf)
  {
    grouped, days := map[], [];
    for i := 0 to |sales|
      invariant IsGrouping(grouped, days, sales[..i], dayOf)
    {
      var sale := sales[i];
      ghost var (before, daysBefore) := (grouped, days);
      var date := dayOf(sale.createdAt);
      if date !in grouped {
        grouped := grouped[date := DayGroup([], 0)];
        days := days + [date];
      }
      grouped := grouped[date := DayGroup(grouped[date].sales + [sale], grouped[date].total + sale.totalPrice)];
      GroupingStep(before, daysBefore, sales, i, dayOf, grouped, days);
    }
    assert sales[..|sales|] == sales;
  }

  /** One iteration of the loop above keeps the grouping exact for the sales seen so far. */
  lemma GroupingStep(grouped: map<DayKey, DayGroup>, days: seq<DayKey>, sales: seq<SaleRow>, i: nat,
                     dayOf: Timestamp -> DayKey, grouped': map<DayKey, DayGroup>, days': seq<DayKey>)
    requires i < |sales|
    requires IsGrouping(grouped, days, sales[..i], dayOf)
    requires days' == if DayOf(dayOf, sales[i]) in grouped then days else days + [DayOf(dayOf, sales[i])]
    requires forall d :: d in grouped' <==> d in grouped || d == DayOf(dayOf, sales[i])
    requires forall d :: d in grouped && d != DayOf(dayOf, sales[i]) ==> grouped'[d] == grouped[d]
    requires DayOf(dayOf, sales[i]) in grouped'
    requires var date := DayOf(dayOf, sales[i]);
             var start := if date in grouped then grouped[date] else DayGroup([], 0);
             grouped'[date] == DayGroup(start.sales + [sales[i]], start.total + sales[i].totalPrice)
    ensures IsGrouping(grouped', days', sales[..i + 1], dayOf)
  {
    var seen, seen' := sales[..i], sales[..i + 1];
    assert seen' == seen + [sales[i]];
    StepKeys(grouped, days, seen, sales[i], dayOf, grouped', days');
    forall d | d in grouped'
      ensures grouped'[d].sales == OnDay(seen', dayOf, d) && grouped'[d].total == Sum(grouped'[d].sales, RowTotal)
    {
      StepGroup(grouped, days, seen, sales[i], dayOf, d, grouped'[d]);
    }
  }

  /** The key order and the key set after one more sale. */
  lemma StepKeys(grouped: map<DayKey, DayGroup>, days: seq<DayKey>, seen: seq<SaleRow>, sale: SaleRow,
                 dayOf: Timestamp -> DayKey, grouped': map<DayKey, DayGroup>, days': seq<DayKey>)
    requires days == FirstSeen(seen, dayOf)
    requires forall d :: d in grouped <==> d in days
    requires days' == if DayOf(dayOf, sale) in grouped then days else days + [DayOf(dayOf, sale)]
    requires forall d :: d in grouped' <==> d in grouped || d == DayOf(dayOf, sale)
    ensures days' == FirstSeen(seen + [sale], dayOf)
    ensures forall d :: d in grouped' <==> d in days'
  {
    assert (seen + [sale])[..|seen|] == seen;
  }

  /** One group after one more sale: it gains the sale if the sale is of its day, and its total stays the sum. */
  lemma StepGroup(grouped: map<DayKey, DayGroup>, days: seq<DayKey>, seen: seq<SaleRow>, sale: SaleRow,
                  dayOf: Timestamp -> DayKey, d: DayKey, group: DayGroup)
    requires IsGrouping(grouped, days, seen, dayOf)
    requires d != DayOf(dayOf, sale) ==> d in grouped && group == grouped[d]
    requires d == DayOf(dayOf, sale) ==>
      var start := if d in grouped then grouped[d] else DayGroup([], 0);
      group == DayGroup(start.sales + [sale], start.total + sale.totalPrice)
    ensures group.sales == OnDay(seen + [sale], dayOf, d)
    ensures group.total == Sum(group.sales, RowTotal)
  {
    var seen' := seen + [sale];
    assert seen'[..|seen|] == seen && seen'[|seen|] == sale;
    assert OnDay(seen', dayOf, d) == OnDay(seen, dayOf, d) + (if d == DayOf(dayOf, sale) then [sale] else []);
    if d == DayOf(dayOf, sale) {
      if d !in grouped {
        UnseenDayIsEmpty(seen, dayOf, d);
      }
      var start := if d in grouped then grouped[d] else DayGroup([], 0);
      assert (start.sales + [sale])[..|start.sales|] == start.sales;
    }
  }

  /** A day not yet seen has no sales so far. */
  lemma {:induction false} UnseenDayIsEmpty(sales: seq<SaleRow>, dayOf: Timestamp -> DayKey, day: DayKey)
    requires day !in FirstSeen(sales, dayOf)
    ensures OnDay(sales, dayOf, day) == []
  {
    if sales != [] {
      UnseenDayIsEmpty(sales[..|sales| - 1], dayOf, day);
    }
  }

  /** `getTotalSalesByMonth`: `sales.reduce((acc, sale) => acc + sale.totalPrice, 0)`; no month is filtered. */
  function TotalSalesByMonth(sales: seq<SaleRow>): (total: Money)
    ensures total == Sum(sales, RowTotal)
  {
    Reduce(sales, 0)
  }

  function Reduce(sales: seq<SaleRow>, acc: Money): (r: Money)
    ensures r == acc + Sum(sales, RowTotal)
  {
    if sales == [] then acc
    else
      var rest := Reduce(sales[1..], acc + sales[0].totalPrice);
      assert sales == [sales[0]] + sales[1..];
      SumConcat([sales[0]], sales[1..], RowTotal);
      assert [sales[0]][..0] == [];
      rest
  }

  /** A sale is in the group of `day` exactly when it is one of the input sales and was made on `day`. */
  lemma {:induction false} OnDayMembers(sales: seq<SaleRow>, dayOf: Timestamp -> DayKey, day: DayKey, x: SaleRow)
    ensures x in OnDay(sales, dayOf, day) <==> x in sales && DayOf(dayOf, x) == day
  {
    if sales != [] {
      var prefix := sales[..|sales| - 1];
      OnDayMembers(prefix, dayOf, day, x);
      assert sales == prefix + [sales[|sales| - 1]];
    }
  }

  /** The days listed are distinct, and they are exactly the days on which some sale was made. */
  lemma {:induction false} FirstSeenDays(sales: seq<SaleRow>, dayOf: Timestamp -> DayKey)
    ensures forall i, j :: 0 <= i < j < |FirstSeen(sales, dayOf)| ==> FirstSeen(sales, dayOf)[i] != FirstSeen(sales, dayOf)[j]
    ensures forall d :: d in FirstSeen(sales, dayOf) <==> exists x :: x in sales && DayOf(dayOf, x) == d
  {
    if sales != [] {
      var prefix := sales[..|sales| - 1];
      FirstSeenDays(prefix, dayOf);
      assert sales == prefix + [sales[|sales| - 1]];
    }
  }

  /** Every sale lands in the group of its own day. */
  lemma SaleInItsDayGroup(grouped: map<DayKey, DayGroup>, days: seq<DayKey>, sales: seq<SaleRow>,
                          dayOf: Timestamp -> DayKey, x: SaleRow)
    requires IsGrouping(grouped, days, sales, dayOf)
    requires x in sales
    ensures DayOf(dayOf, x) in grouped && x in grouped[DayOf(dayOf, x)].sales
  {
    FirstSeenDays(sales, dayOf);
    assert DayOf(dayOf, x) in days;
    OnDayMembers(sales, dayOf, DayOf(dayOf, x), x);
  }

  /** A group holds only input sales made on its day, so no sale sits in two groups. */
  lemma GroupHoldsOnlyItsDay(grouped: map<DayKey, DayGroup>, days: seq<DayKey>, sales: seq<SaleRow>,
                             dayOf: Timestamp -> DayKey, d: DayKey, x: SaleRow)
    requires IsGrouping(grouped, days, sales, dayOf)
    requires d in grouped && x in grouped[d].sales
    ensures x in sales && DayOf(dayOf, x) == d
  {
    OnDayMembers(sales, dayOf, d, x);
  }

  /** The keys are exactly the days on which some sale was made, and no group is empty. */
  lemma GroupKeysAreSaleDays(grouped: map<DayKey, DayGroup>, days: seq<DayKey>, sales: seq<SaleRow>,
                             dayOf: Timestamp -> DayKey, d: DayKey)
    requires IsGrouping(grouped, days, sales, dayOf)
    ensures d in grouped <==> exists x :: x in sales && DayOf(dayOf, x) == d
    ensures d in grouped ==> grouped[d].sales != []
  {
    FirstSeenDays(sales, dayOf);
    if d in grouped {
      assert d in days;
      var x :| x in sales && DayOf(dayOf, x) == d;
      OnDayMembers(sales, dayOf, d, x);
    }
  }

  /** The sales whose day is one of `days`, in input order. */
  function InDays(sales: seq<SaleRow>, dayOf: Timestamp -> DayKey, days: seq<DayKey>): seq<SaleRow>
  {
    if sales == [] then []
    else
      var last := sales[|sales| - 1];
      InDays(sales[..|sales| - 1], dayOf, days) + (if DayOf(dayOf, last) in days then [last] else [])
  }

  /** The sum of `w` over each listed day's sales, added up day by day. */
  function DaySums(sales: seq<SaleRow>, dayOf: Timestamp -> DayKey, w: SaleRow -> int, days: seq<DayKey>): int
  {
    if days == [] then 0 else Sum(OnDay(sales, dayOf, days[0]), w) + DaySums(sales, dayOf, w, days[1..])
  }

  /** Taking one more day `d` (not yet listed) out of the input adds exactly that day's sales. */
  lemma {:induction false} InDaysCons(sales: seq<SaleRow>, dayOf: Timestamp -> DayKey, w: SaleRow -> int,
                                      d: DayKey, days: seq<DayKey>)
    requires d !in days
    ensures Sum(InDays(sales, dayOf, [d] + days), w) == Sum(OnDay(sales, dayOf, d), w) + Sum(InDays(sales, dayOf, days), w)
  {
    if sales != [] {
      var prefix := sales[..|sales| - 1];
      var last := sales[|sales| - 1];
      InDaysCons(prefix, dayOf, w, d, days);
      var k := if DayOf(dayOf, last) in [d] + days then [last] else [];
      SumConcat(InDays(prefix, dayOf, [d] + days), k, w);
      SumConcat(OnDay(prefix, dayOf, d), if DayOf(dayOf, last) == d then [last] else [], w);
      SumConcat(InDays(prefix, dayOf, days), if DayOf(dayOf, last) in days then [last] else [], w);
    }
  }

  /** Day by day sums over distinct days add up to the sum over the sales of those days. */
  lemma {:induction false} DaySumsPartition(sales: seq<SaleRow>, dayOf: Timestamp -> DayKey, w: SaleRow -> int,
                                            days: seq<DayKey>)
    requires forall i, j :: 0 <= i < j < |days| ==> days[i] != days[j]
    ensures DaySums(sales, dayOf, w, days) == Sum(InDays(sales, dayOf, days), w)
  {
    if days == [] {
      InDaysNone(sales, dayOf);
    } else {
      assert days == [days[0]] + days[1..];
      DaySumsPartition(sales, dayOf, w, days[1..]);
      InDaysCons(sales, dayOf, w, days[0], days[1..]);
    }
  }

  lemma {:induction false} InDaysNone(sales: seq<SaleRow>, dayOf: Timestamp -> DayKey)
    ensures InDays(sales, dayOf, []) == []
  {
    if sales != [] {
      InDaysNone(sales[..|sales| - 1], dayOf);
    }
  }

  /** When every sale's day is listed, selecting by the listed days keeps the whole input. */
  lemma {:induction false} InDaysAll(sales: seq<SaleRow>, dayOf: Timestamp -> DayKey, days: seq<DayKey>)
    requires forall x :: x in sales ==> DayOf(dayOf, x) in days
    ensures InDays(sales, dayOf, days) == sales
  {
    if sales != [] {
      var prefix := sales[..|sales| - 1];
      assert sales == prefix + [sales[|sales| - 1]];
      InDaysAll(prefix, dayOf, days);
    }
  }

  /** The sum over the groups, in key order, of `w` over each group's sales equals the sum over all sales. */
  lemma GroupsPartitionSales(grouped: map<DayKey, DayGroup>, days: seq<DayKey>, sales: seq<SaleRow>,
                             dayOf: Timestamp -> DayKey, w: SaleRow -> int)
    requires IsGrouping(grouped, days, sales, dayOf)
    ensures DaySums(sales, dayOf, w, days) == Sum(sales, w)
  {
    FirstSeenDays(sales, dayOf);
    DaySumsPartition(sales, dayOf, w, days);
    InDaysAll(sales, dayOf, days);
  }

  /** The group totals, added up over the keys, in key order. */
  function GroupTotals(grouped: map<DayKey, DayGroup>, days: seq<DayKey>): Money
    requires forall d :: d in days ==> d in grouped
  {
    if days == [] then 0 else grouped[days[0]].total + GroupTotals(grouped, days[1..])
  }

  /** The per-day table adds up to the overall total shown under it. */
  lemma {:induction false} GroupTotalsMatchOverallTotal(grouped: map<DayKey, DayGroup>, days: seq<DayKey>,
                                                        sales: seq<SaleRow>, dayOf: Timestamp -> DayKey)
    requires IsGrouping(grouped, days, sales, dayOf)
    ensures GroupTotals(grouped, days) == TotalSalesByMonth(sales)
  {
    GroupsPartitionSales(grouped, days, sales, dayOf, RowTotal);
    TotalsAreDaySums(grouped, days, sales, dayOf);
  }

  lemma {:induction false} TotalsAreDaySums(grouped: map<DayKey, DayGroup>, days: seq<DayKey>,
                                            sales: seq<SaleRow>, dayOf: Timestamp -> DayKey)
    requires forall d :: d in days ==> d in grouped
    requires forall d :: d in grouped ==>
      grouped[d].sales == OnDay(sales, dayOf, d) && grouped[d].total == Sum(grouped[d].sales, RowTotal)
    ensures GroupTotals(grouped, days) == DaySums(sales, dayOf, RowTotal, days)
  {
    if days != [] {
      TotalsAreDaySums(grouped, days[1..], sales, dayOf);
    }
  }

  /** Counting one per sale: the groups hold as many sales as the input, so no sale is dropped or doubled. */
  lemma {:induction false} SumOfOnes(xs: seq<SaleRow>)
    ensures Sum(xs, One) == |xs|
  {
    if xs != [] {
      SumOfOnes(xs[..|xs| - 1]);
    }
  }

  lemma GroupSizesAddUp(grouped: map<DayKey, DayGroup>, days: seq<DayKey>, sales: seq<SaleRow>,
                        dayOf: Timestamp -> DayKey)
    requires IsGrouping(grouped, days, sales, dayOf)
    ensures DaySums(sales, dayOf, One, days) == |sales|
  {
    GroupsPartitionSales(grouped, days, sales, dayOf, One);
    SumOfOnes(sales);
  }

  /** No sales: no groups and an overall total of 0. */
  lemma EmptyHistory(grouped: map<DayKey, DayGroup>, days: seq<DayKey>, dayOf: Timestamp -> DayKey)
    requires IsGrouping(grouped, days, [], dayOf)
    ensures grouped == map[] && days == [] && TotalSalesByMonth([]) == 0
  {
  }
}
