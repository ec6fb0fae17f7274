/** Classifying targets and cutting their years into daily result queries
    (runtime/research/audit_racing_api_bulk_partition_readiness.py). */
module BulkPartitions {
  import opened Wrappers

  // ---------------------------------------------------------------- dates

  /** A date of the proleptic Gregorian calendar, as Python's `date` knows them. */
  datatype Date = Date(year: int, month: int, day: int)

  predicate Leap(year: int) {
    year % 4 == 0 && (year % 100 != 0 || year % 400 == 0)
  }

  function DaysIn(year: int, month: int): int {
    if month == 2 then (if Leap(year) then 29 else 28)
    else if month in {4, 6, 9, 11} then 30 else 31
  }

  /** How many of the first `n` years are leap years. */
  function LeapsUpTo(n: nat): nat {
    if n == 0 then 0 else LeapsUpTo(n - 1) + (if Leap(n) then 1 else 0)
  }

  /** Every fourth year, less every hundredth, plus every four hundredth. */
  lemma {:induction false} LeapsAre(n: nat)
    ensures LeapsUpTo(n) == n / 4 - n / 100 + n / 400
  {
    if n > 0 {
      LeapsAre(n - 1);
      NextMultiple(n, 4);
      NextMultiple(n, 100);
      NextMultiple(n, 400);
      assert n % 400 == 0 ==> n % 100 == 0 by { Divides(n, 4); }
      assert n % 100 == 0 ==> n % 4 == 0 by { Divides(n, 25); }
    }
  }

  lemma NextMultiple(n: nat, k: nat)
    requires n > 0 && k > 0
    ensures n / k == (n - 1) / k + (if n % k == 0 then 1 else 0)
  {
    var q, m := n / k, n % k;
    assert n == q * k + m;
    if m == 0 {
      assert n - 1 == (q - 1) * k + (k - 1);
      DivModUnique(n - 1, k, q - 1, k - 1);
    } else {
      DivModUnique(n - 1, k, q, m - 1);
    }
  }

  lemma DivModUnique(n: int, k: int, q: int, m: int)
    requires k > 0 && n == q * k + m && 0 <= m < k
    ensures n / k == q
  {
    var q', m' := n / k, n % k;
    assert n == q' * k + m' && 0 <= m' < k;
    assert (q - q') * k == m' - m;
    if q' < q { AtLeastOnce(q - q', k); }
    if q' > q { AtLeastOnce(q' - q, k); }
  }

  lemma AtLeastOnce(x: int, k: int)
    requires x >= 1 && k > 0
    ensures x * k >= k
  {}

  lemma Divides(n: nat, f: nat)
    ensures f == 4 && n % 400 == 0 ==> n % 100 == 0
    ensures f == 25 && n % 100 == 0 ==> n % 4 == 0
  {
    if n % 400 == 0 { assert n == 100 * (4 * (n / 400)); }
    if n % 100 == 0 { assert n == 4 * (25 * (n / 100)); }
  }

  const MonthLengths: seq<int> := [31, 28, 31, 30, 31, 30, 31, 31, 30, 31, 30, 31]

  /** The lengths of the months, with one more day in February of a leap year. */
  lemma DaysAre(year: int, month: int)
    requires 1 <= month <= 12
    ensures DaysIn(year, month) == MonthLengths[month - 1] + (if month == 2 && Leap(year) then 1 else 0)
  {}

  predicate IsDate(d: Date) {
    1 <= d.year <= 9999 && 1 <= d.month <= 12 && 1 <= d.day <= DaysIn(d.year, d.month)
  }

  predicate Before(a: Date, b: Date) {
    a.year < b.year || (a.year == b.year && (a.month < b.month || (a.month == b.month && a.day < b.day)))
  }

  predicate UpTo(a: Date, b: Date) {
    a == b || Before(a, b)
  }

  const LastDate := Date(9999, 12, 31)

  /** The following day; there is none after the last representable date. */
  function NextDay(d: Date): Option<Date> {
    if d.day < DaysIn(d.year, d.month) then Some(Date(d.year, d.month, d.day + 1))
    else if d.month < 12 then Some(Date(d.year, d.month + 1, 1))
    else if d.year < 9999 then Some(Date(d.year + 1, 1, 1))
    else None
  }

  /** A number that grows with the date. */
  function Rank(d: Date): int {
    d.year * 372 + d.month * 31 + d.day
  }

  lemma RankOrders(a: Date, b: Date)
    requires IsDate(a) && IsDate(b)
    ensures Before(a, b) <==> Rank(a) < Rank(b)
    ensures Rank(a) == Rank(b) <==> a == b
  {}

  /** There is no date between a day and the next one. */
  lemma NextDayIsNext(d: Date)
    requires IsDate(d)
    ensures NextDay(d).None? <==> d == LastDate
    ensures NextDay(d).Some? ==>
              && IsDate(NextDay(d).value) && Before(d, NextDay(d).value)
              && forall x | IsDate(x) :: Before(d, x) <==> UpTo(NextDay(d).value, x)
  {}

  // ---------------------------------------------------------------- the rolling window

  /** The same day one year earlier, 29 February becoming 28 February; there is none before year 1. */
  function Anniversary(asOf: Date): Option<Date> {
    if asOf.year == 1 then None
    else if asOf.day <= DaysIn(asOf.year - 1, asOf.month) then Some(asOf.(year := asOf.year - 1))
    else Some(Date(asOf.year - 1, asOf.month, 28))
  }

  /** `_bulk_query_earliest_date`; none stands for the error that is raised in year 1. */
  function EarliestDate(asOf: Date): Option<Date> {
    var anniversary := Anniversary(asOf);
    if anniversary.None? then None else NextDay(anniversary.value)
  }

  /** The earliest query date is the day after the prior-year anniversary, lies strictly inside the
      window, and never after the first of January of the current year. */
  lemma EarliestDateIsInWindow(asOf: Date)
    requires IsDate(asOf)
    ensures EarliestDate(asOf).Some? <==> asOf.year > 1
    ensures asOf.year > 1 ==>
              var a, e := Anniversary(asOf).value, EarliestDate(asOf).value;
              && IsDate(a) && a.year == asOf.year - 1 && a.month == asOf.month
              && a.day == (if asOf.month == 2 && asOf.day == 29 then 28 else asOf.day)
              && IsDate(e) && Before(a, e) && UpTo(e, Date(asOf.year, 1, 1)) && UpTo(e, asOf)
              && forall x | IsDate(x) :: Before(a, x) <==> UpTo(e, x)
  {
    if asOf.year > 1 {
      assert Leap(asOf.year) ==> !Leap(asOf.year - 1);
      NextDayIsNext(Anniversary(asOf).value);
    }
  }

  // ---------------------------------------------------------------- daily ranges

  /** Consecutive days from `start` to `end`. */
  ghost predicate Covers(ranges: seq<Date>, start: Date, end: Date) {
    && (forall i | 0 <= i < |ranges| :: IsDate(ranges[i]))
    && (forall i | 0 <= i < |ranges| - 1 :: NextDay(ranges[i]) == Some(ranges[i + 1]))
    && (forall i, j | 0 <= i < j < |ranges| :: Before(ranges[i], ranges[j]))
    && (forall x | IsDate(x) :: x in ranges <==> UpTo(start, x) && UpTo(x, end))
  }

  function Later(a: Date, b: Date): Date {
    if Before(a, b) then b else a
  }

  function RangeStart(year: int, earliest: Date): Date {
    Later(Date(year, 1, 1), earliest)
  }

  function RangeEnd(year: int, asOf: Date): Date {
    if year == asOf.year then asOf else Date(year, 12, 31)
  }

  /** What the day loop has collected when the cursor stands at `cursor`. */
  ghost predicate Collected(ranges: seq<Date>, start: Date, cursor: Date) {
    && (forall i | 0 <= i < |ranges| :: IsDate(ranges[i]))
    && (forall i | 0 <= i < |ranges| - 1 :: NextDay(ranges[i]) == Some(ranges[i + 1]))
    && (forall i, j | 0 <= i < j < |ranges| :: Before(ranges[i], ranges[j]))
    && (forall x | IsDate(x) :: x in ranges <==> UpTo(start, x) && Before(x, cursor))
    && (ranges == [] ==> cursor == start)
    && (ranges != [] ==> NextDay(ranges[|ranges| - 1]) == Some(cursor))
  }

  lemma CollectDay(ranges: seq<Date>, start: Date, cursor: Date)
    requires Collected(ranges, start, cursor) && IsDate(start) && IsDate(cursor) && UpTo(start, cursor)
    ensures NextDay(cursor).Some? ==> Collected(ranges + [cursor], start, NextDay(cursor).value)
  {
    hide NextDay, IsDate;
    NextDayIsNext(cursor);
    var all := ranges + [cursor];
    if NextDay(cursor).Some? {
      forall x | IsDate(x) ensures x in all <==> UpTo(start, x) && Before(x, NextDay(cursor).value) {
        assert x in all <==> x in ranges || x == cursor;
      }
      forall i, j | 0 <= i < j < |all| ensures Before(all[i], all[j]) {
        if j == |ranges| { assert ranges[i] in ranges; }
      }
    }
  }

  /** `_ranges_for_year`.  It fails for years outside the window, and also when the last day of the
      range is the last date that can be represented, because the cursor is moved past it. */
  method RangesForYear(year: int, asOf: Date, earliest: Date) returns (r: Result<seq<Date>, string>)
    requires IsDate(asOf) && IsDate(earliest)
    ensures r.Ok? <==>
              && 1 <= year <= asOf.year && UpTo(RangeStart(year, earliest), RangeEnd(year, asOf))
              && RangeEnd(year, asOf) != LastDate
    ensures r.Ok? ==> Covers(r.value, RangeStart(year, earliest), RangeEnd(year, asOf))
  {
    hide NextDay;
    if year > asOf.year { return Err("due target year is after as_of_date"); }
    if year < 1 { return Err("year is out of range"); }
    var start, end := RangeStart(year, earliest), RangeEnd(year, asOf);
    if Before(end, start) { return Err("as_of_date is before the target year"); }
    var ranges: seq<Date> := [];
    var cursor := start;
    NothingCollected(start);
    while UpTo(cursor, end)
      invariant IsDate(cursor) && UpTo(start, cursor) && Collected(ranges, start, cursor)
      invariant UpTo(cursor, end) || (end != LastDate && forall x | IsDate(x) :: Before(x, cursor) <==> UpTo(x, end))
      decreases Rank(end) - Rank(cursor)
    {
      RankOrders(cursor, end);
      NextDayIsNext(cursor);
      CollectDay(ranges, start, cursor);
      var next := NextDay(cursor);
      if next.None? { return Err("date value out of range"); }
      RankOrders(cursor, next.value);
      ranges, cursor := ranges + [cursor], next.value;
    }
    return Ok(ranges);
  }

  lemma NothingCollected(start: Date)
    ensures Collected([], start, start)
  {}

  // ---------------------------------------------------------------- targets

  /** A target with its coverage row; `agrees` says that both rows and the region are consistent. */
  datatype Target = Target(key: string, region: string, year: int, date: Option<Date>, notDue: bool, agrees: bool)

  datatype Route = NotDue | Historical | Bulk

  predicate TargetOk(t: Target, asOf: Date) {
    && t.year <= asOf.year && t.agrees
    && (t.date.Some? ==> IsDate(t.date.value) && t.date.value.year == t.year)
  }

  function RouteOf(t: Target, asOf: Date, earliest: Date): Route {
    if t.notDue then NotDue
    else if t.year == asOf.year
            || (t.date.Some? && UpTo(earliest, t.date.value) && UpTo(t.date.value, asOf))
    then Bulk
    else Historical
  }

  /** The targets of one route among the first `n`, in order. */
  function Routed(ts: seq<Target>, asOf: Date, earliest: Date, route: Route, n: nat): seq<Target>
    requires n <= |ts|
  {
    if n == 0 then []
    else Routed(ts, asOf, earliest, route, n - 1)
         + (if RouteOf(ts[n - 1], asOf, earliest) == route then [ts[n - 1]] else [])
  }

  lemma OneMore(q: seq<Target>, x: Target, t: Target)
    ensures multiset(q + [x])[t] == multiset(q)[t] + (if x == t then 1 else 0)
  {}

  lemma RoutedStep(ts: seq<Target>, asOf: Date, earliest: Date, route: Route, n: nat)
    requires n <= |ts|
    ensures n == 0 ==> Routed(ts, asOf, earliest, route, n) == []
    ensures n > 0 ==>
              Routed(ts, asOf, earliest, route, n)
              == if RouteOf(ts[n - 1], asOf, earliest) == route
                 then Routed(ts, asOf, earliest, route, n - 1) + [ts[n - 1]]
                 else Routed(ts, asOf, earliest, route, n - 1)
  {
    hide RouteOf;
  }

  lemma {:induction false} RouteCounts(ts: seq<Target>, asOf: Date, earliest: Date, route: Route, n: nat, t: Target)
    requires n <= |ts|
    ensures multiset(Routed(ts, asOf, earliest, route, n))[t]
            == if RouteOf(t, asOf, earliest) == route then multiset(ts[..n])[t] else 0
  {
    hide RouteOf, Routed;
    RoutedStep(ts, asOf, earliest, route, n);
    if n > 0 {
      RouteCounts(ts, asOf, earliest, route, n - 1, t);
      assert ts[..n] == ts[..n - 1] + [ts[n - 1]];
      OneMore(ts[..n - 1], ts[n - 1], t);
      OneMore(Routed(ts, asOf, earliest, route, n - 1), ts[n - 1], t);
    } else {
      assert ts[..n] == [];
    }
  }

  /** The three classes share out the targets: none is lost and none is in two. */
  lemma RoutesPartition(ts: seq<Target>, asOf: Date, earliest: Date)
    ensures multiset(Routed(ts, asOf, earliest, NotDue, |ts|)) + multiset(Routed(ts, asOf, earliest, Historical, |ts|))
            + multiset(Routed(ts, asOf, earliest, Bulk, |ts|)) == multiset(ts)
    ensures forall route, t | t in Routed(ts, asOf, earliest, route, |ts|) :: RouteOf(t, asOf, earliest) == route
  {
    hide RouteOf, Routed;
    assert ts[..|ts|] == ts;
    forall route, t
      ensures multiset(Routed(ts, asOf, earliest, route, |ts|))[t]
              == if RouteOf(t, asOf, earliest) == route then multiset(ts)[t] else 0
    {
      RouteCounts(ts, asOf, earliest, route, |ts|, t);
    }
    forall route, t | t in Routed(ts, asOf, earliest, route, |ts|) ensures RouteOf(t, asOf, earliest) == route {
      assert t in multiset(Routed(ts, asOf, earliest, route, |ts|));
    }
  }

  type Group = (string, int)

  ghost function Groups(bulk: seq<Target>): set<Group> {
    set t | t in bulk :: (t.region, t.year)
  }

  datatype Readiness = Readiness(
    notDue: seq<Target>, historical: seq<Target>, bulk: seq<Target>, partitions: map<Group, seq<Date>>)

  /** What an accepted audit reports. */
  ghost predicate Reports(r: Readiness, ts: seq<Target>, asOf: Date, earliest: Date) {
    && r.notDue == Routed(ts, asOf, earliest, NotDue, |ts|)
    && r.historical == Routed(ts, asOf, earliest, Historical, |ts|)
    && r.bulk == Routed(ts, asOf, earliest, Bulk, |ts|)
    && r.partitions.Keys == Groups(r.bulk)
    && forall g | g in r.partitions ::
         Covers(r.partitions[g], RangeStart(g.1, earliest), RangeEnd(g.1, asOf))
  }

  /** The year of a bulk target always has days to query, and only the very last representable date
      makes their enumeration fail. */
  lemma BulkYearHasDays(t: Target, asOf: Date, earliest: Date)
    requires IsDate(asOf) && EarliestDate(asOf) == Some(earliest)
    requires TargetOk(t, asOf) && RouteOf(t, asOf, earliest) == Bulk
    ensures UpTo(RangeStart(t.year, earliest), RangeEnd(t.year, asOf))
    ensures RangeEnd(t.year, asOf) == LastDate <==> asOf == LastDate && t.year == 9999
    ensures t.date.Some? && UpTo(t.date.value, asOf) ==>
              UpTo(RangeStart(t.year, earliest), t.date.value) && UpTo(t.date.value, RangeEnd(t.year, asOf))
  {
    EarliestDateIsInWindow(asOf);
    hide NextDay, Anniversary, EarliestDate, Leap;
  }

  /** The classification loop. */
  method Classify(ts: seq<Target>, asOf: Date, earliest: Date) returns (r: Result<Readiness, string>)
    ensures r.Ok? <==> forall i | 0 <= i < |ts| :: TargetOk(ts[i], asOf)
    ensures r.Ok? ==>
              && r.value.notDue == Routed(ts, asOf, earliest, NotDue, |ts|)
              && r.value.historical == Routed(ts, asOf, earliest, Historical, |ts|)
              && r.value.bulk == Routed(ts, asOf, earliest, Bulk, |ts|)
  {
    hide TargetOk, RouteOf;
    var notDue, historical, bulk: seq<Target> := [], [], [];
    for n := 0 to |ts|
      invariant forall i | 0 <= i < n :: TargetOk(ts[i], asOf)
      invariant notDue == Routed(ts, asOf, earliest, NotDue, n)
      invariant historical == Routed(ts, asOf, earliest, Historical, n)
      invariant bulk == Routed(ts, asOf, earliest, Bulk, n)
    {
      if !TargetOk(ts[n], asOf) { return Err("target classification fields disagree"); }
      match RouteOf(ts[n], asOf, earliest)
      case NotDue => notDue := notDue + [ts[n]];
      case Historical => historical := historical + [ts[n]];
      case Bulk => bulk := bulk + [ts[n]];
    }
    return Ok(Readiness(notDue, historical, bulk, map[]));
  }

  /** The loop over the groups of bulk targets. */
  method Partition(bulk: seq<Target>, asOf: Date, earliest: Date) returns (r: Result<map<Group, seq<Date>>, string>)
    requires IsDate(asOf) && EarliestDate(asOf) == Some(earliest)
    requires forall t | t in bulk :: TargetOk(t, asOf) && RouteOf(t, asOf, earliest) == Bulk
    ensures r.Ok? <==> !(asOf == LastDate && exists t :: t in bulk && t.year == 9999)
    ensures r.Ok? ==>
              && r.value.Keys == Groups(bulk)
              && forall g | g in r.value :: Covers(r.value[g], RangeStart(g.1, earliest), RangeEnd(g.1, asOf))
  {
    hide TargetOk, RouteOf, EarliestDate, Covers, RangeStart, RangeEnd, UpTo, IsDate;
    var partitions: map<Group, seq<Date>> := map[];
    for n := 0 to |bulk|
      invariant partitions.Keys == set i | 0 <= i < n :: (bulk[i].region, bulk[i].year)
      invariant asOf == LastDate ==> forall i | 0 <= i < n :: bulk[i].year != 9999
      invariant forall g | g in partitions :: Covers(partitions[g], RangeStart(g.1, earliest), RangeEnd(g.1, asOf))
    {
      var t := bulk[n];
      assert t in bulk;
      BulkYearHasDays(t, asOf, earliest);
      YearIsDue(t, asOf, earliest);
      var ranges := RangesForYear(t.year, asOf, earliest);
      if ranges.Err? { return Err(ranges.error); }
      partitions := partitions[(t.region, t.year) := ranges.value];
    }
    return Ok(partitions);
  }

  lemma YearIsDue(t: Target, asOf: Date, earliest: Date)
    requires IsDate(asOf) && EarliestDate(asOf) == Some(earliest) && TargetOk(t, asOf)
    requires RouteOf(t, asOf, earliest) == Bulk
    ensures 1 <= t.year <= asOf.year && IsDate(earliest)
  {
    EarliestDateIsInWindow(asOf);
  }

  /** `build_readiness`: it fails only for inconsistent targets, in year 1, and on the last
      representable date when a target of that year has to be queried. */
  method BuildReadiness(ts: seq<Target>, asOf: Date) returns (r: Result<Readiness, string>)
    requires IsDate(asOf)
    ensures r.Ok? <==>
              && asOf.year > 1 && (forall i | 0 <= i < |ts| :: TargetOk(ts[i], asOf))
              && !(asOf == LastDate && exists i :: 0 <= i < |ts| && ts[i].year == 9999 && !ts[i].notDue)
    ensures r.Ok? ==> EarliestDate(asOf).Some? && Reports(r.value, ts, asOf, EarliestDate(asOf).value)
    ensures r.Ok? ==> Queries(r.value, ts, asOf, EarliestDate(asOf).value)
    ensures r.Ok? <==>
              && asOf.year > 1
              && (forall t | t in ts ::
                    && t.year <= asOf.year && t.agrees
                    && (t.date.Some? ==> IsDate(t.date.value) && t.date.value.year == t.year))
              && !(asOf == Date(9999, 12, 31) && exists t :: t in ts && t.year == 9999 && !t.notDue)
  {
    hide TargetOk, EarliestDate, Covers, IsDate, Queries, Reports;
    EarliestDateIsInWindow(asOf);
    TargetsOk(ts, asOf);
    var earliest := EarliestDate(asOf);
    if earliest.None? { return Err("year is out of range"); }
    var classified := Classify(ts, asOf, earliest.value);
    if classified.Err? { return Err(classified.error); }
    var bulk := classified.value.bulk;
    RoutesPartition(ts, asOf, earliest.value);
    BulkMembers(ts, asOf, earliest.value, |ts|);
    var partitions := Partition(bulk, asOf, earliest.value);
    if partitions.Err? { return Err(partitions.error); }
    var readiness := classified.value.(partitions := partitions.value);
    assert Reports(readiness, ts, asOf, earliest.value) by { IsReported(readiness, ts, asOf, earliest.value); }
    ReportedQueries(readiness, ts, asOf);
    return Ok(readiness);
  }

  lemma {:induction false} RoutedMembers(ts: seq<Target>, asOf: Date, earliest: Date, route: Route, n: nat, t: Target)
    requires n <= |ts|
    ensures t in Routed(ts, asOf, earliest, route, n) <==>
              RouteOf(t, asOf, earliest) == route && exists i :: 0 <= i < n && ts[i] == t
  {
    hide RouteOf;
    if n > 0 { RoutedMembers(ts, asOf, earliest, route, n - 1, t); }
  }

  /** Where every target ends up, and which days are queried: those of the window from the day after
      last year's anniversary up to the as-of date, year by year. */
  ghost predicate Queries(r: Readiness, ts: seq<Target>, asOf: Date, earliest: Date) {
    && (forall t | t in ts ::
          && (t in r.notDue <==> t.notDue)
          && (t in r.bulk <==>
                !t.notDue && (t.year == asOf.year
                              || (t.date.Some? && UpTo(earliest, t.date.value) && UpTo(t.date.value, asOf))))
          && (t in r.historical <==>
                !t.notDue && t.year != asOf.year
                && (t.date.None? || Before(t.date.value, earliest) || Before(asOf, t.date.value))))
    && (forall g :: g in r.partitions <==> exists t :: t in r.bulk && g == (t.region, t.year))
    && (forall g, x | g in r.partitions && IsDate(x) ::
          x in r.partitions[g] <==> x.year == g.1 && UpTo(earliest, x) && UpTo(x, asOf))
  }

  lemma DatesCompare(a: Date, b: Date)
    ensures !UpTo(a, b) <==> Before(b, a)
  {}

  lemma RouteMeans(t: Target, asOf: Date, earliest: Date)
    ensures RouteOf(t, asOf, earliest) == NotDue <==> t.notDue
    ensures RouteOf(t, asOf, earliest) == Bulk <==>
              !t.notDue && (t.year == asOf.year
                            || (t.date.Some? && UpTo(earliest, t.date.value) && UpTo(t.date.value, asOf)))
    ensures RouteOf(t, asOf, earliest) == Historical <==>
              !t.notDue && t.year != asOf.year
              && (t.date.None? || Before(t.date.value, earliest) || Before(asOf, t.date.value))
  {
    hide UpTo, Before;
    if t.date.Some? {
      DatesCompare(earliest, t.date.value);
      DatesCompare(t.date.value, asOf);
    }
  }

  /** The days of one partition. */
  lemma PartitionDays(days: seq<Date>, year: int, asOf: Date, earliest: Date, x: Date)
    requires IsDate(asOf) && IsDate(earliest) && IsDate(x) && year <= asOf.year
    requires Covers(days, RangeStart(year, earliest), RangeEnd(year, asOf))
    ensures x in days <==> x.year == year && UpTo(earliest, x) && UpTo(x, asOf)
  {
    hide Covers;
    assert x in days <==> UpTo(RangeStart(year, earliest), x) && UpTo(x, RangeEnd(year, asOf)) by {
      DaysOf(days, RangeStart(year, earliest), RangeEnd(year, asOf), x);
    }
  }

  lemma DaysOf(days: seq<Date>, start: Date, end: Date, x: Date)
    requires Covers(days, start, end) && IsDate(x)
    ensures x in days <==> UpTo(start, x) && UpTo(x, end)
  {}

  lemma ReportedQueries(r: Readiness, ts: seq<Target>, asOf: Date)
    requires IsDate(asOf) && EarliestDate(asOf).Some? && Reports(r, ts, asOf, EarliestDate(asOf).value)
    requires forall t | t in ts :: t.year <= asOf.year
    ensures Queries(r, ts, asOf, EarliestDate(asOf).value)
  {
    var earliest := EarliestDate(asOf).value;
    EarliestDateIsInWindow(asOf);
    hide EarliestDate, IsDate, RouteOf, Routed, Covers, UpTo, Before;
    forall t, route ensures t in Routed(ts, asOf, earliest, route, |ts|) <==>
                      RouteOf(t, asOf, earliest) == route && t in ts {
      RoutedMembers(ts, asOf, earliest, route, |ts|, t);
    }
    forall t ensures t in ts ==>
                && (t in r.notDue <==> RouteOf(t, asOf, earliest) == NotDue)
                && (t in r.bulk <==> RouteOf(t, asOf, earliest) == Bulk)
                && (t in r.historical <==> RouteOf(t, asOf, earliest) == Historical) {
    }
    forall t | t in ts
      ensures t in r.notDue <==> t.notDue
      ensures t in r.bulk <==>
                !t.notDue && (t.year == asOf.year
                              || (t.date.Some? && UpTo(earliest, t.date.value) && UpTo(t.date.value, asOf)))
      ensures t in r.historical <==>
                !t.notDue && t.year != asOf.year
                && (t.date.None? || Before(t.date.value, earliest) || Before(asOf, t.date.value))
    {
      RouteMeans(t, asOf, earliest);
    }
    forall g, x | g in r.partitions && IsDate(x)
      ensures x in r.partitions[g] <==> x.year == g.1 && UpTo(earliest, x) && UpTo(x, asOf)
    {
      var t :| t in r.bulk && g == (t.region, t.year);
      PartitionDays(r.partitions[g], g.1, asOf, earliest, x);
    }
  }

  lemma TargetsOk(ts: seq<Target>, asOf: Date)
    ensures (forall i | 0 <= i < |ts| :: TargetOk(ts[i], asOf)) <==>
              forall t | t in ts ::
                && t.year <= asOf.year && t.agrees
                && (t.date.Some? ==> IsDate(t.date.value) && t.date.value.year == t.year)
    ensures (exists i :: 0 <= i < |ts| && ts[i].year == 9999 && !ts[i].notDue) <==>
              exists t :: t in ts && t.year == 9999 && !t.notDue
  {
    hide IsDate;
    assert forall i | 0 <= i < |ts| :: ts[i] in ts;
  }

  lemma IsReported(r: Readiness, ts: seq<Target>, asOf: Date, earliest: Date)
    requires r.notDue == Routed(ts, asOf, earliest, NotDue, |ts|)
    requires r.historical == Routed(ts, asOf, earliest, Historical, |ts|)
    requires r.bulk == Routed(ts, asOf, earliest, Bulk, |ts|)
    requires r.partitions.Keys == Groups(r.bulk)
    requires forall g | g in r.partitions ::
               Covers(r.partitions[g], RangeStart(g.1, earliest), RangeEnd(g.1, asOf))
    ensures Reports(r, ts, asOf, earliest)
  {
    hide Covers, RangeStart, RangeEnd;
  }

  lemma {:induction false} BulkMembers(ts: seq<Target>, asOf: Date, earliest: Date, n: nat)
    requires n <= |ts|
    ensures forall t :: t in Routed(ts, asOf, earliest, Bulk, n) <==>
              exists i :: 0 <= i < n && ts[i] == t && RouteOf(t, asOf, earliest) == Bulk
  {
    hide RouteOf;
    if n > 0 { BulkMembers(ts, asOf, earliest, n - 1); }
  }

  lemma AscendingOnce(ranges: seq<Date>, start: Date, end: Date, i: nat, j: nat)
    requires Covers(ranges, start, end) && i < |ranges| && j < |ranges| && ranges[i] == ranges[j]
    ensures i == j
  {
    assert i < j ==> Before(ranges[i], ranges[j]);
    assert j < i ==> Before(ranges[j], ranges[i]);
  }

  /** Every bulk target that has already run on a known day is queried by exactly one daily range of
      its region and year, and by no range of another year. */
  lemma EachBulkDayIsQueriedOnce(r: Readiness, ts: seq<Target>, asOf: Date, t: Target)
    requires IsDate(asOf) && EarliestDate(asOf).Some? && Reports(r, ts, asOf, EarliestDate(asOf).value)
    requires t in r.bulk && TargetOk(t, asOf) && t.date.Some? && UpTo(t.date.value, asOf)
    ensures (t.region, t.year) in r.partitions
    ensures exists i: nat ::
              && i < |r.partitions[(t.region, t.year)]| && r.partitions[(t.region, t.year)][i] == t.date.value
              && forall g, j: nat | g in r.partitions && g.0 == t.region && j < |r.partitions[g]|
                                    && r.partitions[g][j] == t.date.value :: g == (t.region, t.year) && j == i
  {
    var earliest, day := EarliestDate(asOf).value, t.date.value;
    RoutesPartition(ts, asOf, earliest);
    BulkYearHasDays(t, asOf, earliest);
    hide EarliestDate, IsDate, RouteOf;
    var own := r.partitions[(t.region, t.year)];
    assert IsDate(day) && day in own by { DayIsDate(t, asOf); }
    var i: nat :| i < |own| && own[i] == day;
    forall g, j: nat | g in r.partitions && g.0 == t.region && j < |r.partitions[g]| && r.partitions[g][j] == day
      ensures g == (t.region, t.year) && j == i
    {
      assert day in r.partitions[g];
      assert day.year == g.1 == t.year by { DayYear(r.partitions[g], g.1, asOf, earliest, day); DayIsDate(t, asOf); }
      AscendingOnce(own, RangeStart(t.year, earliest), RangeEnd(t.year, asOf), j, i);
    }
  }

  lemma DayIsDate(t: Target, asOf: Date)
    requires TargetOk(t, asOf) && t.date.Some?
    ensures IsDate(t.date.value) && t.date.value.year == t.year
  {}

  /** The days of a partition lie in its year. */
  lemma DayYear(ranges: seq<Date>, year: int, asOf: Date, earliest: Date, day: Date)
    requires Covers(ranges, RangeStart(year, earliest), RangeEnd(year, asOf)) && day in ranges && IsDate(day)
    ensures day.year == year
  {}
}
