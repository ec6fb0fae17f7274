/** Rewriting the results of one historical event in place (scripts/backfill_reviewed_race_gaps.py).

    The table holds the result rows of the event; the database refuses two rows with the same
    finish position at every single statement. */
module ReviewedBackfill {
  import opened Wrappers

  /** A result row: its position and everything else that the entry fixes. */
  datatype Row = Row(position: int, fields: string)

  /** A row of the reviewed entry; `id` names the existing row that it replaces. */
  datatype EntryRow = EntryRow(id: Option<nat>, position: int, fields: string, rank: Option<int>)

  const MaxRows: nat := 60
  const MaxPosition: int := 32767

  // ---------------------------------------------------------------- competition ranks

  function Count(q: seq<int>, x: int): nat {
    if q == [] then 0 else Count(q[1..], x) + (if q[0] == x then 1 else 0)
  }

  function Smaller(q: seq<int>, x: int): nat {
    if q == [] then 0 else Smaller(q[1..], x) + (if q[0] < x then 1 else 0)
  }

  predicate NonDecreasing(q: seq<int>) {
    forall i, j | 0 <= i < j < |q| :: q[i] <= q[j]
  }

  /** A standard competition ranking: every rank is one more than the number of better ones. */
  ghost predicate IsCompetitionRanking(q: seq<int>) {
    forall x | x in q :: x == 1 + Smaller(q, x)
  }

  /** Between neighbouring ranks there is nothing to count. */
  lemma {:induction false} SmallerSteps(q: seq<int>, x: int, y: int)
    requires x < y && forall z | z in q :: z <= x || z >= y
    ensures Smaller(q, y) == Smaller(q, x) + Count(q, x)
  {
    if q != [] {
      assert q[0] in q && forall z | z in q[1..] :: z in q;
      SmallerSteps(q[1..], x, y);
    }
  }

  lemma {:induction false} NothingSmaller(q: seq<int>, x: int)
    requires forall z | z in q :: z >= x
    ensures Smaller(q, x) == 0
  {
    if q != [] {
      assert q[0] in q && forall z | z in q[1..] :: z in q;
      NothingSmaller(q[1..], x);
    }
  }

  /** `sorted(set(q))` for a list that is in order already. */
  method DistinctRanks(q: seq<int>) returns (d: seq<int>)
    requires NonDecreasing(q)
    ensures forall i, j | 0 <= i < j < |d| :: d[i] < d[j]
    ensures forall x :: x in d <==> x in q
  {
    d := [];
    for n := 0 to |q|
      invariant forall i, j | 0 <= i < j < |d| :: d[i] < d[j]
      invariant forall x :: x in d <==> x in q[..n]
      invariant if n == 0 then d == [] else d != [] && d[|d| - 1] == q[n - 1]
    {
      assert q[..n + 1] == q[..n] + [q[n]];
      if d == [] || d[|d| - 1] != q[n] { d := d + [q[n]]; }
    }
    assert q[..|q|] == q;
  }

  /** The ranks are refused unless they start at 1, are in order and count every tie. */
  method CheckRanks(ranked: seq<int>) returns (ok: bool)
    ensures ok <==> ranked != [] && NonDecreasing(ranked) && IsCompetitionRanking(ranked)
  {
    if ranked == [] { return false; }
    assert ranked[0] in ranked;
    if NonDecreasing(ranked) { NothingSmaller(ranked, ranked[0]); }
    if ranked[0] != 1 || !NonDecreasing(ranked) { return false; }
    var distinct := DistinctRanks(ranked);
    var offset := 0;
    forall z | z in ranked ensures z >= distinct[0] {
      var j :| 0 <= j < |distinct| && distinct[j] == z;
    }
    NothingSmaller(ranked, distinct[0]);
    for k := 0 to |distinct|
      invariant k < |distinct| ==> offset == Smaller(ranked, distinct[k])
      invariant forall j | 0 <= j < k :: distinct[j] == 1 + Smaller(ranked, distinct[j])
    {
      assert distinct[k] in ranked;
      if distinct[k] != offset + 1 { return false; }
      if k + 1 < |distinct| {
        forall z | z in ranked ensures z <= distinct[k] || z >= distinct[k + 1] {
          var j :| 0 <= j < |distinct| && distinct[j] == z;
        }
        SmallerSteps(ranked, distinct[k], distinct[k + 1]);
      }
      offset := offset + Count(ranked, distinct[k]);
    }
    return true;
  }

  function RanksUpTo(entry: seq<EntryRow>, n: nat): seq<int>
    requires n <= |entry|
  {
    if n == 0 then []
    else RanksUpTo(entry, n - 1) + (if entry[n - 1].rank.Some? then [entry[n - 1].rank.value] else [])
  }

  // ---------------------------------------------------------------- the entry

  /** The old rows that the first `n` entry rows replace. */
  function OldIdsUpTo(entry: seq<EntryRow>, n: nat): set<nat>
    requires n <= |entry|
  {
    set i | 0 <= i < n && entry[i].id.Some? :: entry[i].id.value
  }

  /** What `validate_entry` makes sure of: bounded, numbered in order, every old row replaced once,
      and the reported ranks a competition ranking. */
  ghost predicate Validated(entry: seq<EntryRow>, before: map<nat, Row>) {
    && 0 < |entry| <= MaxRows
    && (forall i | 0 <= i < |entry| :: entry[i].position == i + 1)
    && (forall i, j | 0 <= i < j < |entry| && entry[i].id.Some? :: entry[i].id != entry[j].id)
    && OldIdsUpTo(entry, |entry|) == before.Keys
    && RanksUpTo(entry, |entry|) != [] && NonDecreasing(RanksUpTo(entry, |entry|))
    && IsCompetitionRanking(RanksUpTo(entry, |entry|))
  }

  /** How many rows among the first `n` have a better rank than `x`. */
  function BetterThan(entry: seq<EntryRow>, n: nat, x: int): nat
    requires n <= |entry|
  {
    |set i | 0 <= i < n && entry[i].rank.Some? && entry[i].rank.value < x|
  }

  /** The ranks in terms of the rows: there are some, they follow the positions, and each is one more
      than the number of rows with a better rank. */
  ghost predicate RanksCount(entry: seq<EntryRow>) {
    && (exists i :: 0 <= i < |entry| && entry[i].rank.Some?)
    && (forall i, j | 0 <= i < j < |entry| && entry[i].rank.Some? && entry[j].rank.Some? ::
          entry[i].rank.value <= entry[j].rank.value)
    && (forall i | 0 <= i < |entry| && entry[i].rank.Some? ::
          entry[i].rank.value == 1 + BetterThan(entry, |entry|, entry[i].rank.value))
  }

  lemma {:induction false} SmallerSnoc(q: seq<int>, y: int, x: int)
    ensures Smaller(q + [y], x) == Smaller(q, x) + (if y < x then 1 else 0)
  {
    if q == [] {
      assert q + [y] == [y];
    } else {
      assert (q + [y])[1..] == q[1..] + [y];
      SmallerSnoc(q[1..], y, x);
    }
  }

  lemma BetterSnoc(entry: seq<EntryRow>, n: nat, x: int)
    requires 0 < n <= |entry|
    ensures BetterThan(entry, 0, x) == 0
    ensures BetterThan(entry, n, x)
            == BetterThan(entry, n - 1, x) + (if entry[n - 1].rank.Some? && entry[n - 1].rank.value < x then 1 else 0)
  {
    var before := set i | 0 <= i < n - 1 && entry[i].rank.Some? && entry[i].rank.value < x;
    var after := set i | 0 <= i < n && entry[i].rank.Some? && entry[i].rank.value < x;
    if entry[n - 1].rank.Some? && entry[n - 1].rank.value < x {
      assert after == before + {n - 1};
    } else {
      assert after == before;
    }
  }

  lemma {:induction false} SmallerCounts(entry: seq<EntryRow>, n: nat, x: int)
    requires n <= |entry|
    ensures Smaller(RanksUpTo(entry, n), x) == BetterThan(entry, n, x)
  {
    if n > 0 {
      SmallerCounts(entry, n - 1, x);
      BetterSnoc(entry, n, x);
      hide BetterThan;
      var front, rank := RanksUpTo(entry, n - 1), entry[n - 1].rank;
      if rank.Some? { SmallerSnoc(front, rank.value, x); }
      assert front + [] == front;
    }
  }

  /** Where the ranks of the first `n` rows stand in the list. */
  lemma {:induction false} RankMembers(entry: seq<EntryRow>, n: nat)
    requires n <= |entry|
    ensures forall x :: x in RanksUpTo(entry, n) <==>
              exists i :: 0 <= i < n && entry[i].rank.Some? && entry[i].rank.value == x
    ensures forall i | 0 <= i < n && entry[i].rank.Some? :: entry[i].rank.value in RanksUpTo(entry, n)
  {
    if n > 0 { RankMembers(entry, n - 1); }
  }

  lemma {:induction false} RanksInOrder(entry: seq<EntryRow>, n: nat)
    requires n <= |entry|
    ensures NonDecreasing(RanksUpTo(entry, n)) <==>
              forall i, j | 0 <= i < j < n && entry[i].rank.Some? && entry[j].rank.Some? ::
                entry[i].rank.value <= entry[j].rank.value
  {
    if n > 0 {
      RanksInOrder(entry, n - 1);
      RankMembers(entry, n - 1);
      var front, rank := RanksUpTo(entry, n - 1), entry[n - 1].rank;
      if rank.Some? {
        OrderSnoc(front, rank.value);
        assert (forall x | x in front :: x <= rank.value) <==>
                 forall i | 0 <= i < n - 1 && entry[i].rank.Some? :: entry[i].rank.value <= rank.value;
      }
      assert front + [] == front;
      hide RanksUpTo, NonDecreasing;
    }
  }

  lemma OrderSnoc(q: seq<int>, y: int)
    ensures NonDecreasing(q + [y]) <==> NonDecreasing(q) && forall x | x in q :: x <= y
  {
    var all := q + [y];
    assert forall i | 0 <= i < |q| :: all[i] == q[i];
    assert all[|q|] == y;
    if NonDecreasing(all) {
      forall i, j | 0 <= i < j < |q| ensures q[i] <= q[j] {
        assert all[i] <= all[j];
      }
      forall x | x in q ensures x <= y {
        var i :| 0 <= i < |q| && q[i] == x;
        assert all[i] <= all[|q|];
      }
    }
    if NonDecreasing(q) && forall x | x in q :: x <= y {
      forall i, j | 0 <= i < j < |all| ensures all[i] <= all[j] {
        assert all[i] == q[i] && q[i] in q;
        if j < |q| { assert q[i] <= q[j]; }
      }
    }
  }

  lemma RanksMean(entry: seq<EntryRow>)
    ensures RanksCount(entry) <==>
              && RanksUpTo(entry, |entry|) != [] && NonDecreasing(RanksUpTo(entry, |entry|))
              && IsCompetitionRanking(RanksUpTo(entry, |entry|))
  {
    var q := RanksUpTo(entry, |entry|);
    hide RanksUpTo, BetterThan, Smaller, NonDecreasing;
    RankMembers(entry, |entry|);
    RanksInOrder(entry, |entry|);
    NonEmpty(q);
    forall x | x in q ensures Smaller(q, x) == BetterThan(entry, |entry|, x) {
      SmallerCounts(entry, |entry|, x);
    }
  }

  lemma NonEmpty(q: seq<int>)
    ensures q != [] <==> exists x :: x in q
  {
    if q != [] {
      var x := q[0];
      assert x in q;
    }
  }

  lemma EntryMeans(entry: seq<EntryRow>, before: map<nat, Row>)
    ensures Validated(entry, before) <==>
              && 1 <= |entry| <= 60 && (forall i | 0 <= i < |entry| :: entry[i].position == i + 1)
              && (forall i, j | 0 <= i < j < |entry| && entry[i].id.Some? && entry[j].id.Some? ::
                    entry[i].id.value != entry[j].id.value)
              && (forall id :: id in before <==> exists i :: 0 <= i < |entry| && entry[i].id == Some(id))
              && RanksCount(entry)
  {
    RanksMean(entry);
    hide RanksCount, RanksUpTo, NonDecreasing, IsCompetitionRanking;
    assert (forall id :: id in before <==> exists i :: 0 <= i < |entry| && entry[i].id == Some(id))
      <==> OldIdsUpTo(entry, |entry|) == before.Keys;
  }

  method ValidateEntry(entry: seq<EntryRow>, before: map<nat, Row>) returns (ok: bool)
    ensures ok <==> Validated(entry, before)
    ensures ok <==>
              && 1 <= |entry| <= 60 && (forall i | 0 <= i < |entry| :: entry[i].position == i + 1)
              && (forall i, j | 0 <= i < j < |entry| && entry[i].id.Some? && entry[j].id.Some? ::
                    entry[i].id.value != entry[j].id.value)
              && (forall id :: id in before <==> exists i :: 0 <= i < |entry| && entry[i].id == Some(id))
              && RanksCount(entry)
  {
    EntryMeans(entry, before);
    hide RanksCount;
    if !(0 < |entry| <= MaxRows) { return false; }
    var old_ids: set<nat> := {};
    for n := 0 to |entry|
      invariant forall i | 0 <= i < n :: entry[i].position == i + 1
      invariant forall i, j | 0 <= i < j < n && entry[i].id.Some? :: entry[i].id != entry[j].id
      invariant old_ids == OldIdsUpTo(entry, n)
    {
      if entry[n].position != n + 1 { return false; }
      if entry[n].id.Some? {
        if entry[n].id.value in old_ids { return false; }
        old_ids := old_ids + {entry[n].id.value};
      }
    }
    if old_ids != before.Keys { return false; }
    ok := CheckRanks(RanksUpTo(entry, |entry|));
  }

  // ---------------------------------------------------------------- the table

  datatype Outcome = Applied | AlreadyApplied | DryRun | Blocked(reason: string)

  ghost predicate UniquePositions(rows: map<nat, Row>) {
    forall a, b | a in rows && b in rows && a != b :: rows[a].position != rows[b].position
  }

  /** A listing of all rows, each once. */
  ghost predicate Lists(order: seq<nat>, rows: map<nat, Row>) {
    && (forall i, j | 0 <= i < j < |order| :: order[i] != order[j])
    && (forall id :: id in order <==> id in rows)
  }

  /** The rows that the first `n` entry rows describe, in their places, and nothing else below. */
  ghost predicate PlacedUpTo(rows: map<nat, Row>, entry: seq<EntryRow>, ids: seq<nat>, n: nat)
  {
    && n <= |ids| && n <= |entry|
    && (forall i | 0 <= i < n ::
          && ids[i] in rows && rows[ids[i]] == Row(i + 1, entry[i].fields)
          && (entry[i].id.Some? ==> ids[i] == entry[i].id.value))
    && (forall i, j | 0 <= i < j < n :: ids[i] != ids[j])
  }

  /** The table holds exactly the rows of the entry. */
  ghost predicate Holds(rows: map<nat, Row>, entry: seq<EntryRow>) {
    exists ids: seq<nat> :: |ids| == |entry| && PlacedUpTo(rows, entry, ids, |entry|)
                            && forall id :: id in rows <==> id in ids
  }

  class ResultTable {
    var rows: map<nat, Row>
    var nextId: nat
    /** Manifest digests that were applied, with the rows that they left. */
    var audit: map<string, map<nat, Row>>

    ghost predicate Valid()
      reads this
    {
      && UniquePositions(rows)
      && forall id | id in rows :: id < nextId && 0 <= rows[id].position <= MaxPosition
    }

    /** One UPDATE or INSERT; the database checks its constraints at once. */
    method SetRow(id: nat, row: Row) returns (ok: bool)
      requires Valid() && id < nextId
      modifies `rows
      ensures Valid()
      ensures ok <==>
                && 0 <= row.position <= MaxPosition
                && forall other | other in old(rows) && other != id :: old(rows)[other].position != row.position
      ensures rows == if ok then old(rows)[id := row] else old(rows)
    {
      ok := 0 <= row.position <= MaxPosition
            && forall other | other in rows.Keys && other != id :: rows[other].position != row.position;
      if ok { rows := rows[id := row]; }
    }

    /** Move every row out of the way; no statement ever collides. */
    method Park(order: seq<nat>, start: int) returns (ok: bool)
      requires Valid() && Lists(order, rows) && start > MaxRows
      requires forall id | id in rows :: rows[id].position < start
      requires start + |order| <= MaxPosition + 1
      modifies `rows
      ensures ok && Valid() && rows.Keys == old(rows).Keys
      ensures forall id | id in rows :: start <= rows[id].position < start + |order|
    {
      for n := 0 to |order|
        invariant Valid() && rows.Keys == old(rows).Keys
        invariant forall i | 0 <= i < n :: rows[order[i]].position == start + i
        invariant forall i | n <= i < |order| :: rows[order[i]].position < start
      {
        assert order[n] in order;
        forall other | other in rows && other != order[n] ensures rows[other].position != start + n {
          var i :| 0 <= i < |order| && order[i] == other;
        }
        ok := SetRow(order[n], Row(start + n, rows[order[n]].fields));
      }
      forall id | id in rows ensures start <= rows[id].position < start + |order| {
        var i :| 0 <= i < |order| && order[i] == id;
      }
      ok := true;
    }

    /** What the place loop keeps: the first `n` entry rows stand in their places, every other row
        is an old one that is still parked. */
    ghost predicate Placing(entry: seq<EntryRow>, before: map<nat, Row>, first: nat, ids: seq<nat>)
      reads this
    {
      && Valid() && |ids| <= |entry| && first <= nextId
      && PlacedUpTo(rows, entry, ids, |ids|)
      && before.Keys <= rows.Keys && (forall id | id in before :: id < first)
      && (forall id | id in rows && id !in ids :: id in before && rows[id].position > MaxRows)
      && (forall i | 0 <= i < |ids| && entry[i].id.None? :: ids[i] >= first)
    }

    /** One turn of the place loop never collides. */
    method PlaceOne(entry: seq<EntryRow>, ghost before: map<nat, Row>, ghost first: nat, ghost ids: seq<nat>, n: nat)
      returns (ghost id: nat)
      requires Placing(entry, before, first, ids) && Validated(entry, before) && n == |ids| < |entry|
      modifies `rows, `nextId
      ensures Placing(entry, before, first, ids + [id])
    {
      hide PlacedUpTo, Validated, OldIdsUpTo, UniquePositions;
      var row := Row(entry[n].position, entry[n].fields);
      EntryRowFacts(entry, before, n);
      PlaceIsFree(entry, before, rows, ids);
      var target := if entry[n].id.Some? then entry[n].id.value else nextId;
      id := target;
      ghost var was := rows;
      IdIsNew(entry, before, first, ids, was, id);
      if entry[n].id.None? { nextId := nextId + 1; }
      var ok := SetRow(target, row);
      PlacedStep(was, rows, entry, ids, id);
    }

    lemma EntryRowFacts(entry: seq<EntryRow>, before: map<nat, Row>, n: nat)
      requires Validated(entry, before) && n < |entry|
      ensures entry[n].position == n + 1 && |entry| <= MaxRows
      ensures entry[n].id.Some? ==> entry[n].id.value in before
    {
      if entry[n].id.Some? { assert entry[n].id.value in OldIdsUpTo(entry, |entry|); }
    }

    lemma PlaceIsFree(entry: seq<EntryRow>, before: map<nat, Row>, now: map<nat, Row>, ids: seq<nat>)
      requires |ids| < |entry| <= MaxRows && PlacedUpTo(now, entry, ids, |ids|)
      requires forall id | id in now && id !in ids :: now[id].position > MaxRows
      ensures forall id | id in now :: now[id].position != |ids| + 1
    {
      forall id | id in now ensures now[id].position != |ids| + 1 {
        if id in ids { var i :| 0 <= i < |ids| && ids[i] == id; }
      }
    }

    lemma IdIsNew(entry: seq<EntryRow>, before: map<nat, Row>, first: nat, ids: seq<nat>, now: map<nat, Row>, id: nat)
      requires |ids| < |entry| && Validated(entry, before) && PlacedUpTo(now, entry, ids, |ids|)
      requires forall old_id | old_id in before :: old_id < first
      requires forall i | 0 <= i < |ids| && entry[i].id.None? :: ids[i] >= first
      requires if entry[|ids|].id.Some? then id == entry[|ids|].id.value && id in before else id !in now
      ensures id !in ids
    {}

    lemma PlacedStep(now: map<nat, Row>, now': map<nat, Row>, entry: seq<EntryRow>, ids: seq<nat>, id: nat)
      requires |ids| < |entry| && PlacedUpTo(now, entry, ids, |ids|) && id !in ids
      requires entry[|ids|].id.Some? ==> id == entry[|ids|].id.value
      requires now' == now[id := Row(|ids| + 1, entry[|ids|].fields)]
      ensures PlacedUpTo(now', entry, ids + [id], |ids| + 1)
    {
      assert forall i | 0 <= i < |ids| :: ids[i] in ids;
    }

    /** Where the entry rows end up: an old row keeps its id, a new one gets the next free id. */
    method Place(entry: seq<EntryRow>) returns (ghost ids: seq<nat>)
      requires Valid() && Validated(entry, rows)
      requires forall id | id in rows :: rows[id].position > MaxRows
      modifies `rows, `nextId
      ensures Valid() && |ids| == |entry| && PlacedUpTo(rows, entry, ids, |entry|)
      ensures forall id :: id in rows <==> id in ids
    {
      hide Validated;
      ghost var before, first := rows, nextId;
      ids := [];
      for n := 0 to |entry|
        invariant |ids| == n && Placing(entry, before, first, ids)
      {
        ghost var id := PlaceOne(entry, before, first, ids, n);
        ids := ids + [id];
      }
      OldIdsArePlaced(entry, before, rows, ids);
    }

    lemma OldIdsArePlaced(entry: seq<EntryRow>, before: map<nat, Row>, now: map<nat, Row>, ids: seq<nat>)
      requires Validated(entry, before) && |ids| == |entry| && PlacedUpTo(now, entry, ids, |entry|)
      requires forall id | id in now && id !in ids :: id in before
      ensures forall id :: id in now <==> id in ids
    {
      forall id | id in before ensures id in ids {
        assert id in OldIdsUpTo(entry, |entry|);
        var i :| 0 <= i < |entry| && entry[i].id.Some? && entry[i].id.value == id;
        assert ids[i] == id;
      }
      forall id | id in ids ensures id in now {
        var i :| 0 <= i < |ids| && ids[i] == id;
      }
    }

    /** The rows in the order of their positions. */
    method Snapshot() returns (order: seq<nat>)
      requires Valid()
      ensures Lists(order, rows) && ByPosition(order, rows)
    {
      order := [];
      for p := 0 to MaxPosition + 1
        invariant forall id :: id in order <==> id in rows && rows[id].position < p
        invariant ByPosition(order, rows)
      {
        ghost var before := order;
        if id :| id in rows.Keys && rows[id].position == p {
          order := order + [id];
          assert forall i | 0 <= i < |before| :: before[i] in before;
        }
      }
      ListedOnce(order, rows);
    }

    /** The first free position above all rows and above every final one. */
    method TemporaryStart(order: seq<nat>) returns (start: int)
      requires Valid() && Lists(order, rows) && ByPosition(order, rows)
      ensures start == Start(rows)
      ensures start > MaxRows && forall id | id in rows :: rows[id].position < start
    {
      start := MaxRows + 1;
      if order != [] && rows[order[|order| - 1]].position > MaxRows {
        assert order[|order| - 1] in order;
        start := rows[order[|order| - 1]].position + 1;
      }
      forall id | id in rows ensures rows[id].position < start {
        var i :| 0 <= i < |order| && order[i] == id;
      }
      if order != [] { assert order[|order| - 1] in order; }
      StartIsLeast(rows, start);
    }

    /** The transaction that rewrites the rows: it commits unless the temporary positions would
        leave the range of the column, and otherwise rolls everything back. */
    method Rewrite(entry: seq<EntryRow>) returns (o: Outcome)
      requires Valid() && Validated(entry, rows)
      modifies `rows, `nextId
      ensures Valid() && audit == old(audit)
      ensures o == Applied <==> Start(old(rows)) + |old(rows)| < MaxPosition
      ensures o == Applied ==> Holds(rows, entry)
      ensures o != Applied ==> o == Blocked("temporary_order_overflow") && rows == old(rows)
    {
      hide UniquePositions, PlacedUpTo, RowsMatch, ByPosition;
      var order := Snapshot();
      ListingSize(order, rows);
      var start := TemporaryStart(order);
      if !(start + |order| < MaxPosition) { return Blocked("temporary_order_overflow"); }
      var parked := Park(order, start);
      ghost var ids := Place(entry);
      var after := Snapshot();
      RowChecksHold(rows, entry, ids, after);
      var ok := CheckAfter(after, entry);
      assert ok;
      return Applied;
    }

    /** The row checks of `check_after`. */
    method CheckAfter(order: seq<nat>, entry: seq<EntryRow>) returns (ok: bool)
      requires forall id | id in order :: id in rows
      ensures ok <==> RowsMatch(order, rows, entry)
    {
      if |order| != |entry| { return false; }
      for n := 0 to |entry|
        invariant forall i | 0 <= i < n :: RowMatches(order[i], rows, entry[i])
      {
        assert order[n] in order;
        if !RowMatches(order[n], rows, entry[n]) { return false; }
      }
      return true;
    }

    /** One event of `execute`: replay is recognised, the baseline has to be intact, and only then
        are the rows rewritten. */
    method Execute(sha: string, entry: seq<EntryRow>, baseline: map<nat, Row>, apply: bool) returns (o: Outcome)
      requires Valid()
      modifies this
      ensures Valid()
      ensures o == Applied ==> Holds(rows, entry) && audit == old(audit)[sha := rows]
      ensures o != Applied ==> rows == old(rows) && audit == old(audit)
      ensures o == Applied <==>
                && sha !in old(audit) && Validated(entry, baseline) && old(rows) == baseline && apply
                && Start(baseline) + |baseline| < MaxPosition
      ensures o == AlreadyApplied <==>
                && Validated(entry, baseline) && sha in old(audit) && old(rows) == old(audit)[sha]
                && Holds(old(rows), entry)
    {
      var valid := ValidateEntry(entry, baseline);
      if !valid { return Blocked("entry_invalid"); }
      if sha in audit {
        var order := Snapshot();
        MatchMeansHolds(order, rows, entry);
        var ok := CheckAfter(order, entry);
        if !ok { return Blocked("after_result_drift"); }
        if rows != audit[sha] { return Blocked("applied_snapshot_drift"); }
        return AlreadyApplied;
      }
      if rows != baseline { return Blocked("database_baseline_drift"); }
      if !apply { return DryRun; }
      o := Rewrite(entry);
      if o == Applied { audit := audit[sha := rows]; }
    }

    /** Running the same manifest again recognises the first application and changes nothing. */
    method ApplyTwice(sha: string, entry: seq<EntryRow>) returns (first: Outcome, second: Outcome)
      requires Valid()
      modifies this
      ensures Valid()
      ensures first == Applied ==> second == AlreadyApplied && Holds(rows, entry) && sha in audit && rows == audit[sha]
      ensures first != Applied ==> rows == old(rows)
    {
      var baseline := rows;
      first := Execute(sha, entry, baseline, true);
      if first != Applied { return first, DryRun; }
      second := Execute(sha, entry, baseline, true);
    }
  }

  ghost predicate ByPosition(order: seq<nat>, rows: map<nat, Row>) {
    && (forall id | id in order :: id in rows)
    && forall i, j | 0 <= i < j < |order| :: rows[order[i]].position < rows[order[j]].position
  }

  lemma ListedOnce(order: seq<nat>, rows: map<nat, Row>)
    requires ByPosition(order, rows)
    ensures forall i, j | 0 <= i < j < |order| :: order[i] != order[j]
  {
    forall i, j | 0 <= i < j < |order| ensures order[i] != order[j] {
      assert rows[order[i]].position < rows[order[j]].position;
    }
  }

  /** One above the largest position, but at least one above every final position. */
  ghost function Start(rows: map<nat, Row>): int {
    if forall id | id in rows :: rows[id].position <= MaxRows then MaxRows + 1
    else LargestPosition(rows) + 1
  }

  ghost function LargestPosition(rows: map<nat, Row>): int
    requires rows.Keys != {}
  {
    LargestAmong(rows, rows.Keys);
    var id :| IsLargest(rows, rows.Keys, id);
    rows[id].position
  }

  ghost predicate IsLargest(rows: map<nat, Row>, among: set<nat>, id: nat)
    requires among <= rows.Keys
  {
    id in among && forall other | other in among :: rows[other].position <= rows[id].position
  }

  lemma {:induction false} LargestAmong(rows: map<nat, Row>, among: set<nat>)
    requires among <= rows.Keys && among != {}
    ensures exists id :: IsLargest(rows, among, id)
    decreases |among|
  {
    var first :| first in among;
    var rest := among - {first};
    if rest == {} {
      assert among == {first};
      assert IsLargest(rows, among, first);
    } else {
      LargestAmong(rows, rest);
      var best :| IsLargest(rows, rest, best);
      assert IsLargest(rows, among, if rows[first].position > rows[best].position then first else best);
    }
  }

  lemma StartIsLeast(rows: map<nat, Row>, start: int)
    requires forall id | id in rows :: rows[id].position < start
    requires start == MaxRows + 1
             || (start > MaxRows + 1 && exists id :: id in rows && rows[id].position == start - 1)
    ensures start == Start(rows)
  {}

  predicate RowMatches(id: nat, rows: map<nat, Row>, expected: EntryRow)
    requires id in rows
  {
    && rows[id] == Row(expected.position, expected.fields)
    && (expected.id.Some? ==> id == expected.id.value)
  }

  ghost predicate RowsMatch(order: seq<nat>, rows: map<nat, Row>, entry: seq<EntryRow>)
    requires forall id | id in order :: id in rows
  {
    |order| == |entry| && forall i | 0 <= i < |entry| :: order[i] in order && RowMatches(order[i], rows, entry[i])
  }

  ghost function Elements(q: seq<nat>): set<nat> {
    set x | x in q
  }

  lemma {:induction false} SizeOfListing(q: seq<nat>)
    requires forall i, j | 0 <= i < j < |q| :: q[i] != q[j]
    ensures |Elements(q)| == |q|
  {
    if q != [] {
      var front, last := q[..|q| - 1], q[|q| - 1];
      forall i, j | 0 <= i < j < |front| ensures front[i] != front[j] {
        assert front[i] == q[i] && front[j] == q[j];
      }
      SizeOfListing(front);
      forall i | 0 <= i < |front| ensures front[i] != last {
        assert front[i] == q[i];
      }
      assert q == front + [last];
      assert Elements(q) == Elements(front) + {last};
    }
  }

  lemma ListingSize(order: seq<nat>, rows: map<nat, Row>)
    requires Lists(order, rows)
    ensures |order| == |rows|
  {
    SizeOfListing(order);
    assert Elements(order) == rows.Keys;
  }

  /** Positions that ascend within 1..n leave no gap. */
  lemma {:induction false} NoGap(order: seq<nat>, rows: map<nat, Row>, i: nat, low: int)
    requires ByPosition(order, rows) && i < |order|
    requires forall id | id in rows :: rows[id].position >= low
    ensures rows[order[i]].position >= low + i
  {
    assert order[i] in order;
    if i > 0 {
      NoGap(order, rows, i - 1, low);
      assert rows[order[i - 1]].position < rows[order[i]].position;
    }
  }

  lemma {:induction false} NoOverrun(order: seq<nat>, rows: map<nat, Row>, i: nat, high: int)
    requires ByPosition(order, rows) && i < |order|
    requires forall id | id in rows :: rows[id].position <= high
    ensures rows[order[i]].position <= high - (|order| - 1 - i)
    decreases |order| - i
  {
    assert order[i] in order;
    if i < |order| - 1 {
      NoOverrun(order, rows, i + 1, high);
      assert rows[order[i]].position < rows[order[i + 1]].position;
    }
  }

  /** After the rewrite every row check of `check_after` holds. */
  lemma RowChecksHold(rows: map<nat, Row>, entry: seq<EntryRow>, ids: seq<nat>, order: seq<nat>)
    requires |ids| == |entry| && PlacedUpTo(rows, entry, ids, |entry|)
    requires forall id :: id in rows <==> id in ids
    requires forall i | 0 <= i < |entry| :: entry[i].position == i + 1
    requires Lists(order, rows) && ByPosition(order, rows)
    ensures RowsMatch(order, rows, entry)
  {
    hide Lists, PlacedUpTo;
    SameSize(rows, entry, ids, order);
    PlacedPositions(rows, entry, ids);
    forall i | 0 <= i < |entry| ensures order[i] in order && RowMatches(order[i], rows, entry[i]) {
      NoGap(order, rows, i, 1);
      NoOverrun(order, rows, i, |entry|);
      assert order[i] in order;
      assert rows[order[i]].position == i + 1 && ids[i] == order[i];
      PlacedRow(rows, entry, ids, i);
    }
  }

  lemma PlacedRow(rows: map<nat, Row>, entry: seq<EntryRow>, ids: seq<nat>, i: nat)
    requires |ids| == |entry| && PlacedUpTo(rows, entry, ids, |entry|) && i < |entry|
    requires entry[i].position == i + 1
    ensures ids[i] in rows && RowMatches(ids[i], rows, entry[i])
  {}

  lemma SameSize(rows: map<nat, Row>, entry: seq<EntryRow>, ids: seq<nat>, order: seq<nat>)
    requires |ids| == |entry| && PlacedUpTo(rows, entry, ids, |entry|)
    requires forall id :: id in rows <==> id in ids
    requires Lists(order, rows)
    ensures |order| == |entry|
  {
    ListingSize(ids, rows);
    ListingSize(order, rows);
  }

  lemma PlacedPositions(rows: map<nat, Row>, entry: seq<EntryRow>, ids: seq<nat>)
    requires |ids| == |entry| && PlacedUpTo(rows, entry, ids, |entry|)
    requires forall id :: id in rows <==> id in ids
    ensures forall id | id in rows :: 1 <= rows[id].position <= |entry| && ids[rows[id].position - 1] == id
  {
    forall id | id in rows ensures 1 <= rows[id].position <= |entry| && ids[rows[id].position - 1] == id {
      var i :| 0 <= i < |ids| && ids[i] == id;
    }
  }

  lemma MatchMeansHolds(order: seq<nat>, rows: map<nat, Row>, entry: seq<EntryRow>)
    requires Lists(order, rows) && ByPosition(order, rows)
    requires forall i | 0 <= i < |entry| :: entry[i].position == i + 1
    ensures RowsMatch(order, rows, entry) <==> Holds(rows, entry)
  {
    if RowsMatch(order, rows, entry) {
      forall i | 0 <= i < |entry| ensures rows[order[i]] == Row(i + 1, entry[i].fields) {
        assert RowMatches(order[i], rows, entry[i]);
      }
      assert PlacedUpTo(rows, entry, order, |entry|);
    }
    if Holds(rows, entry) {
      var ids: seq<nat> :| |ids| == |entry| && PlacedUpTo(rows, entry, ids, |entry|)
                           && forall id :: id in rows <==> id in ids;
      RowChecksHold(rows, entry, ids, order);
    }
  }
}
