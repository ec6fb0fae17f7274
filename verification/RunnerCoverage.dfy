/** Covering a merged runner ledger by the materialisations it came from
    (runtime/research/build_stable_id_reconciliation_coverage.py). */
module RunnerCoverage {
  import opened Wrappers
  import opened TextOrder
  import opened CanonicalText
  import opened RunnerOccurrences
  import opened RunnerLedgerMerge
  import opened RunnerLedgerBuild

  /** A horse in a race. */
  type Place = (string, string)

  function PlaceOf(c: Contribution): Place {
    (c.horse, c.occ.sem.race)
  }

  ghost function Places(cs: seq<Contribution>): set<Place> {
    set c | c in cs :: PlaceOf(c)
  }

  ghost predicate DistinctPlaces(cs: seq<Contribution>) {
    forall i, j | 0 <= i < j < |cs| :: PlaceOf(cs[i]) != PlaceOf(cs[j])
  }

  /** `_source_observations`: a complete, duplicate-free list headed by the flat source fields. */
  predicate Observed(o: Occurrence) {
    && Aware(o)
    && (forall i | 0 <= i < |ListOf(o)| ::
          ListOf(o)[i].seed != "" && ListOf(o)[i].run != "" && ListOf(o)[i].payload != "")
    && |InsertAll(ListOf(o), [])| == |ListOf(o)|
    && o.primary == InsertAll(ListOf(o), [])[0]
  }

  predicate CellOk(c: Contribution) {
    c.horse != "" && Observed(c.occ) && c.occ.sem.race != ""
  }

  ghost predicate TableOk(rows: seq<SeedRow>) {
    && (forall row | row in rows :: row.horse != "")
    && (forall c | c in Contribs(rows) :: CellOk(c))
    && DistinctPlaces(Contribs(rows))
  }

  ghost function At(cs: seq<Contribution>, p: Place): Occurrence
    requires p in Places(cs)
  {
    var c :| c in cs && PlaceOf(c) == p;
    c.occ
  }

  /** The occurrences of a ledger by horse and race. */
  ghost function TableOf(cs: seq<Contribution>): map<Place, Occurrence> {
    map p | p in Places(cs) :: At(cs, p)
  }

  lemma TableHolds(cs: seq<Contribution>, c: Contribution)
    requires DistinctPlaces(cs) && c in cs
    ensures PlaceOf(c) in TableOf(cs) && TableOf(cs)[PlaceOf(c)] == c.occ
  {
    var p := PlaceOf(c);
    assert p in Places(cs);
    var d :| d in cs && PlaceOf(d) == p && At(cs, p) == d.occ;
    var i :| 0 <= i < |cs| && cs[i] == c;
    var j :| 0 <= j < |cs| && cs[j] == d;
    assert PlaceOf(cs[i]) == PlaceOf(cs[j]);
  }

  lemma DistinctSnoc(cs: seq<Contribution>, c: Contribution)
    ensures DistinctPlaces(cs + [c]) <==> DistinctPlaces(cs) && PlaceOf(c) !in Places(cs)
  {
    var all := cs + [c];
    if DistinctPlaces(all) {
      forall i, j | 0 <= i < j < |cs| ensures PlaceOf(cs[i]) != PlaceOf(cs[j]) {
        assert all[i] == cs[i] && all[j] == cs[j];
      }
      forall d | d in cs ensures PlaceOf(d) != PlaceOf(c) {
        var i :| 0 <= i < |cs| && cs[i] == d;
        assert all[i] == d && all[|cs|] == c;
      }
    }
  }

  lemma TableSnoc(cs: seq<Contribution>, c: Contribution)
    requires DistinctPlaces(cs) && PlaceOf(c) !in Places(cs)
    ensures TableOf(cs + [c]) == TableOf(cs)[PlaceOf(c) := c.occ]
  {
    DistinctSnoc(cs, c);
    var all := cs + [c];
    assert forall d :: d in all <==> d in cs || d == c;
    forall p | p in Places(all) ensures TableOf(all)[p] == TableOf(cs)[PlaceOf(c) := c.occ][p] {
      var d :| d in all && PlaceOf(d) == p;
      TableHolds(all, d);
      if d in cs { TableHolds(cs, d); }
    }
    forall p ensures p in Places(all) <==> p in Places(cs) || p == PlaceOf(c) {
      if p == PlaceOf(c) { assert c in all; }
      if p in Places(cs) {
        var d :| d in cs && PlaceOf(d) == p;
        assert d in all;
      }
    }
  }

  lemma {:induction false} DistinctAppend(cs: seq<Contribution>, ds: seq<Contribution>)
    ensures DistinctPlaces(cs + ds) <==>
              DistinctPlaces(cs) && DistinctPlaces(ds) && Places(cs) !! Places(ds)
  {
    if ds == [] {
      assert cs + ds == cs;
    } else {
      var front, last := ds[..|ds| - 1], ds[|ds| - 1];
      assert ds == front + [last] && cs + ds == (cs + front) + [last];
      DistinctAppend(cs, front);
      DistinctSnoc(cs + front, last);
      DistinctSnoc(front, last);
      PlacesAppend(cs, front);
      PlacesAppend(front, [last]);
      assert forall p :: p in Places([last]) <==> p == PlaceOf(last);
    }
  }

  lemma PlacesAppend(cs: seq<Contribution>, ds: seq<Contribution>)
    ensures Places(cs + ds) == Places(cs) + Places(ds)
  {
    assert forall c :: c in cs + ds <==> c in cs || c in ds;
  }

  lemma RowStep(row: SeedRow, cs: seq<Contribution>, k: nat)
    requires k < |row.occurrences|
    ensures var ds, o := RowContribs(row), row.occurrences[k];
      && |ds| == |row.occurrences| && ds[k] == Contribution(row.horse, KeyOf(o), o) && ds[k] in ds
      && cs + ds[..k + 1] == cs + ds[..k] + [ds[k]]
      && (DistinctPlaces(cs + ds) ==> DistinctPlaces(cs + ds[..k + 1]))
  {
    hide KeyOf, DistinctPlaces, PlaceOf;
    var ds := RowContribs(row);
    assert ds[..k + 1] == ds[..k] + [ds[k]];
    assert cs + ds == cs + ds[..k + 1] + ds[k + 1..];
    DistinctAppend(cs + ds[..k + 1], ds[k + 1..]);
  }

  lemma RowEnds(row: SeedRow, cs: seq<Contribution>)
    ensures |RowContribs(row)| == |row.occurrences|
    ensures cs + RowContribs(row)[..0] == cs
    ensures RowContribs(row)[..|row.occurrences|] == RowContribs(row)
  {}

  /** The loop over the occurrences of one row. */
  method IndexRow(table0: map<Place, Occurrence>, row: SeedRow, ghost cs: seq<Contribution>)
    returns (r: Result<map<Place, Occurrence>, string>)
    requires table0 == TableOf(cs) && DistinctPlaces(cs) && row.horse != ""
    ensures r.Ok? <==>
              && (forall c | c in RowContribs(row) :: CellOk(c))
              && DistinctPlaces(cs + RowContribs(row))
    ensures r.Ok? ==> r.value == TableOf(cs + RowContribs(row))
  {
    hide Observed, KeyOf, RowContribs, DistinctPlaces, Places;
    var table := table0;
    ghost var ds := RowContribs(row);
    ghost var filed := cs;
    RowEnds(row, cs);
    for k := 0 to |row.occurrences|
      invariant filed == cs + ds[..k] && DistinctPlaces(filed) && table == TableOf(filed)
      invariant forall i | 0 <= i < k :: CellOk(ds[i])
    {
      var o := row.occurrences[k];
      RowStep(row, cs, k);
      DistinctSnoc(filed, ds[k]);
      if !Observed(o) { return Err("provider-native targeted observation is invalid"); }
      var p := (row.horse, o.sem.race);
      if o.sem.race == "" || p in table {
        return Err("provider-native targeted physical occurrence is duplicated");
      }
      TableSnoc(filed, ds[k]);
      table := table[p := o];
      filed := filed + [ds[k]];
    }
    return Ok(table);
  }

  ghost predicate TableOkUpTo(rows: seq<SeedRow>, n: nat)
    requires n <= |rows|
  {
    && (forall i | 0 <= i < n :: rows[i].horse != "")
    && (forall c | c in ContribsUpTo(rows, n) :: CellOk(c))
    && DistinctPlaces(ContribsUpTo(rows, n))
  }

  function ContribsUpTo(rows: seq<SeedRow>, n: nat): seq<Contribution>
    requires n <= |rows|
  {
    if n == 0 then [] else ContribsUpTo(rows, n - 1) + RowContribs(rows[n - 1])
  }

  lemma {:induction false} ContribsUpToIsPrefix(rows: seq<SeedRow>, n: nat)
    requires n <= |rows|
    ensures ContribsUpTo(rows, n) == Contribs(rows[..n])
  {
    hide RowContribs;
    if n > 0 {
      ContribsUpToIsPrefix(rows, n - 1);
      assert rows[..n][..n - 1] == rows[..n - 1];
    }
  }

  lemma {:induction false} TableOkPrefix(rows: seq<SeedRow>, k: nat, n: nat)
    requires k <= n <= |rows|
    ensures TableOkUpTo(rows, n) ==> TableOkUpTo(rows, k)
    decreases n
  {
    hide CellOk, RowContribs, DistinctPlaces;
    if k < n {
      DistinctAppend(ContribsUpTo(rows, n - 1), RowContribs(rows[n - 1]));
      TableOkPrefix(rows, k, n - 1);
    }
  }

  lemma TableOkWhole(rows: seq<SeedRow>)
    ensures TableOkUpTo(rows, |rows|) <==> TableOk(rows)
    ensures ContribsUpTo(rows, |rows|) == Contribs(rows)
  {
    hide CellOk, RowContribs, DistinctPlaces;
    ContribsUpToIsPrefix(rows, |rows|);
    assert rows[..|rows|] == rows;
  }

  lemma EmptyTable(rows: seq<SeedRow>)
    ensures TableOkUpTo(rows, 0) && TableOf(ContribsUpTo(rows, 0)) == map[]
  {}

  lemma TableOkSnoc(rows: seq<SeedRow>, n: nat)
    requires n < |rows| && TableOkUpTo(rows, n)
    ensures DistinctPlaces(ContribsUpTo(rows, n)) && forall c | c in ContribsUpTo(rows, n) :: CellOk(c)
    ensures TableOkUpTo(rows, n + 1) <==>
              && rows[n].horse != ""
              && (forall c | c in RowContribs(rows[n]) :: CellOk(c))
              && DistinctPlaces(ContribsUpTo(rows, n) + RowContribs(rows[n]))
  {
    hide CellOk, RowContribs, DistinctPlaces;
    var all := ContribsUpTo(rows, n) + RowContribs(rows[n]);
    assert forall c :: c in all <==> c in ContribsUpTo(rows, n) || c in RowContribs(rows[n]);
  }

  /** `_targeted_physical_occurrences`. */
  method PhysicalTable(rows: seq<SeedRow>) returns (r: Result<map<Place, Occurrence>, string>)
    ensures r.Ok? <==> TableOk(rows)
    ensures r.Ok? ==> r.value == TableOf(Contribs(rows))
  {
    hide TableOkUpTo, TableOf, TableOk, CellOk, DistinctPlaces, RowContribs;
    var table: map<Place, Occurrence> := map[];
    EmptyTable(rows);
    TableOkWhole(rows);
    for n := 0 to |rows|
      invariant TableOkUpTo(rows, n) && table == TableOf(ContribsUpTo(rows, n))
    {
      TableOkPrefix(rows, n + 1, |rows|);
      TableOkSnoc(rows, n);
      if rows[n].horse == "" { return Err("provider-native targeted stable seed contract drift"); }
      var indexed := IndexRow(table, rows[n], ContribsUpTo(rows, n));
      if indexed.Err? { return Err(indexed.error); }
      table := indexed.value;
    }
    return Ok(table);
  }

  // ---------------------------------------------------------------- expected occurrences

  predicate ExpectedRaceOk(rules: Rules, m: Materialized) {
    m.Race? ==>
      && m.starters != [] && Resolved(rules, m)
      && forall i | 0 <= i < |m.starters| :: rules.starts(m.starters[i].position)
  }

  ghost predicate ExpectedOkUpTo(rules: Rules, races: seq<Materialized>, n: nat)
    requires n <= |races|
  {
    && (forall i | 0 <= i < n :: ExpectedRaceOk(rules, races[i]))
    && GroupsOk(SightingsUpTo(rules, races, Same, n))
  }

  ghost function ExpectedOf(cs: seq<Contribution>): map<Place, Occurrence> {
    map p | p in Places(cs) && Group(cs, p.0, p.1) != [] :: Combine(Group(cs, p.0, p.1))
  }

  ghost predicate ByRace(cs: seq<Contribution>) {
    forall c | c in cs :: Aware(c.occ) && c.key == c.occ.sem.race
  }

  lemma ExpectedSnoc(cs: seq<Contribution>, c: Contribution)
    requires c.key == c.occ.sem.race
    ensures ExpectedOf(cs + [c])
            == ExpectedOf(cs)[PlaceOf(c) := Combine(Group(cs, c.horse, c.key) + [c.occ])]
  {
    hide Combine, Group;
    PlacesAppend(cs, [c]);
    assert forall p :: p in Places([c]) <==> p == PlaceOf(c);
    forall p: Place ensures Group(cs + [c], p.0, p.1)
                      == if p == PlaceOf(c) then Group(cs, p.0, p.1) + [c.occ] else Group(cs, p.0, p.1)
    {
      GroupSnoc(cs, c, p.0, p.1);
      assert Group(cs, p.0, p.1) + [] == Group(cs, p.0, p.1);
    }
  }

  lemma ExpectedAt(cs: seq<Contribution>, horse: string, key: string)
    requires ByRace(cs)
    ensures (horse, key) in ExpectedOf(cs) <==> Group(cs, horse, key) != []
  {
    GroupMembers(cs, horse, key);
    if Group(cs, horse, key) != [] {
      var o := Group(cs, horse, key)[0];
      assert o in Group(cs, horse, key);
      assert Contribution(horse, key, o) in cs && PlaceOf(Contribution(horse, key, o)) == (horse, key);
    }
  }

  /** File one expected occurrence under its raw horse id and race. */
  method AddExpected(table: map<Place, Occurrence>, c: Contribution, ghost cs: seq<Contribution>)
    returns (r: Result<map<Place, Occurrence>, string>)
    requires ByRace(cs) && GroupsOk(cs) && table == ExpectedOf(cs)
    requires Aware(c.occ) && c.key == c.occ.sem.race
    ensures r.Ok? <==> GroupsOk(cs + [c])
    ensures r.Ok? ==> r.value == ExpectedOf(cs + [c])
  {
    ghost var g := Group(cs, c.horse, c.key);
    GroupIsAware(cs, c.horse, c.key);
    GroupsOkSnoc(cs, c);
    ExpectedAt(cs, c.horse, c.key);
    ExpectedSnoc(cs, c);
    assert GroupOk(g);
    hide Group, GroupOk, Combine, Aware, GroupsOk, ByRace;
    var p := (c.horse, c.key);
    var filed := FileSighting(if p in table then Some(table[p]) else None, c.occ, g);
    if filed.Err? { return Err("runner occurrence conflict"); }
    return Ok(table[p := filed.value]);
  }

  lemma {:induction false} ExpectedPrefix(rules: Rules, m: Materialized, cs: seq<Contribution>, k: nat, n: nat)
    requires m.Race? && k <= n <= |m.starters|
    ensures GroupsOk(cs + RaceSightings(rules, m, Same, n)) ==> GroupsOk(cs + RaceSightings(rules, m, Same, k))
    decreases n
  {
    hide GroupsOk, SightingOf;
    if k < n {
      ExpectedPrefix(rules, m, cs, k, n - 1);
      StarterStep(rules, m, cs, n - 1);
      GroupsOkPrefix(cs + RaceSightings(rules, m, Same, n - 1), [SightingOf(rules, m, Same, m.starters[n - 1])]);
    }
  }

  lemma StarterStep(rules: Rules, m: Materialized, cs: seq<Contribution>, k: nat)
    requires m.Race? && k < |m.starters|
    ensures cs + RaceSightings(rules, m, Same, k + 1)
            == cs + RaceSightings(rules, m, Same, k) + [SightingOf(rules, m, Same, m.starters[k])]
    ensures var c := SightingOf(rules, m, Same, m.starters[k]); Aware(c.occ) && c.key == c.occ.sem.race
  {
    hide Clean;
  }

  lemma ByRaceSnoc(cs: seq<Contribution>, c: Contribution)
    requires ByRace(cs) && Aware(c.occ) && c.key == c.occ.sem.race
    ensures ByRace(cs + [c])
  {}

  /** The starter loop of the expected occurrences of one race. */
  method ExpectRace(rules: Rules, m: Materialized, table0: map<Place, Occurrence>, ghost cs: seq<Contribution>)
    returns (r: Result<map<Place, Occurrence>, string>)
    requires m.Race? && ByRace(cs) && GroupsOk(cs) && table0 == ExpectedOf(cs)
    ensures r.Ok? <==> ExpectedRaceOk(rules, m) && GroupsOk(cs + AllOf(rules, m, Same))
    ensures r.Ok? ==> r.value == ExpectedOf(cs + AllOf(rules, m, Same)) && ByRace(cs + AllOf(rules, m, Same))
  {
    hide GroupsOk, Resolved, RaceSightings, SightingOf, ExpectedOf, ByRace, Aware;
    if m.starters == [] { return Err("targeted materialization actual starters are missing"); }
    var table := table0;
    ghost var filed := cs;
    FirstStarter(rules, m, cs);
    for k := 0 to |m.starters|
      invariant filed == cs + RaceSightings(rules, m, Same, k)
      invariant ByRace(filed) && GroupsOk(filed) && table == ExpectedOf(filed)
      invariant k > 0 ==> Resolved(rules, m)
      invariant forall i | 0 <= i < k :: rules.starts(m.starters[i].position)
    {
      if !rules.starts(m.starters[k].position) {
        return Err("targeted materialization participant is invalid");
      }
      if !Resolved(rules, m) { return Err("target race is unsupported"); }
      StarterStep(rules, m, cs, k);
      ExpectedPrefix(rules, m, cs, k + 1, |m.starters|);
      var c := SightingOf(rules, m, Same, m.starters[k]);
      ByRaceSnoc(filed, c);
      var added := AddExpected(table, c, filed);
      if added.Err? { return Err(added.error); }
      filed := filed + [c];
      table := added.value;
    }
    return Ok(table);
  }

  lemma FirstStarter(rules: Rules, m: Materialized, cs: seq<Contribution>)
    requires m.Race?
    ensures cs + RaceSightings(rules, m, Same, 0) == cs
  {}

  lemma ExpectedOkSnoc(rules: Rules, races: seq<Materialized>, n: nat)
    requires n < |races|
    ensures ExpectedOkUpTo(rules, races, n + 1) <==>
              && ExpectedOkUpTo(rules, races, n) && ExpectedRaceOk(rules, races[n])
              && GroupsOk(SightingsUpTo(rules, races, Same, n) + AllOf(rules, races[n], Same))
  {
    hide ExpectedRaceOk, GroupsOk, AllOf;
    GroupsOkPrefix(SightingsUpTo(rules, races, Same, n), AllOf(rules, races[n], Same));
  }

  lemma {:induction false} ExpectedOkPrefix(rules: Rules, races: seq<Materialized>, k: nat, n: nat)
    requires k <= n <= |races|
    ensures ExpectedOkUpTo(rules, races, n) ==> ExpectedOkUpTo(rules, races, k)
    decreases n
  {
    hide ExpectedOkUpTo;
    if k < n {
      ExpectedOkSnoc(rules, races, n - 1);
      ExpectedOkPrefix(rules, races, k, n - 1);
    }
  }

  lemma NothingExpected(rules: Rules, races: seq<Materialized>)
    ensures ExpectedOkUpTo(rules, races, 0)
    ensures ByRace(SightingsUpTo(rules, races, Same, 0))
    ensures ExpectedOf(SightingsUpTo(rules, races, Same, 0)) == map[]
  {}

  lemma GapExpectsNothing(rules: Rules, m: Materialized, cs: seq<Contribution>)
    requires m.Gap?
    ensures ExpectedRaceOk(rules, m) && cs + AllOf(rules, m, Same) == cs
  {}

  /** The occurrences that a materialisation should have put into its ledger. */
  method Expected(rules: Rules, races: seq<Materialized>)
    returns (r: Result<map<Place, Occurrence>, string>)
    ensures r.Ok? <==> ExpectedOkUpTo(rules, races, |races|)
    ensures r.Ok? ==> r.value == ExpectedOf(Sightings(rules, races, Same))
  {
    var table: map<Place, Occurrence> := map[];
    NothingExpected(rules, races);
    hide ExpectedOf, ByRace, ExpectedRaceOk, AllOf, GroupsOk;
    for n := 0 to |races|
      invariant ExpectedOkUpTo(rules, races, n) && ByRace(SightingsUpTo(rules, races, Same, n))
      invariant table == ExpectedOf(SightingsUpTo(rules, races, Same, n))
    {
      ExpectedOkSnoc(rules, races, n);
      ExpectedOkPrefix(rules, races, n + 1, |races|);
      ghost var cs := SightingsUpTo(rules, races, Same, n);
      if races[n].Gap? {
        GapExpectsNothing(rules, races[n], cs);
      } else {
        var added := ExpectRace(rules, races[n], table, cs);
        if added.Err? { return Err(added.error); }
        table := added.value;
      }
    }
    return Ok(table);
  }

  // ---------------------------------------------------------------- the merged ledger

  /** The identity of a ledger occurrence: horse, race and primary seed. */
  type Key = (string, string, string)

  function KeyFor(c: Contribution): Key {
    (c.horse, c.occ.sem.race, c.occ.primary.seed)
  }

  predicate KeyComplete(c: Contribution) {
    c.horse != "" && c.occ.sem.race != "" && c.occ.primary.seed != ""
  }

  ghost function KeysFor(cs: seq<Contribution>): set<Key> {
    set c | c in cs :: KeyFor(c)
  }

  ghost predicate DistinctKeysFor(cs: seq<Contribution>) {
    forall i, j | 0 <= i < j < |cs| :: KeyFor(cs[i]) != KeyFor(cs[j])
  }

  ghost predicate StableOk(rows: seq<SeedRow>) {
    && (forall i | 0 <= i < |rows| :: rows[i].horse != "" && rows[i].occurrences != [])
    && (forall i | 0 <= i < |Contribs(rows)| :: KeyComplete(Contribs(rows)[i]))
    && DistinctKeysFor(Contribs(rows))
  }

  /** `_stable_occurrences`: the occurrences of a ledger in order, if each has its own identity. */
  method StableOccurrences(rows: seq<SeedRow>) returns (r: Result<seq<Contribution>, string>)
    ensures r.Ok? <==> StableOk(rows)
    ensures r.Ok? ==> r.value == Contribs(rows)
  {
    hide Contribs;
    for i := 0 to |rows|
      invariant forall k | 0 <= k < i :: rows[k].horse != "" && rows[k].occurrences != []
    {
      if rows[i].horse == "" || rows[i].occurrences == [] { return Err("stable seed occurrence contract drift"); }
    }
    var cells := Contribs(rows);
    var seen: set<Key> := {};
    for i := 0 to |cells|
      invariant forall k | 0 <= k < i :: KeyComplete(cells[k])
      invariant seen == set k | 0 <= k < i :: KeyFor(cells[k])
      invariant forall j, k | 0 <= j < k < i :: KeyFor(cells[j]) != KeyFor(cells[k])
    {
      if !KeyComplete(cells[i]) { return Err("stable occurrence identity is incomplete"); }
      if KeyFor(cells[i]) in seen { return Err("stable occurrence identity is duplicated"); }
      seen := seen + {KeyFor(cells[i])};
    }
    return Ok(cells);
  }

  /** The occurrences that list their observations; only those can be covered here. */
  ghost function Provider(cs: seq<Contribution>, n: nat): seq<Contribution>
    requires n <= |cs|
  {
    if n == 0 then []
    else if cs[n - 1].occ.observations.None? then Provider(cs, n - 1)
    else Provider(cs, n - 1) + [cs[n - 1]]
  }

  ghost predicate ProviderOk(cs: seq<Contribution>, n: nat)
    requires n <= |cs|
  {
    && (forall i | 0 <= i < n && cs[i].occ.observations.Some? :: Observed(cs[i].occ) && cs[i].occ.sem.race != "")
    && DistinctPlaces(Provider(cs, n))
  }

  lemma {:induction false} ProviderOkPrefix(cs: seq<Contribution>, k: nat, n: nat)
    requires k <= n <= |cs|
    ensures ProviderOk(cs, n) ==> ProviderOk(cs, k)
    decreases n
  {
    hide Observed, DistinctPlaces;
    if k < n {
      DistinctSnoc(Provider(cs, n - 1), cs[n - 1]);
      ProviderOkPrefix(cs, k, n - 1);
    }
  }

  lemma {:induction false} ProviderObserved(cs: seq<Contribution>, n: nat)
    requires n <= |cs| && ProviderOk(cs, n)
    ensures forall c | c in Provider(cs, n) :: Observed(c.occ)
  {
    hide Observed, DistinctPlaces;
    if n > 0 {
      ProviderOkPrefix(cs, n - 1, n);
      ProviderObserved(cs, n - 1);
    }
  }

  lemma NoPlaces()
    ensures TableOf([]) == map[] && DistinctPlaces([])
  {}

  /** The merged occurrences by horse and race. */
  method MergedPhysical(cells: seq<Contribution>) returns (r: Result<map<Place, Occurrence>, string>)
    ensures r.Ok? <==> ProviderOk(cells, |cells|)
    ensures r.Ok? ==> r.value == TableOf(Provider(cells, |cells|))
    ensures r.Ok? ==> forall p | p in r.value :: Observed(r.value[p])
  {
    hide Observed, DistinctPlaces;
    var table: map<Place, Occurrence> := map[];
    NoPlaces();
    for n := 0 to |cells|
      invariant ProviderOk(cells, n) && table == TableOf(Provider(cells, n))
    {
      var c := cells[n];
      ProviderOkPrefix(cells, n + 1, |cells|);
      DistinctSnoc(Provider(cells, n), c);
      if c.occ.observations.Some? {
        if !Observed(c.occ) { return Err("provider-native targeted observation is invalid"); }
        if c.occ.sem.race == "" || PlaceOf(c) in table {
          return Err("merged provider-native targeted occurrence is duplicated");
        }
        TableSnoc(Provider(cells, n), c);
        table := table[PlaceOf(c) := c.occ];
      }
    }
    ProviderObserved(cells, |cells|);
    return Ok(table);
  }

  // ---------------------------------------------------------------- one component

  /** A materialisation with the stable ledger that was built from it. */
  datatype Component = Component(sha: string, races: seq<Materialized>, source: seq<SeedRow>)

  predicate PlaceCovered(p: Place, expected: map<Place, Occurrence>, source: map<Place, Occurrence>,
                         merged: map<Place, Occurrence>)
    requires p in expected
  {
    && p in source && p in merged
    && source[p] == expected[p]
    && merged[p].sem == expected[p].sem
    && forall i | 0 <= i < |ListOf(expected[p])| :: ListOf(expected[p])[i] in ListOf(merged[p])
  }

  ghost predicate Covers(expected: map<Place, Occurrence>, source: map<Place, Occurrence>,
                         merged: map<Place, Occurrence>)
  {
    && source.Keys == expected.Keys
    && forall p | p in expected :: PlaceCovered(p, expected, source, merged)
  }

  /** A component owns the occurrences whose primary observation it made; the rest it supports. */
  ghost function Owned(expected: map<Place, Occurrence>, merged: map<Place, Occurrence>): set<Place> {
    set p | p in expected && p in merged && merged[p].primary in ListOf(expected[p])
  }

  function RowKey(p: Place, merged: map<Place, Occurrence>): Key
    requires p in merged
  {
    (p.0, p.1, merged[p].primary.seed)
  }

  ghost function OwnedKeys(expected: map<Place, Occurrence>, merged: map<Place, Occurrence>): set<Key> {
    set p | p in Owned(expected, merged) :: RowKey(p, merged)
  }

  ghost function RowKeys(places: set<Place>, merged: map<Place, Occurrence>): set<Key>
    requires places <= merged.Keys
  {
    set p | p in places :: RowKey(p, merged)
  }

  /** The rows name exactly the given places, each once. */
  ghost predicate RowsMatch(rows: seq<Key>, places: set<Place>, merged: map<Place, Occurrence>) {
    && places <= merged.Keys
    && (set k | k in rows) == RowKeys(places, merged) && |rows| == |RowKeys(places, merged)|
  }

  lemma OneMoreRow(rows: seq<Key>, bound: set<Place>, p: Place, merged: map<Place, Occurrence>)
    requires RowsMatch(rows, bound, merged) && p in merged && p !in bound
    ensures RowsMatch(rows + [RowKey(p, merged)], bound + {p}, merged)
  {
    assert RowKey(p, merged) !in RowKeys(bound, merged);
    assert RowKeys(bound + {p}, merged) == RowKeys(bound, merged) + {RowKey(p, merged)};
  }

  lemma NoRowsMatch(merged: map<Place, Occurrence>)
    ensures RowsMatch([], {}, merged)
  {}

  lemma OwnedRowsMatch(rows: seq<Key>, expected: map<Place, Occurrence>, merged: map<Place, Occurrence>)
    requires RowsMatch(rows, Owned(expected, merged), merged)
    ensures (set k | k in rows) == OwnedKeys(expected, merged) && |rows| == |OwnedKeys(expected, merged)|
  {
    assert OwnedKeys(expected, merged) == RowKeys(Owned(expected, merged), merged);
  }

  /** The loop that turns expected occurrences into binding rows. */
  method BindRows(expected: map<Place, Occurrence>, source: map<Place, Occurrence>,
                  merged: map<Place, Occurrence>)
    returns (r: Result<seq<Key>, string>)
    requires forall p | p in merged :: Observed(merged[p])
    ensures r.Ok? <==> forall p | p in expected :: PlaceCovered(p, expected, source, merged)
    ensures r.Ok? ==> RowsMatch(r.value, Owned(expected, merged), merged)
  {
    hide InsertAll, RowKey, Observed, PlaceCovered, RowsMatch, Owned;
    var rows: seq<Key> := [];
    var pending := expected.Keys;
    ghost var bound: set<Place> := {};
    NoRowsMatch(merged);
    OwnedIsExpected(expected, merged);
    while pending != {}
      invariant pending <= expected.Keys
      invariant forall p | p in expected && p !in pending :: PlaceCovered(p, expected, source, merged)
      invariant bound == Owned(expected, merged) - pending && RowsMatch(rows, bound, merged)
      decreases |pending|
    {
      var p :| p in pending;
      if !PlaceCovered(p, expected, source, merged) {
        return Err("targeted provider-native occurrence evidence drift");
      }
      FirstIsPrimary(p, expected, source, merged);
      OwnedStep(expected, merged, pending, p);
      if InsertAll(ListOf(merged[p]), [])[0] in ListOf(expected[p]) {
        OneMoreRow(rows, bound, p, merged);
        rows := rows + [RowKey(p, merged)];
        bound := bound + {p};
      }
      pending := pending - {p};
    }
    assert bound == Owned(expected, merged);
    return Ok(rows);
  }

  /** Bind everything expected, then compare the source ledger as a whole. */
  method BindOwned(expected: map<Place, Occurrence>, source: map<Place, Occurrence>,
                   merged: map<Place, Occurrence>)
    returns (r: Result<seq<Key>, string>)
    requires forall p | p in merged :: Observed(merged[p])
    ensures r.Ok? <==> Covers(expected, source, merged)
    ensures r.Ok? ==> (set k | k in r.value) == OwnedKeys(expected, merged)
    ensures r.Ok? ==> |r.value| == |OwnedKeys(expected, merged)|
  {
    hide InsertAll, RowKey, Observed, PlaceCovered, RowsMatch, OwnedKeys, Owned;
    r := BindRows(expected, source, merged);
    if r.Err? { return; }
    OwnedRowsMatch(r.value, expected, merged);
    if source.Keys != expected.Keys {
      return Err("targeted materialization does not cover its exact stable source ledger");
    }
  }

  lemma OwnedIsExpected(expected: map<Place, Occurrence>, merged: map<Place, Occurrence>)
    ensures Owned(expected, merged) <= expected.Keys
  {}

  lemma OwnedStep(expected: map<Place, Occurrence>, merged: map<Place, Occurrence>, pending: set<Place>, p: Place)
    requires p in pending && p in expected && p in merged
    ensures Owned(expected, merged) - (pending - {p})
            == (Owned(expected, merged) - pending)
               + (if merged[p].primary in ListOf(expected[p]) then {p} else {})
  {}

  lemma FirstIsPrimary(p: Place, expected: map<Place, Occurrence>, source: map<Place, Occurrence>,
                       merged: map<Place, Occurrence>)
    requires p in expected && PlaceCovered(p, expected, source, merged)
    requires forall q | q in merged :: Observed(merged[q])
    ensures p in merged && InsertAll(ListOf(merged[p]), []) != []
    ensures InsertAll(ListOf(merged[p]), [])[0] == merged[p].primary
  {
    hide InsertAll;
    assert Observed(merged[p]);
  }

  ghost predicate Passes(rules: Rules, m: Component, cells: seq<Contribution>) {
    && TableOk(m.source) && ProviderOk(cells, |cells|) && ExpectedOkUpTo(rules, m.races, |m.races|)
    && Covers(ExpectedOf(Sightings(rules, m.races, Same)), TableOf(Contribs(m.source)),
              TableOf(Provider(cells, |cells|)))
  }

  /** The ledger occurrences that the rows of a component name. */
  ghost function RowsOf(rules: Rules, m: Component, cells: seq<Contribution>): set<Key> {
    OwnedKeys(ExpectedOf(Sightings(rules, m.races, Same)), TableOf(Provider(cells, |cells|)))
  }

  /** `_targeted_materialization_component`. */
  method CoverComponent(rules: Rules, m: Component, cells: seq<Contribution>)
    returns (r: Result<seq<Key>, string>)
    ensures r.Ok? <==> Passes(rules, m, cells)
    ensures r.Ok? ==> (set k | k in r.value) == RowsOf(rules, m, cells)
    ensures r.Ok? ==> |r.value| == |RowsOf(rules, m, cells)|
  {
    hide TableOk, ProviderOk, ExpectedOkUpTo, Covers, ExpectedOf, TableOf, OwnedKeys;
    var source := PhysicalTable(m.source);
    if source.Err? { return Err(source.error); }
    var merged := MergedPhysical(cells);
    if merged.Err? { return Err(merged.error); }
    var expected := Expected(rules, m.races);
    if expected.Err? { return Err(expected.error); }
    r := BindOwned(expected.value, source.value, merged.value);
  }

  // ---------------------------------------------------------------- all components

  ghost function AllKeys(rules: Rules, comps: seq<Component>, cells: seq<Contribution>, n: nat): set<Key>
    requires n <= |comps|
  {
    if n == 0 then {} else AllKeys(rules, comps, cells, n - 1) + RowsOf(rules, comps[n - 1], cells)
  }

  ghost predicate NoOverlap(rules: Rules, comps: seq<Component>, cells: seq<Contribution>, n: nat)
    requires n <= |comps|
  {
    forall i | 0 <= i < n :: AllKeys(rules, comps, cells, i) !! RowsOf(rules, comps[i], cells)
  }

  ghost predicate DistinctShas(comps: seq<Component>) {
    forall i, j | 0 <= i < j < |comps| :: comps[i].sha != comps[j].sha
  }

  /** When the audit accepts: no component fails, and their rows name every occurrence of the
      merged ledger exactly once. */
  ghost predicate CoverageOk(rules: Rules, comps: seq<Component>, merged: seq<SeedRow>) {
    var cells := Contribs(merged);
    && comps != [] && StableOk(merged)
    && (forall i | 0 <= i < |comps| :: Passes(rules, comps[i], cells))
    && NoOverlap(rules, comps, cells, |comps|)
    && AllKeys(rules, comps, cells, |comps|) == KeysFor(cells)
    && DistinctShas(comps)
  }

  lemma UnionSize<T>(a: set<T>, b: set<T>)
    ensures |a + b| <= |a| + |b|
    ensures |a + b| == |a| + |b| <==> a !! b
  {
    assert a + b == a + (b - a);
    assert b == (b - a) + (a * b);
  }

  /** A list of rows stays free of duplicates as long as what is appended is new. */
  lemma AppendRows(rows: seq<Key>, more: seq<Key>, a: set<Key>, b: set<Key>)
    requires (set k | k in rows) == a && |rows| >= |a|
    requires (set k | k in more) == b && |more| == |b|
    ensures (set k | k in rows + more) == a + b && |rows + more| >= |a + b|
    ensures |rows + more| == |a + b| <==> |rows| == |a| && a !! b
  {
    UnionSize(a, b);
  }

  lemma NoOverlapSnoc(rules: Rules, comps: seq<Component>, cells: seq<Contribution>, n: nat)
    requires n < |comps|
    ensures NoOverlap(rules, comps, cells, n + 1) <==>
              NoOverlap(rules, comps, cells, n) && AllKeys(rules, comps, cells, n) !! RowsOf(rules, comps[n], cells)
    ensures AllKeys(rules, comps, cells, n + 1) == AllKeys(rules, comps, cells, n) + RowsOf(rules, comps[n], cells)
  {
    hide RowsOf;
  }

  /** The loop over the components. */
  method CoverAll(rules: Rules, comps: seq<Component>, cells: seq<Contribution>)
    returns (r: Result<seq<Key>, string>)
    ensures r.Ok? <==> forall i | 0 <= i < |comps| :: Passes(rules, comps[i], cells)
    ensures r.Ok? ==> (set k | k in r.value) == AllKeys(rules, comps, cells, |comps|)
    ensures r.Ok? ==>
              (|r.value| == |AllKeys(rules, comps, cells, |comps|)| <==> NoOverlap(rules, comps, cells, |comps|))
  {
    hide Passes, RowsOf, NoOverlap, AllKeys;
    var rows: seq<Key> := [];
    NothingOverlaps(rules, comps, cells);
    for n := 0 to |comps|
      invariant forall i | 0 <= i < n :: Passes(rules, comps[i], cells)
      invariant (set k | k in rows) == AllKeys(rules, comps, cells, n)
      invariant |rows| >= |AllKeys(rules, comps, cells, n)|
      invariant |rows| == |AllKeys(rules, comps, cells, n)| <==> NoOverlap(rules, comps, cells, n)
    {
      var covered := CoverComponent(rules, comps[n], cells);
      if covered.Err? { return Err(covered.error); }
      AppendRows(rows, covered.value, AllKeys(rules, comps, cells, n), RowsOf(rules, comps[n], cells));
      NoOverlapSnoc(rules, comps, cells, n);
      rows := rows + covered.value;
    }
    return Ok(rows);
  }

  lemma NothingOverlaps(rules: Rules, comps: seq<Component>, cells: seq<Contribution>)
    ensures NoOverlap(rules, comps, cells, 0) && AllKeys(rules, comps, cells, 0) == {}
  {}

  method HaveDistinctShas(comps: seq<Component>) returns (yes: bool)
    ensures yes <==> DistinctShas(comps)
  {
    var shas: set<string> := {};
    for n := 0 to |comps|
      invariant shas == set i | 0 <= i < n :: comps[i].sha
      invariant forall i, j | 0 <= i < j < n :: comps[i].sha != comps[j].sha
    {
      if comps[n].sha in shas { return false; }
      shas := shas + {comps[n].sha};
    }
    return true;
  }

  // ---------------------------------------------------------------- what an accepted audit says

  lemma TableKeys(cs: seq<Contribution>)
    ensures TableOf(cs).Keys == Places(cs)
  {}

  lemma ExpectedValue(cs: seq<Contribution>, horse: string, key: string)
    requires ByRace(cs)
    ensures (horse, key) in ExpectedOf(cs) <==> Group(cs, horse, key) != []
    ensures (horse, key) in ExpectedOf(cs) ==> ExpectedOf(cs)[(horse, key)] == Combine(Group(cs, horse, key))
  {
    ExpectedAt(cs, horse, key);
  }

  lemma {:induction false} AllKeysMembers(rules: Rules, comps: seq<Component>, cells: seq<Contribution>, n: nat, k: Key)
    requires n <= |comps|
    ensures k in AllKeys(rules, comps, cells, n) <==> exists i :: 0 <= i < n && k in RowsOf(rules, comps[i], cells)
  {
    hide RowsOf;
    if n > 0 { AllKeysMembers(rules, comps, cells, n - 1, k); }
  }

  lemma PairwiseOverlap(rules: Rules, comps: seq<Component>, cells: seq<Contribution>)
    ensures NoOverlap(rules, comps, cells, |comps|) <==>
              forall i, j | 0 <= i < j < |comps| :: RowsOf(rules, comps[i], cells) !! RowsOf(rules, comps[j], cells)
  {
    hide RowsOf;
    forall j, k: Key | 0 <= j < |comps|
      ensures k in AllKeys(rules, comps, cells, j) <==> exists i :: 0 <= i < j && k in RowsOf(rules, comps[i], cells)
    {
      AllKeysMembers(rules, comps, cells, j, k);
    }
    if !NoOverlap(rules, comps, cells, |comps|) {
      var j :| 0 <= j < |comps| && !(AllKeys(rules, comps, cells, j) !! RowsOf(rules, comps[j], cells));
      var k: Key :| k in AllKeys(rules, comps, cells, j) && k in RowsOf(rules, comps[j], cells);
      var i :| 0 <= i < j && k in RowsOf(rules, comps[i], cells);
    }
  }

  ghost predicate AllListed(cs: seq<Contribution>) {
    forall c | c in cs :: c.occ.observations.Some?
  }

  lemma {:induction false} ProviderIsAll(cs: seq<Contribution>, n: nat)
    requires n <= |cs| && AllListed(cs)
    ensures Provider(cs, n) == cs[..n]
  {
    if n > 0 {
      ProviderIsAll(cs, n - 1);
      assert cs[n - 1] in cs;
    }
  }

  /** Some starter of component `c` made the primary observation of this occurrence. */
  ghost predicate MadePrimary(rules: Rules, comps: seq<Component>, c: int, horse: string, o: Occurrence) {
    0 <= c < |comps| && exists i, k :: SeenAs(rules, comps[c].races, true, horse, o.sem.race, o.primary, i, k)
  }

  ghost predicate OneMaker(rules: Rules, comps: seq<Component>, horse: string, o: Occurrence) {
    exists c :: MadePrimary(rules, comps, c, horse, o) && forall d | MadePrimary(rules, comps, d, horse, o) :: d == c
  }

  /** An occurrence of a named horse and race that lists who saw it: completely, without repetition,
      and the first observation is its own. */
  ghost predicate Sourced(row: SeedRow, o: Occurrence) {
    && row.horse != "" && o.sem.race != "" && o.observations.Some?
    && IsFirst(o.primary, o.observations.value)
    && (forall x | x in o.observations.value :: x.seed != "" && x.run != "" && x.payload != "")
    && forall i, j | 0 <= i < j < |o.observations.value| :: o.observations.value[i] != o.observations.value[j]
  }

  /** Every occurrence of a ledger is sourced, and no two are of one horse in one race. */
  ghost predicate WellSourced(rows: seq<SeedRow>) {
    && (forall row, o | row in rows && o in row.occurrences :: Sourced(row, o))
    && OnceEach(rows)
  }

  ghost predicate OnceEach(rows: seq<SeedRow>) {
    forall i, j | 0 <= i < j < |Contribs(rows)| ::
      || Contribs(rows)[i].horse != Contribs(rows)[j].horse
      || Contribs(rows)[i].occ.sem.race != Contribs(rows)[j].occ.sem.race
  }

  /** What an accepted audit means for the races and starters of the components: each one is told of
      in the component's own ledger, where nothing else is, and in the merged ledger; and every merged
      occurrence has a primary observation that exactly one component made. */
  ghost predicate Audited(rules: Rules, comps: seq<Component>, merged: seq<SeedRow>) {
    && (forall c | 0 <= c < |comps| ::
          && TellsAll(rules, comps[c].races, true, comps[c].source)
          && TellsOnly(rules, comps[c].races, true, comps[c].source)
          && TellsAll(rules, comps[c].races, true, merged))
    && (forall c, i, k | 0 <= c < |comps| && StarterAt(comps[c].races, i, k) ::
          rules.starts(comps[c].races[i].starters[k].position) && IsRaceId(RaceText(rules, comps[c].races[i])))
    && forall row, o | row in merged && o in row.occurrences ::
         o.observations.Some? && OneMaker(rules, comps, row.horse, o)
  }

  /** A ledger says something else of a starter of the components than the provider did. */
  ghost predicate Drifts(rules: Rules, comps: seq<Component>, merged: seq<SeedRow>) {
    exists c, i, k, row, o ::
      && 0 <= c < |comps| && StarterAt(comps[c].races, i, k) && (row in comps[c].source || row in merged)
      && o in row.occurrences && row.horse == comps[c].races[i].starters[k].horseId
      && o.sem.race == RaceText(rules, comps[c].races[i])
      && (|| o.sem.racePayload != rules.raceSha(comps[c].races[i].race)
          || Some(o.sem.target) != rules.target(comps[c].races[i].race)
          || o.sem.name != Words(rules, comps[c].races[i].starters[k].name)
          || o.sem.position != Words(rules, comps[c].races[i].starters[k].position)
          || o.observations.None?
          || ObservationBy(rules, comps[c].races[i], comps[c].races[i].starters[k]) !in o.observations.value)
  }

  lemma DriftIsNotAudited(rules: Rules, comps: seq<Component>, merged: seq<SeedRow>)
    requires Drifts(rules, comps, merged)
    ensures !Audited(rules, comps, merged)
  {
    hide Words, TellsOnly, MadePrimary;
    var c, i, k, row, o :|
      && 0 <= c < |comps| && StarterAt(comps[c].races, i, k) && (row in comps[c].source || row in merged)
      && o in row.occurrences && row.horse == comps[c].races[i].starters[k].horseId
      && o.sem.race == RaceText(rules, comps[c].races[i])
      && (|| o.sem.racePayload != rules.raceSha(comps[c].races[i].race)
          || Some(o.sem.target) != rules.target(comps[c].races[i].race)
          || o.sem.name != Words(rules, comps[c].races[i].starters[k].name)
          || o.sem.position != Words(rules, comps[c].races[i].starters[k].position)
          || o.observations.None?
          || ObservationBy(rules, comps[c].races[i], comps[c].races[i].starters[k]) !in o.observations.value);
    assert !Tells(rules, comps[c].races[i], comps[c].races[i].starters[k], o);
    assert row.horse == IdText(rules, true, comps[c].races[i].starters[k].horseId);
  }

  lemma SameReads(rules: Rules)
    ensures Reads(rules, true, Same)
  {}

  lemma ExpectedTargets(rules: Rules, races: seq<Materialized>)
    requires ExpectedOkUpTo(rules, races, |races|)
    ensures TargetsKnown(rules, races) && GroupsOk(Sightings(rules, races, Same))
    ensures forall i, k | StarterAt(races, i, k) ::
              rules.starts(races[i].starters[k].position) && IsRaceId(RaceText(rules, races[i]))
  {
    hide GroupsOk, SightingsUpTo, IsRaceId;
    forall i, k | StarterAt(races, i, k)
      ensures rules.target(races[i].race).Some?
      ensures rules.starts(races[i].starters[k].position) && IsRaceId(RaceText(rules, races[i]))
    {
      assert ExpectedRaceOk(rules, races[i]);
      RaceIdIsText(rules, races[i]);
    }
  }

  /** What is expected of a starter. */
  lemma ExpectedTells(rules: Rules, races: seq<Materialized>, i: int, k: int)
    requires ExpectedOkUpTo(rules, races, |races|) && StarterAt(races, i, k)
    ensures var expected, p := ExpectedOf(Sightings(rules, races, Same)),
                               (races[i].starters[k].horseId, RaceText(rules, races[i]));
      p in expected && Tells(rules, races[i], races[i].starters[k], expected[p])
  {
    hide ExpectedOkUpTo, SightingsUpTo, ExpectedOf, Group, Combine, GroupOk, Words, Tells, Reads, TargetsKnown;
    var cs, horse, race := Sightings(rules, races, Same), races[i].starters[k].horseId, RaceText(rules, races[i]);
    ExpectedTargets(rules, races);
    SameReads(rules);
    StarterTells(rules, races, true, Same, i, k);
    assert GroupOk(Group(cs, horse, race));
    ExpectedByRace(rules, races);
    ExpectedValue(cs, horse, race);
  }

  lemma ExpectedByRace(rules: Rules, races: seq<Materialized>)
    ensures ByRace(Sightings(rules, races, Same))
  {
    SightingsAware(rules, races, Same, |races|);
  }

  /** Whatever is expected was seen by starters. */
  lemma ExpectedOnly(rules: Rules, races: seq<Materialized>, p: Place)
    requires ExpectedOkUpTo(rules, races, |races|) && p in ExpectedOf(Sightings(rules, races, Same))
    ensures var o := ExpectedOf(Sightings(rules, races, Same))[p];
      && o.observations.Some? && IsFirst(o.primary, o.observations.value)
      && forall x | x in o.observations.value :: exists i, k :: SeenAs(rules, races, true, p.0, p.1, x, i, k)
  {
    hide ExpectedOkUpTo, SightingsUpTo, ExpectedOf, Group, Combine, GroupOk, Words, SeenAs, Reads, TargetsKnown,
         IsFirst;
    var cs := Sightings(rules, races, Same);
    ExpectedTargets(rules, races);
    SameReads(rules);
    ExpectedByRace(rules, races);
    ExpectedValue(cs, p.0, p.1);
    assert GroupOk(Group(cs, p.0, p.1));
    GroupTells(rules, races, true, Same, p.0, p.1);
  }

  /** The occurrence at a place of a ledger without doubly filled places. */
  lemma CellAtPlace(rows: seq<SeedRow>, p: Place)
    requires DistinctPlaces(Contribs(rows))
    ensures p in TableOf(Contribs(rows)) <==>
              exists row, o :: row in rows && o in row.occurrences && p == (row.horse, o.sem.race)
    ensures forall row, o | row in rows && o in row.occurrences && p == (row.horse, o.sem.race) ::
              p in TableOf(Contribs(rows)) && TableOf(Contribs(rows))[p] == o
  {
    hide KeyOf, Contribs, DistinctPlaces, TableOf;
    var cs := Contribs(rows);
    TableKeys(cs);
    forall row, o | row in rows && o in row.occurrences && p == (row.horse, o.sem.race)
      ensures p in TableOf(cs) && TableOf(cs)[p] == o
    {
      var c := Contribution(row.horse, KeyOf(o), o);
      CellsAreRows(rows, c);
      TableHolds(cs, c);
    }
    if p in TableOf(cs) {
      var c :| c in cs && PlaceOf(c) == p;
      CellsAreRows(rows, c);
    }
  }

  /** A ledger that agrees with what is expected tells of every starter. */
  lemma AgreeingTellsAll(rules: Rules, races: seq<Materialized>, rows: seq<SeedRow>)
    requires ExpectedOkUpTo(rules, races, |races|) && DistinctPlaces(Contribs(rows))
    requires var expected, t := ExpectedOf(Sightings(rules, races, Same)), TableOf(Contribs(rows));
      forall p | p in expected ::
        && p in t && t[p].sem == expected[p].sem && t[p].observations.Some?
        && forall i | 0 <= i < |ListOf(expected[p])| :: ListOf(expected[p])[i] in ListOf(t[p])
    ensures TellsAll(rules, races, true, rows)
  {
    hide ExpectedOkUpTo, SightingsUpTo, ExpectedOf, Words, Contribs, TableOf, DistinctPlaces;
    var expected, t := ExpectedOf(Sightings(rules, races, Same)), TableOf(Contribs(rows));
    forall i, k | StarterAt(races, i, k)
      ensures var p := (races[i].starters[k].horseId, RaceText(rules, races[i]));
        p in t && Tells(rules, races[i], races[i].starters[k], t[p])
    {
      ExpectedTells(rules, races, i, k);
      var p, x := (races[i].starters[k].horseId, RaceText(rules, races[i])),
                  ObservationBy(rules, races[i], races[i].starters[k]);
      var j :| 0 <= j < |ListOf(expected[p])| && ListOf(expected[p])[j] == x;
      assert x in ListOf(t[p]);
    }
    hide Tells;
    forall i, k | StarterAt(races, i, k)
      ensures exists row, o :: row in rows && row.horse == IdText(rules, true, races[i].starters[k].horseId)
                               && o in row.occurrences && Tells(rules, races[i], races[i].starters[k], o)
    {
      var p := (races[i].starters[k].horseId, RaceText(rules, races[i]));
      CellAtPlace(rows, p);
      var row, o :| row in rows && o in row.occurrences && p == (row.horse, o.sem.race);
      assert t[p] == o;
    }
    forall i, k, row, o | StarterAt(races, i, k) && row in rows && o in row.occurrences
                          && row.horse == IdText(rules, true, races[i].starters[k].horseId)
                          && o.sem.race == RaceText(rules, races[i])
      ensures Tells(rules, races[i], races[i].starters[k], o)
    {
      CellAtPlace(rows, (row.horse, o.sem.race));
    }
  }

  lemma PassesTellsSource(rules: Rules, m: Component, cells: seq<Contribution>)
    requires Passes(rules, m, cells)
    ensures TellsAll(rules, m.races, true, m.source) && TellsOnly(rules, m.races, true, m.source)
  {
    hide ExpectedOkUpTo, SightingsUpTo, ExpectedOf, Words, Contribs, TableOf, DistinctPlaces, ProviderOk, CellOk,
         TellsAll, SeenAs, IsFirst, Provider;
    var expected, t := ExpectedOf(Sightings(rules, m.races, Same)), TableOf(Contribs(m.source));
    forall p | p in expected
      ensures p in t && t[p] == expected[p] && t[p].observations.Some?
      ensures forall i | 0 <= i < |ListOf(expected[p])| :: ListOf(expected[p])[i] in ListOf(t[p])
    {
      assert PlaceCovered(p, expected, t, TableOf(Provider(cells, |cells|)));
      ExpectedOnly(rules, m.races, p);
    }
    AgreeingTellsAll(rules, m.races, m.source);
    forall row, o | row in m.source && o in row.occurrences
      ensures o.observations.Some? && IsFirst(o.primary, o.observations.value)
      ensures forall x | x in o.observations.value ::
                exists i, k :: SeenAs(rules, m.races, true, row.horse, o.sem.race, x, i, k)
    {
      CellAtPlace(m.source, (row.horse, o.sem.race));
      ExpectedOnly(rules, m.races, (row.horse, o.sem.race));
    }
  }

  /** Every row that a component gives rise to names a merged occurrence that lists observations, the
      first of which the component made. */
  lemma RowsNameOwned(rules: Rules, m: Component, cells: seq<Contribution>, k: Key) returns (d: Contribution)
    requires Passes(rules, m, cells) && k in RowsOf(rules, m, cells)
    ensures d in cells && d.occ.observations.Some? && KeyFor(d) == k
    ensures exists i, j :: SeenAs(rules, m.races, true, d.horse, d.occ.sem.race, d.occ.primary, i, j)
  {
    hide ExpectedOkUpTo, SightingsUpTo, ExpectedOf, Words, Contribs, TableOf, DistinctPlaces, CellOk, TableOk, Covers,
         SeenAs, Provider, Observed, IsFirst;
    var expected, t := ExpectedOf(Sightings(rules, m.races, Same)), TableOf(Provider(cells, |cells|));
    var p :| p in Owned(expected, t) && RowKey(p, t) == k;
    d := ProviderCell(cells, p);
    ExpectedOnly(rules, m.races, p);
  }

  lemma ProviderCell(cells: seq<Contribution>, p: Place) returns (d: Contribution)
    requires ProviderOk(cells, |cells|) && p in TableOf(Provider(cells, |cells|))
    ensures d in cells && d.occ.observations.Some? && PlaceOf(d) == p
    ensures TableOf(Provider(cells, |cells|))[p] == d.occ
  {
    hide Observed, DistinctPlaces, Provider, TableOf;
    var ps := Provider(cells, |cells|);
    TableKeys(ps);
    d :| d in ps && PlaceOf(d) == p;
    TableHolds(ps, d);
    ProviderMembers(cells, |cells|, d);
  }

  lemma {:induction false} ProviderMembers(cells: seq<Contribution>, n: nat, d: Contribution)
    requires n <= |cells|
    ensures d in Provider(cells, n) <==> d in cells[..n] && d.occ.observations.Some?
  {
    if n > 0 {
      ProviderMembers(cells, n - 1, d);
      assert cells[..n] == cells[..n - 1] + [cells[n - 1]];
    }
  }

  lemma KeysNameCells(cells: seq<Contribution>, c: Contribution, d: Contribution)
    requires DistinctKeysFor(cells) && c in cells && d in cells && KeyFor(c) == KeyFor(d)
    ensures c == d
  {
    var i :| 0 <= i < |cells| && cells[i] == c;
    var j :| 0 <= j < |cells| && cells[j] == d;
  }

  /** Whoever made the primary observation of a merged occurrence has a row for it. */
  lemma MakersHaveRows(rules: Rules, m: Component, cells: seq<Contribution>, c: Contribution, i: int, k: int)
    requires Passes(rules, m, cells) && c in cells && c.occ.observations.Some?
    requires SeenAs(rules, m.races, true, c.horse, c.occ.sem.race, c.occ.primary, i, k)
    ensures KeyFor(c) in RowsOf(rules, m, cells)
  {
    hide ExpectedOkUpTo, SightingsUpTo, ExpectedOf, Words, Contribs, TableOf, DistinctPlaces, CellOk, TableOk,
         Provider, Observed, IsFirst;
    var expected, ps, p := ExpectedOf(Sightings(rules, m.races, Same)), Provider(cells, |cells|), PlaceOf(c);
    ExpectedTells(rules, m.races, i, k);
    assert PlaceCovered(p, expected, TableOf(Contribs(m.source)), TableOf(ps));
    assert cells[..|cells|] == cells;
    ProviderMembers(cells, |cells|, c);
    TableHolds(ps, c);
    assert p in Owned(expected, TableOf(ps)) && RowKey(p, TableOf(ps)) == KeyFor(c);
  }

  /** Every cell of an accepted ledger lists observations, and exactly one component made the first. */
  lemma CellsAreOwned(rules: Rules, comps: seq<Component>, merged: seq<SeedRow>, c: Contribution)
    requires CoverageOk(rules, comps, merged) && c in Contribs(merged)
    ensures c.occ.observations.Some?
    ensures OneMaker(rules, comps, c.horse, c.occ)
  {
    hide Passes, RowsOf, Contribs, KeyComplete, NoOverlap, SeenAs;
    var cells := Contribs(merged);
    assert KeyFor(c) in KeysFor(cells);
    AllKeysMembers(rules, comps, cells, |comps|, KeyFor(c));
    PairwiseOverlap(rules, comps, cells);
    var n :| 0 <= n < |comps| && KeyFor(c) in RowsOf(rules, comps[n], cells);
    var d := RowsNameOwned(rules, comps[n], cells, KeyFor(c));
    KeysNameCells(cells, c, d);
    assert MadePrimary(rules, comps, n, c.horse, c.occ);
    forall m | MadePrimary(rules, comps, m, c.horse, c.occ) ensures m == n {
      var i, k :| SeenAs(rules, comps[m].races, true, c.horse, c.occ.sem.race, c.occ.primary, i, k);
      MakersHaveRows(rules, comps[m], cells, c, i, k);
    }
  }

  lemma PassesTellsMerged(rules: Rules, comps: seq<Component>, merged: seq<SeedRow>, c: int)
    requires CoverageOk(rules, comps, merged) && 0 <= c < |comps| && AllListed(Contribs(merged))
    ensures TellsAll(rules, comps[c].races, true, merged)
  {
    hide ExpectedOkUpTo, SightingsUpTo, ExpectedOf, Words, Contribs, TableOf, DistinctPlaces, CellOk, TableOk,
         TellsAll, Provider, Observed, StableOk, NoOverlap, AllKeys, KeysFor, AllListed;
    var m, cells := comps[c], Contribs(merged);
    assert Passes(rules, m, cells);
    ProviderIsAll(cells, |cells|);
    assert cells[..|cells|] == cells;
    var expected, t := ExpectedOf(Sightings(rules, m.races, Same)), TableOf(cells);
    forall p | p in expected
      ensures p in t && t[p].sem == expected[p].sem && t[p].observations.Some?
      ensures forall i | 0 <= i < |ListOf(expected[p])| :: ListOf(expected[p])[i] in ListOf(t[p])
    {
      assert PlaceCovered(p, expected, TableOf(Contribs(m.source)), t);
      var d := ProviderCell(cells, p);
    }
    AgreeingTellsAll(rules, m.races, merged);
  }

  lemma MergedIsOwned(rules: Rules, comps: seq<Component>, merged: seq<SeedRow>)
    requires CoverageOk(rules, comps, merged)
    ensures forall row, o | row in merged && o in row.occurrences ::
              o.observations.Some? && OneMaker(rules, comps, row.horse, o)
    ensures AllListed(Contribs(merged))
  {
    hide Contribs, OneMaker, CoverageOk, KeyOf;
    forall row, o | row in merged && o in row.occurrences
      ensures o.observations.Some? && OneMaker(rules, comps, row.horse, o)
    {
      CellsAreRows(merged, Contribution(row.horse, KeyOf(o), o));
      CellsAreOwned(rules, comps, merged, Contribution(row.horse, KeyOf(o), o));
    }
    forall c | c in Contribs(merged) ensures c.occ.observations.Some? {
      CellsAreOwned(rules, comps, merged, c);
    }
  }

  lemma ComponentIsTold(rules: Rules, comps: seq<Component>, merged: seq<SeedRow>, c: int)
    requires CoverageOk(rules, comps, merged) && 0 <= c < |comps| && AllListed(Contribs(merged))
    ensures TellsAll(rules, comps[c].races, true, comps[c].source)
    ensures TellsOnly(rules, comps[c].races, true, comps[c].source)
    ensures TellsAll(rules, comps[c].races, true, merged)
    ensures forall i, k | StarterAt(comps[c].races, i, k) ::
              rules.starts(comps[c].races[i].starters[k].position) && IsRaceId(RaceText(rules, comps[c].races[i]))
  {
    hide Contribs, TellsAll, TellsOnly, NoOverlap, StableOk, Passes, IsRaceId, RaceText, ExpectedOkUpTo, AllListed;
    assert Passes(rules, comps[c], Contribs(merged));
    PassesTellsSource(rules, comps[c], Contribs(merged));
    PassesTellsMerged(rules, comps, merged, c);
    PassesExpected(rules, comps[c], Contribs(merged));
    ExpectedTargets(rules, comps[c].races);
  }

  lemma ObservedMeans(o: Occurrence)
    ensures Observed(o) <==>
              && o.observations.Some? && IsFirst(o.primary, o.observations.value)
              && (forall x | x in o.observations.value :: x.seed != "" && x.run != "" && x.payload != "")
              && forall i, j | 0 <= i < j < |o.observations.value| ::
                   o.observations.value[i] != o.observations.value[j]
  {
    hide Less, ObservationText;
    var list := ListOf(o);
    if o.observations.Some? && list != [] {
      InsertAllListing(list, []);
      InsertAllSize(list, []);
      assert list[0] in list;
      var q := InsertAll(list, []);
      FirstOfListing(list, q);
      if IsFirst(o.primary, list) { FirstIsUnique(o.primary, q[0], list); }
    }
  }

  lemma CellsAreSourced(rows: seq<SeedRow>)
    requires forall c | c in Contribs(rows) :: CellOk(c)
    ensures forall row, o | row in rows && o in row.occurrences :: Sourced(row, o)
  {
    hide Contribs, Observed, IsFirst, KeyOf;
    forall row, o | row in rows && o in row.occurrences ensures Sourced(row, o) {
      var c := Contribution(row.horse, KeyOf(o), o);
      CellsAreRows(rows, c);
      assert CellOk(c);
      ObservedMeans(o);
    }
  }

  lemma LedgersAreSourced(rules: Rules, comps: seq<Component>, merged: seq<SeedRow>, c: int)
    requires CoverageOk(rules, comps, merged) && 0 <= c < |comps| && AllListed(Contribs(merged))
    ensures WellSourced(comps[c].source) && WellSourced(merged)
  {
    hide Contribs, Sourced, ExpectedOkUpTo, Covers, Observed, NoOverlap, AllKeys, KeysFor;
    var cells := Contribs(merged);
    assert Passes(rules, comps[c], cells);
    ProviderIsAll(cells, |cells|);
    assert cells[..|cells|] == cells;
    forall d | d in cells ensures CellOk(d) {
      var i :| 0 <= i < |cells| && cells[i] == d;
      assert KeyComplete(cells[i]);
    }
    CellsAreSourced(merged);
    CellsAreSourced(comps[c].source);
  }

  /** An accepted audit is one in terms of races and starters. */
  lemma CoverageIsAudited(rules: Rules, comps: seq<Component>, merged: seq<SeedRow>)
    ensures CoverageOk(rules, comps, merged) ==> Audited(rules, comps, merged) && !Drifts(rules, comps, merged)
  {
    hide Contribs, TellsAll, TellsOnly, OneMaker, CoverageOk, IsRaceId, RaceText, Drifts, AllListed;
    if Drifts(rules, comps, merged) { DriftIsNotAudited(rules, comps, merged); }
    if CoverageOk(rules, comps, merged) {
      MergedIsOwned(rules, comps, merged);
      forall c | 0 <= c < |comps|
        ensures TellsAll(rules, comps[c].races, true, comps[c].source)
        ensures TellsOnly(rules, comps[c].races, true, comps[c].source)
        ensures TellsAll(rules, comps[c].races, true, merged)
        ensures forall i, k | StarterAt(comps[c].races, i, k) ::
                  rules.starts(comps[c].races[i].starters[k].position) && IsRaceId(RaceText(rules, comps[c].races[i]))
      {
        ComponentIsTold(rules, comps, merged, c);
      }
    }
  }

  lemma SomeComponent(rules: Rules, comps: seq<Component>, merged: seq<SeedRow>)
    requires CoverageOk(rules, comps, merged)
    ensures |comps| > 0
  {}

  lemma AuditedIsSourced(rules: Rules, comps: seq<Component>, merged: seq<SeedRow>)
    requires CoverageOk(rules, comps, merged)
    ensures WellSourced(merged) && forall c | 0 <= c < |comps| :: WellSourced(comps[c].source)
  {
    hide Contribs, WellSourced, CoverageOk, AllListed, OneMaker;
    MergedIsOwned(rules, comps, merged);
    SomeComponent(rules, comps, merged);
    LedgersAreSourced(rules, comps, merged, 0);
    forall c | 0 <= c < |comps| ensures WellSourced(comps[c].source) {
      LedgersAreSourced(rules, comps, merged, c);
    }
  }

  lemma PassesExpected(rules: Rules, m: Component, cells: seq<Contribution>)
    requires Passes(rules, m, cells)
    ensures ExpectedOkUpTo(rules, m.races, |m.races|)
  {}

  /** `build_coverage` for targeted materialisations. */
  method BuildCoverage(rules: Rules, comps: seq<Component>, merged: seq<SeedRow>)
    returns (r: Result<seq<Key>, string>)
    ensures r.Ok? <==> CoverageOk(rules, comps, merged)
    ensures r.Ok? ==> (set k | k in r.value) == KeysFor(Contribs(merged))
    ensures r.Ok? ==> |r.value| == |KeysFor(Contribs(merged))|
    ensures r.Ok? ==> Audited(rules, comps, merged)
    ensures r.Ok? ==> WellSourced(merged) && forall c | 0 <= c < |comps| :: WellSourced(comps[c].source)
    ensures Drifts(rules, comps, merged) ==> r.Err?
  {
    hide Audited, Drifts, WellSourced, StableOk, Passes, RowsOf, Contribs, NoOverlap, AllKeys, DistinctShas;
    if comps == [] { return Err("coverage requires at least one paired authority component"); }
    var stable := StableOccurrences(merged);
    if stable.Err? { return Err(stable.error); }
    var cells := stable.value;
    var covered := CoverAll(rules, comps, cells);
    if covered.Err? { return Err(covered.error); }
    var rows := covered.value;
    var keys := set k | k in rows;
    var stableKeys := set c | c in cells :: KeyFor(c);
    var distinct := HaveDistinctShas(comps);
    CoverageIsAudited(rules, comps, merged);
    if |rows| != |keys| || keys != stableKeys || !distinct {
      return Err("component approvals overlap or do not cover the exact stable ledger");
    }
    AuditedIsSourced(rules, comps, merged);
    return Ok(rows);
  }
}
