/** Build, merge and cover compose: what the coverage audit accepts when a stable ledger is the
    merge of ledgers built from materialisations (runtime/research/
    build_stable_id_reconciliation_coverage.py over the builder and the merger). */
module RunnerLineage {
  import opened TextOrder
  import opened CanonicalText
  import opened RunnerOccurrences
  import opened RunnerLedgerMerge
  import opened RunnerLedgerLaws
  import opened RunnerLedgerBuild
  import opened RunnerCoverage

  function CellOf(horse: string, o: Occurrence): Contribution {
    Contribution(horse, KeyOf(o), o)
  }

  // ---------------------------------------------------------------- places of emitted rows

  /** No horse has two occurrences in one race. */
  ghost predicate RacesDiffer(occs: map<string, Occurrence>) {
    forall k, l | k in occs && l in occs && k != l :: occs[k].sem.race != occs[l].sem.race
  }

  lemma {:induction false} InOrderCells(row: SeedRow, occs: map<string, Occurrence>, keys: seq<string>)
    requires Ascending(keys, Same) && RacesDiffer(occs)
    requires forall k | k in keys :: k in occs
    requires row.occurrences == InOrder(occs, keys)
    ensures DistinctPlaces(RowContribs(row))
    ensures forall c :: c in RowContribs(row) <==> exists k :: k in keys && c == CellOf(row.horse, occs[k])
    decreases keys
  {
    hide KeyOf, Less, RowContribs, DistinctPlaces;
    if keys == [] {
      NoCells(row);
    } else {
      var front, last := keys[..|keys| - 1], keys[|keys| - 1];
      AscendingFront(keys);
      var row' := row.(occurrences := InOrder(occs, front));
      InOrderCells(row', occs, front);
      RowContribsSnoc(row, row'.occurrences, occs[last]);
      var c0 := CellOf(row.horse, occs[last]);
      DistinctSnoc(RowContribs(row'), c0);
      assert forall c :: c in RowContribs(row) <==> c in RowContribs(row') || c == c0;
      forall c | c in RowContribs(row') ensures PlaceOf(c) != PlaceOf(c0) {
        var k :| k in front && c == CellOf(row.horse, occs[k]);
      }
    }
  }

  lemma NoCells(row: SeedRow)
    requires row.occurrences == []
    ensures RowContribs(row) == [] && DistinctPlaces(RowContribs(row))
  {}

  /** Which cells the rows of a ledger contain. */
  ghost predicate CellIn(merged: map<string, Entry>, c: Contribution) {
    && c.horse in merged
    && exists k :: k in merged[c.horse].occurrences && c == CellOf(c.horse, merged[c.horse].occurrences[k])
  }

  lemma RowCells(merged: map<string, Entry>, horse: string)
    requires horse in merged && RacesDiffer(merged[horse].occurrences)
    ensures var row := EmitRow(horse, merged[horse]);
      && DistinctPlaces(RowContribs(row))
      && forall c :: c in RowContribs(row) <==> c.horse == horse && CellIn(merged, c)
  {
    hide KeyOf, Less, RowContribs, DistinctPlaces, RacesDiffer;
    var occs, row := merged[horse].occurrences, EmitRow(horse, merged[horse]);
    SortedKeys(occs.Keys);
    InOrderCells(row, occs, SortedStrings(occs.Keys));
    forall c ensures c in RowContribs(row) <==> c.horse == horse && CellIn(merged, c) {
      if c.horse == horse && CellIn(merged, c) {
        var k :| k in occs && c == CellOf(horse, occs[k]);
        assert k in SortedStrings(occs.Keys);
      }
    }
  }

  lemma {:induction false} EmitRowsCells(merged: map<string, Entry>, horses: seq<string>)
    requires Ascending(horses, Same) && forall h | h in horses :: h in merged
    requires forall h | h in merged :: RacesDiffer(merged[h].occurrences)
    ensures DistinctPlaces(Contribs(EmitRows(merged, horses)))
    ensures forall c :: c in Contribs(EmitRows(merged, horses)) <==> c.horse in horses && CellIn(merged, c)
  {
    hide KeyOf, Less, RowContribs, DistinctPlaces, RacesDiffer, CellIn, EmitRow, Contribs;
    if horses == [] {
      assert DistinctPlaces(Contribs([])) && Contribs([]) == [] by { NothingEmitted(); }
    } else {
      var front, last := horses[..|horses| - 1], horses[|horses| - 1];
      AscendingFront(horses);
      EmitRowsCells(merged, front);
      var rows, row := EmitRows(merged, front), EmitRow(last, merged[last]);
      ContribsSnoc(rows, row);
      RowCells(merged, last);
      DistinctAppend(Contribs(rows), RowContribs(row));
      assert forall c :: c in Contribs(rows) + RowContribs(row) <==> c in Contribs(rows) || c in RowContribs(row);
    }
  }

  lemma NothingEmitted()
    ensures DistinctPlaces(Contribs([])) && Contribs([]) == []
  {}

  /** An emitted ledger has one cell for every occurrence and never two at one place. */
  lemma EmitCells(merged: map<string, Entry>)
    requires forall h | h in merged :: RacesDiffer(merged[h].occurrences)
    ensures DistinctPlaces(Contribs(Emit(merged)))
    ensures forall c :: c in Contribs(Emit(merged)) <==> CellIn(merged, c)
  {
    hide Less, Contribs, DistinctPlaces, RacesDiffer;
    SortedKeys(merged.Keys);
    EmitRowsCells(merged, SortedStrings(merged.Keys));
  }

  // ---------------------------------------------------------------- built ledgers

  lemma GroupRace(cs: seq<Contribution>, horse: string, key: string)
    requires ByRace(cs) && GroupsOk(cs) && Group(cs, horse, key) != []
    ensures Combine(Group(cs, horse, key)).sem.race == key
  {
    var g := Group(cs, horse, key);
    GroupMembers(cs, horse, key);
    assert g[0] in g && Contribution(horse, key, g[0]) in cs;
    assert GroupOk(g);
    CombineObservations(g);
  }

  lemma BuiltRacesDiffer(cs: seq<Contribution>, batch: string, horse: string)
    requires ByRace(cs) && GroupsOk(cs) && horse in HorsesIn(cs)
    ensures RacesDiffer(Built(cs, batch)[horse].occurrences)
  {
    hide Group, Combine, ByRace, GroupsOk;
    var occs := OccurrencesOf(cs, horse);
    forall k | k in occs ensures occs[k].sem.race == k {
      KeysOfGroup(cs, horse, k);
      GroupRace(cs, horse, k);
    }
  }

  /** The ledger of a batch holds, at every place, exactly the occurrence expected there. */
  lemma BuiltTable(cs: seq<Contribution>, batch: string)
    requires ByRace(cs) && GroupsOk(cs)
    ensures DistinctPlaces(Contribs(Emit(Built(cs, batch))))
    ensures TableOf(Contribs(Emit(Built(cs, batch)))) == ExpectedOf(cs)
  {
    hide Group, Combine, ByRace, GroupsOk, Emit, Contribs, DistinctPlaces, TableOf, ExpectedOf, KeyOf;
    var m := Built(cs, batch);
    var ds := Contribs(Emit(m));
    forall h | h in m ensures RacesDiffer(m[h].occurrences) {
      BuiltRacesDiffer(cs, batch, h);
    }
    EmitCells(m);
    forall p: Place
      ensures p in Places(ds) <==> p in ExpectedOf(cs)
      ensures p in Places(ds) ==> p in TableOf(ds) && p in ExpectedOf(cs) && TableOf(ds)[p] == ExpectedOf(cs)[p]
    {
      BuiltAt(cs, batch, p);
    }
    TableKeys(ds);
  }

  lemma HorseOfGroup(cs: seq<Contribution>, horse: string, key: string)
    requires Group(cs, horse, key) != []
    ensures horse in HorsesIn(cs)
  {
    GroupMembers(cs, horse, key);
    assert Group(cs, horse, key)[0] in Group(cs, horse, key);
  }

  lemma BuiltAt(cs: seq<Contribution>, batch: string, p: Place)
    requires ByRace(cs) && GroupsOk(cs)
    requires DistinctPlaces(Contribs(Emit(Built(cs, batch))))
    requires forall c :: c in Contribs(Emit(Built(cs, batch))) <==> CellIn(Built(cs, batch), c)
    ensures var ds := Contribs(Emit(Built(cs, batch)));
      && (p in Places(ds) <==> p in ExpectedOf(cs))
      && (p in Places(ds) ==> p in TableOf(ds) && TableOf(ds)[p] == ExpectedOf(cs)[p])
  {
    hide Group, Combine, ByRace, GroupsOk, Emit, Contribs, DistinctPlaces, TableOf, ExpectedOf, KeyOf;
    var m, ds := Built(cs, batch), Contribs(Emit(Built(cs, batch)));
    ExpectedValue(cs, p.0, p.1);
    KeysOfGroup(cs, p.0, p.1);
    if p in ExpectedOf(cs) {
      HorseOfGroup(cs, p.0, p.1);
      GroupRace(cs, p.0, p.1);
      var c := CellOf(p.0, Combine(Group(cs, p.0, p.1)));
      assert m[p.0].occurrences[p.1] == c.occ;
      assert c in ds && PlaceOf(c) == p;
      TableHolds(ds, c);
    }
    if p in Places(ds) {
      var c :| c in ds && PlaceOf(c) == p;
      var k :| k in m[c.horse].occurrences && c == CellOf(c.horse, m[c.horse].occurrences[k]);
      KeysOfGroup(cs, c.horse, k);
      GroupRace(cs, c.horse, k);
    }
  }

  // ---------------------------------------------------------------- raw horse ids

  /** Every starter of the first `n` races carries its horse id in normalised form already. */
  predicate RawIdsClean(rules: Rules, races: seq<Materialized>, n: nat)
    requires n <= |races|
  {
    forall i | 0 <= i < n && races[i].Race? :: RaceIdsClean(rules, races[i], |races[i].starters|)
  }

  predicate RaceIdsClean(rules: Rules, m: Materialized, n: nat)
    requires m.Race? && n <= |m.starters|
  {
    forall k | 0 <= k < n :: Clean(rules)(m.starters[k].horseId) == m.starters[k].horseId
  }

  lemma {:induction false} CleanRace(rules: Rules, m: Materialized, n: nat)
    requires m.Race? && n <= |m.starters| && RaceIdsClean(rules, m, n)
    ensures RaceSightings(rules, m, Same, n) == RaceSightings(rules, m, Clean(rules), n)
  {
    hide Clean;
    if n > 0 { CleanRace(rules, m, n - 1); }
  }

  lemma {:induction false} CleanSightings(rules: Rules, races: seq<Materialized>, n: nat)
    requires n <= |races| && RawIdsClean(rules, races, n)
    ensures SightingsUpTo(rules, races, Same, n) == SightingsUpTo(rules, races, Clean(rules), n)
  {
    hide RaceIdsClean, RaceSightings;
    if n > 0 {
      CleanSightings(rules, races, n - 1);
      if races[n - 1].Race? { CleanRace(rules, races[n - 1], |races[n - 1].starters|); }
    }
  }

  lemma {:induction false} StarterSighted(rules: Rules, m: Materialized, idOf: string -> string, n: nat, k: nat)
    requires m.Race? && k < n <= |m.starters|
    ensures SightingOf(rules, m, idOf, m.starters[k]) in RaceSightings(rules, m, idOf, n)
    decreases n
  {
    hide SightingOf;
    if k < n - 1 { StarterSighted(rules, m, idOf, n - 1, k); }
  }

  lemma {:induction false} StarterSightedIn(rules: Rules, races: seq<Materialized>, idOf: string -> string,
                                            n: nat, i: nat, k: nat)
    requires i < n <= |races| && races[i].Race? && k < |races[i].starters|
    ensures SightingOf(rules, races[i], idOf, races[i].starters[k]) in SightingsUpTo(rules, races, idOf, n)
    decreases n
  {
    hide SightingOf;
    if i < n - 1 {
      StarterSightedIn(rules, races, idOf, n - 1, i, k);
    } else {
      StarterSighted(rules, races[i], idOf, |races[i].starters|, k);
    }
  }

  lemma {:induction false} RaceHorsesValid(rules: Rules, m: Materialized, n: nat)
    requires m.Race? && n <= |m.starters| && StartersOk(rules, m, |m.starters|)
    ensures forall c | c in RaceSightings(rules, m, Clean(rules), n) :: IsHorseId(c.horse)
  {
    hide Clean, IsHorseId;
    if n > 0 {
      RaceHorsesValid(rules, m, n - 1);
      assert StarterOk(rules, m.starters[n - 1]);
    }
  }

  /** Every horse of a built ledger has a valid id. */
  lemma {:induction false} HorsesValid(rules: Rules, races: seq<Materialized>, n: nat)
    requires n <= |races| && BuildOk(rules, races)
    ensures forall c | c in SightingsUpTo(rules, races, Clean(rules), n) :: IsHorseId(c.horse)
  {
    hide Clean, IsHorseId, StartersOk, RacesAgree, GroupsOk;
    if n > 0 {
      HorsesValid(rules, races, n - 1);
      assert RaceOk(rules, races[n - 1]);
      if races[n - 1].Race? { RaceHorsesValid(rules, races[n - 1], |races[n - 1].starters|); }
    }
  }

  lemma HorseIdIsNormal(rules: Rules, id: string)
    requires IsHorseId(id)
    ensures Clean(rules)(id) == id
  {
    forall i | 0 <= i < |id| ensures id[i] < '\U{80}' && !IsSpace(id[i]) {
      if i < 4 { assert id[..4][i] == "hrs_"[i]; }
    }
    assert IsAscii(id);
    NormalizeWord(id);
  }

  /** A horse id that is not stored in normalised form is expected under a place that no built
      ledger has. */
  lemma RawIdIsMissed(rules: Rules, races: seq<Materialized>, i: nat, k: nat)
    requires BuildOk(rules, races)
    requires i < |races| && races[i].Race? && k < |races[i].starters|
    requires Clean(rules)(races[i].starters[k].horseId) != races[i].starters[k].horseId
    ensures ExpectedOf(Sightings(rules, races, Same)).Keys
            != ExpectedOf(Sightings(rules, races, Clean(rules))).Keys
  {
    hide Clean, BuildOk, IsHorseId, Combine, Group;
    var id := races[i].starters[k].horseId;
    if IsHorseId(id) { HorseIdIsNormal(rules, id); }
    HorsesValid(rules, races, |races|);
    StarterSightedIn(rules, races, Same, |races|, i, k);
    SightingsAware(rules, races, Same, |races|);
    var c, cs := SightingOf(rules, races[i], Same, races[i].starters[k]), Sightings(rules, races, Same);
    GroupMembers(cs, c.horse, c.key);
    assert c.occ in Group(cs, c.horse, c.key);
    ExpectedAt(cs, c.horse, c.key);
    assert (c.horse, c.key) in ExpectedOf(cs);
  }

  lemma NotClean(rules: Rules, races: seq<Materialized>)
    ensures !RawIdsClean(rules, races, |races|) ==>
              exists i, k :: 0 <= i < |races| && races[i].Race? && 0 <= k < |races[i].starters|
                && Clean(rules)(races[i].starters[k].horseId) != races[i].starters[k].horseId
  {
    hide Clean;
  }

  lemma ExpectedOfBuilt(rules: Rules, races: seq<Materialized>)
    requires BuildOk(rules, races) && RawIdsClean(rules, races, |races|)
    ensures ExpectedOkUpTo(rules, races, |races|)
    ensures Sightings(rules, races, Same) == Sightings(rules, races, Clean(rules))
  {
    hide RawIdsClean, Clean, Resolved, GroupsOk, SightingsUpTo, IsHorseId;
    CleanSightings(rules, races, |races|);
    forall i | 0 <= i < |races| ensures ExpectedRaceOk(rules, races[i]) {
      assert RaceOk(rules, races[i]);
      if races[i].Race? {
        forall k | 0 <= k < |races[i].starters| ensures rules.starts(races[i].starters[k].position) {
          assert StarterOk(rules, races[i].starters[k]);
        }
      }
    }
  }

  // ---------------------------------------------------------------- merged ledgers

  function SourceRowsUpTo(comps: seq<Component>, n: nat): seq<SeedRow>
    requires n <= |comps|
  {
    if n == 0 then [] else SourceRowsUpTo(comps, n - 1) + comps[n - 1].source
  }

  function SourceRows(comps: seq<Component>): seq<SeedRow> {
    SourceRowsUpTo(comps, |comps|)
  }

  /** The component's stable ledger is the one that the builder made from its materialisation. */
  ghost predicate FromBatch(rules: Rules, m: Component) {
    && BuildOk(rules, m.races)
    && exists batch :: m.source == Emit(Built(Sightings(rules, m.races, Clean(rules)), batch))
  }

  /** All ledgers were built and the merger accepts them together. */
  ghost predicate Lineage(rules: Rules, comps: seq<Component>) {
    (forall i | 0 <= i < |comps| :: FromBatch(rules, comps[i])) && Accepts(SourceRows(comps))
  }

  ghost function MergedLedger(comps: seq<Component>): seq<SeedRow> {
    Emit(Merged(SourceRows(comps)))
  }

  lemma BuiltSightings(rules: Rules, races: seq<Materialized>)
    requires BuildOk(rules, races)
    ensures ByRace(Sightings(rules, races, Clean(rules))) && GroupsOk(Sightings(rules, races, Clean(rules)))
  {
    SightingsAware(rules, races, Clean(rules), |races|);
  }

  lemma SourceTable(rules: Rules, m: Component)
    requires FromBatch(rules, m)
    ensures DistinctPlaces(Contribs(m.source))
    ensures TableOf(Contribs(m.source)) == ExpectedOf(Sightings(rules, m.races, Clean(rules)))
  {
    hide BuildOk, Emit, Built, Sightings, ExpectedOf, TableOf, Contribs, DistinctPlaces;
    var batch :| m.source == Emit(Built(Sightings(rules, m.races, Clean(rules)), batch));
    BuiltSightings(rules, m.races);
    BuiltTable(Sightings(rules, m.races, Clean(rules)), batch);
  }

  lemma {:induction false} SourceIsPart(comps: seq<Component>, n: nat)
    requires n <= |comps|
    ensures forall i, row | 0 <= i < n && row in comps[i].source :: row in SourceRowsUpTo(comps, n)
    ensures forall i, c | 0 <= i < n && c in Contribs(comps[i].source) :: c in Contribs(SourceRowsUpTo(comps, n))
    ensures forall c | c in Contribs(SourceRowsUpTo(comps, n)) ::
              exists i :: 0 <= i < n && c in Contribs(comps[i].source)
  {
    hide Contribs;
    if n > 0 {
      SourceIsPart(comps, n - 1);
      ContribsAppend(SourceRowsUpTo(comps, n - 1), comps[n - 1].source);
    } else {
      assert Contribs(SourceRowsUpTo(comps, 0)) == [] by { NothingEmitted(); }
    }
  }

  lemma ValidIsObserved(o: Occurrence)
    requires OccurrenceOk(o) && o.observations.Some?
    ensures Observed(o) && o.sem.race != "" && o.primary.seed != ""
  {}

  lemma MergedCell(rows: seq<SeedRow>, c: Contribution)
    requires Accepts(rows) && AllListed(Contribs(rows))
    ensures c in Contribs(Emit(Merged(rows))) ==>
              && Group(Contribs(rows), c.horse, c.key) != []
              && c.occ == Combine(Group(Contribs(rows), c.horse, c.key))
              && c.key == KeyOf(c.occ)
              && OccurrenceOk(c.occ) && c.occ.observations.Some? && c.horse != ""
  {
    hide OccurrenceOk, KeyOf, IdentityOf, Group, Contribs, Emit, GroupOk;
    var cs, cells := Contribs(rows), Contribs(Emit(Merged(rows)));
    EmittedSummarises(rows);
    if c in cells {
      CombinedIsValid(cs, c.horse, c.key);
      var g := Group(cs, c.horse, c.key);
      assert Contribution(c.horse, c.key, g[0]) in cs;
      assert GroupOk(g);
      CombineObservations(g);
      ContribHorses(rows);
      assert c.horse in Horses(rows);
    }
  }

  lemma MergedRacesDiffer(rows: seq<SeedRow>, horse: string)
    requires Accepts(rows) && AllListed(Contribs(rows)) && horse in Horses(rows)
    ensures RacesDiffer(Merged(rows)[horse].occurrences)
  {
    hide OccurrenceOk, IdentityOf, Group, Contribs, Emit, GroupOk, Combine;
    var occs, cs := Merged(rows)[horse].occurrences, Contribs(rows);
    forall k | k in occs ensures KeyOf(occs[k]) == k && occs[k].observations.Some? {
      KeysOfGroup(cs, horse, k);
      CombinedIsValid(cs, horse, k);
      GroupListed(cs, horse, k);
    }
  }

  lemma GroupListed(cs: seq<Contribution>, horse: string, key: string)
    requires AllListed(cs) && ContribsOk(cs) && Group(cs, horse, key) != []
    ensures Combine(Group(cs, horse, key)).observations.Some?
  {
    GroupMembers(cs, horse, key);
    assert Group(cs, horse, key)[0] in Group(cs, horse, key);
  }

  /** A merged ledger of provider occurrences passes every check on the ledger itself. */
  lemma MergedIsCoverable(rows: seq<SeedRow>)
    requires Accepts(rows) && AllListed(Contribs(rows))
    ensures var e := Emit(Merged(rows)); var cells := Contribs(e);
      && StableOk(e) && DistinctPlaces(cells) && ProviderOk(cells, |cells|)
      && Provider(cells, |cells|) == cells
  {
    hide OccurrenceOk, KeyOf, Group, Contribs, Emit, Combine, Observed, ContribsOk, RacesDiffer;
    var e := Emit(Merged(rows));
    var cells := Contribs(e);
    forall h | h in Merged(rows) ensures RacesDiffer(Merged(rows)[h].occurrences) {
      MergedRacesDiffer(rows, h);
    }
    EmitCells(Merged(rows));
    forall i | 0 <= i < |cells|
      ensures Observed(cells[i].occ) && KeyComplete(cells[i]) && cells[i].occ.observations.Some?
    {
      assert cells[i] in cells;
      MergedCell(rows, cells[i]);
      ValidIsObserved(cells[i].occ);
    }
    assert AllListed(cells);
    ProviderIsAll(cells, |cells|);
    assert cells[..|cells|] == cells;
    EmittedRowsOk(rows);
    forall i | 0 <= i < |e| ensures e[i].horse != "" && e[i].occurrences != [] {
      assert e[i] in e && RowOk(e[i]);
    }
  }

  /** What the merge makes of one of its occurrences: the same facts, at least its observations. */
  lemma MergedFrom(rows: seq<SeedRow>, horse: string, o: Occurrence)
    requires Accepts(rows) && AllListed(Contribs(rows)) && CellOf(horse, o) in Contribs(rows)
    ensures var t, p := TableOf(Contribs(Emit(Merged(rows)))), (horse, o.sem.race);
      && Group(Contribs(rows), horse, KeyOf(o)) != []
      && p in t && t[p] == Combine(Group(Contribs(rows), horse, KeyOf(o)))
      && t[p].sem == o.sem
      && (forall i | 0 <= i < |ListOf(o)| :: ListOf(o)[i] in ListOf(t[p]))
  {
    hide OccurrenceOk, KeyOf, Contribs, Emit, Combine, TableOf, Group, Accepts, GroupOk, DistinctPlaces,
         StableOk, ProviderOk, Provider, AllListed, Merged, Places;
    var cs, cells, key := Contribs(rows), Contribs(Emit(Merged(rows))), KeyOf(o);
    MergedIsCoverable(rows);
    GroupMembers(cs, horse, key);
    var g := Group(cs, horse, key);
    assert o in g;
    CombinedAppears(rows, horse, key);
    MemberOfCombined(g, o);
    TableHolds(cells, Contribution(horse, key, Combine(g)));
  }

  lemma CombinedAppears(rows: seq<SeedRow>, horse: string, key: string)
    requires Accepts(rows) && Group(Contribs(rows), horse, key) != []
    ensures Contribution(horse, key, Combine(Group(Contribs(rows), horse, key))) in Contribs(Emit(Merged(rows)))
    ensures GroupOk(Group(Contribs(rows), horse, key))
  {
    hide OccurrenceOk, KeyOf, Contribs, Emit, Combine, Group, GroupOk, RowOk, IdentityOf;
    EmittedSummarises(rows);
    var cells, o := Contribs(Emit(Merged(rows))), Combine(Group(Contribs(rows), horse, key));
    GroupMembers(cells, horse, key);
    assert o in Group(cells, horse, key);
  }

  lemma MemberOfCombined(g: seq<Occurrence>, o: Occurrence)
    requires o in g && GroupOk(g)
    ensures Combine(g).sem == o.sem
    ensures forall i | 0 <= i < |ListOf(o)| :: ListOf(o)[i] in ListOf(Combine(g))
  {
    CombineObservations(g);
    forall i | 0 <= i < |ListOf(o)| ensures ListOf(o)[i] in ListOf(Combine(g)) {
      assert ListOf(o)[i] in ListOf(o);
      assert ListOf(o)[i] in UnionOf(g);
    }
  }

  // ---------------------------------------------------------------- build, merge, cover

  /** What a materialisation put into its ledger. */
  ghost function Made(rules: Rules, m: Component): map<Place, Occurrence> {
    ExpectedOf(Sightings(rules, m.races, Clean(rules)))
  }

  lemma CombinedIsAware(g: seq<Occurrence>)
    requires g != [] && GroupOk(g) && forall o | o in g :: Aware(o)
    ensures Aware(Combine(g))
  {
    CombineObservations(g);
    assert g[0] in g;
  }

  lemma SourceCell(rules: Rules, m: Component, c: Contribution)
    requires FromBatch(rules, m) && c in Contribs(m.source)
    ensures PlaceOf(c) in Made(rules, m) && Made(rules, m)[PlaceOf(c)] == c.occ && Aware(c.occ)
  {
    hide Contribs, TableOf, Combine, Group, GroupOk, DistinctPlaces, BuildOk, FromBatch, SightingsUpTo;
    SourceTable(rules, m);
    TableHolds(Contribs(m.source), c);
    var cs, p := Sightings(rules, m.races, Clean(rules)), PlaceOf(c);
    BatchIsBuilt(rules, m);
    BuiltSightings(rules, m.races);
    GroupIsAware(cs, p.0, p.1);
    assert GroupOk(Group(cs, p.0, p.1));
    CombinedIsAware(Group(cs, p.0, p.1));
  }

  lemma BatchIsBuilt(rules: Rules, m: Component)
    requires FromBatch(rules, m)
    ensures BuildOk(rules, m.races)
  {}

  lemma {:induction false} KeysAreOwn(rows: seq<SeedRow>)
    ensures forall c | c in Contribs(rows) :: c.key == KeyOf(c.occ)
  {
    hide KeyOf;
    if rows != [] { KeysAreOwn(rows[..|rows| - 1]); }
  }

  /** A place that a materialisation filled, as a cell of the ledger it made. */
  lemma MadeCell(rules: Rules, m: Component, p: Place)
    requires FromBatch(rules, m) && p in Made(rules, m)
    ensures CellOf(p.0, Made(rules, m)[p]) in Contribs(m.source)
    ensures Made(rules, m)[p].sem.race == p.1
  {
    hide Contribs, ExpectedOf, DistinctPlaces, FromBatch, SightingsUpTo, KeyOf;
    SourceTable(rules, m);
    var ds := Contribs(m.source);
    TableKeys(ds);
    var c :| c in ds && PlaceOf(c) == p;
    TableHolds(ds, c);
    KeysAreOwn(m.source);
  }

  lemma SourcesAreListed(rules: Rules, comps: seq<Component>)
    requires Lineage(rules, comps)
    ensures AllListed(Contribs(SourceRows(comps)))
  {
    hide Contribs, FromBatch, Accepts, Made, Aware;
    SourceIsPart(comps, |comps|);
    forall c | c in Contribs(SourceRows(comps)) ensures c.occ.observations.Some? {
      var i :| 0 <= i < |comps| && c in Contribs(comps[i].source);
      SourceCell(rules, comps[i], c);
      AwareIsListed(c.occ);
    }
  }

  lemma AwareIsListed(o: Occurrence)
    requires Aware(o)
    ensures o.observations.Some?
  {}

  lemma AcceptedCell(rows: seq<SeedRow>, c: Contribution)
    requires Accepts(rows) && c in Contribs(rows)
    ensures OccurrenceOk(c.occ)
  {}

  lemma AcceptedRow(rows: seq<SeedRow>, row: SeedRow)
    requires Accepts(rows) && row in rows
    ensures row.horse != ""
  {
    assert RowOk(row);
  }

  /** The source ledger of a component passes the checks on source ledgers. */
  lemma SourceIsOk(rules: Rules, comps: seq<Component>, i: nat)
    requires Lineage(rules, comps) && i < |comps|
    ensures TableOk(comps[i].source)
  {
    hide Contribs, FromBatch, Accepts, Made, Aware, Observed, OccurrenceOk, DistinctPlaces, SourceRowsUpTo;
    var m, rows := comps[i], SourceRows(comps);
    SourceIsPart(comps, |comps|);
    SourceTable(rules, m);
    forall row | row in m.source ensures row.horse != "" {
      AcceptedRow(rows, row);
    }
    ContribHorses(m.source);
    forall c | c in Contribs(m.source) ensures CellOk(c) {
      SourceCell(rules, m, c);
      AwareIsListed(c.occ);
      assert c in Contribs(rows);
      AcceptedCell(rows, c);
      ValidIsObserved(c.occ);
      var row :| row in m.source && row.horse == c.horse;
    }
  }

  /** Every occurrence that a component made is found, unchanged in substance, in the merged ledger. */
  lemma MadeIsMerged(rules: Rules, comps: seq<Component>, i: nat, p: Place)
    requires Lineage(rules, comps) && i < |comps| && p in Made(rules, comps[i])
    ensures PlaceCovered(p, Made(rules, comps[i]), TableOf(Contribs(comps[i].source)),
                         TableOf(Contribs(MergedLedger(comps))))
  {
    hide Contribs, FromBatch, Accepts, Combine, Group, TableOf, ExpectedOf, SightingsUpTo, SourceRowsUpTo, KeyOf;
    var m, rows := comps[i], SourceRows(comps);
    SourceTable(rules, m);
    MadeCell(rules, m, p);
    SourceIsPart(comps, |comps|);
    SourcesAreListed(rules, comps);
    MergedFrom(rows, p.0, Made(rules, m)[p]);
  }

  /** A component passes exactly if its starters' horse ids are stored in normalised form: the
      audit compares the ids as they are, while the builder normalises them first. */
  lemma PassesIff(rules: Rules, comps: seq<Component>, i: nat)
    requires Lineage(rules, comps) && i < |comps|
    ensures Passes(rules, comps[i], Contribs(MergedLedger(comps)))
            <==> RawIdsClean(rules, comps[i].races, |comps[i].races|)
  {
    hide Contribs, FromBatch, Accepts, TableOf, ExpectedOf, SightingsUpTo, SourceRowsUpTo, PlaceCovered,
         RawIdsClean, TableOk, ProviderOk, ExpectedOkUpTo, Provider, StableOk, AllListed, BuildOk,
         DistinctPlaces, Emit, Merged;
    var m, cells := comps[i], Contribs(MergedLedger(comps));
    assert FromBatch(rules, m);
    BatchIsBuilt(rules, m);
    SourceIsOk(rules, comps, i);
    SourceTable(rules, m);
    SourcesAreListed(rules, comps);
    MergedIsCoverable(SourceRows(comps));
    if RawIdsClean(rules, m.races, |m.races|) {
      ExpectedOfBuilt(rules, m.races);
      forall p | p in Made(rules, m)
        ensures PlaceCovered(p, Made(rules, m), TableOf(Contribs(m.source)), TableOf(cells))
      {
        MadeIsMerged(rules, comps, i, p);
      }
      assert Covers(Made(rules, m), TableOf(Contribs(m.source)), TableOf(cells));
      assert TableOf(Provider(cells, |cells|)) == TableOf(cells);
    } else {
      NotCleanKeys(rules, m.races);
    }
  }

  lemma NotCleanKeys(rules: Rules, races: seq<Materialized>)
    requires BuildOk(rules, races) && !RawIdsClean(rules, races, |races|)
    ensures ExpectedOf(Sightings(rules, races, Same)).Keys
            != ExpectedOf(Sightings(rules, races, Clean(rules))).Keys
  {
    hide BuildOk, RawIdsClean, ExpectedOf, Clean;
    NotClean(rules, races);
    var i, k :| 0 <= i < |races| && races[i].Race? && 0 <= k < |races[i].starters|
      && Clean(rules)(races[i].starters[k].horseId) != races[i].starters[k].horseId;
    RawIdIsMissed(rules, races, i, k);
  }

  ghost function MergedTable(comps: seq<Component>): map<Place, Occurrence> {
    TableOf(Contribs(MergedLedger(comps)))
  }

  /** The merged occurrences whose primary observation the component made. */
  ghost function OwnedBy(rules: Rules, comps: seq<Component>, i: nat): set<Place>
    requires i < |comps|
  {
    Owned(Made(rules, comps[i]), MergedTable(comps))
  }

  lemma PrimaryIsListed(o: Occurrence)
    requires Observed(o)
    ensures o.primary in ListOf(o)
  {
    InsertAllListing(ListOf(o), []);
    assert InsertAll(ListOf(o), [])[0] in InsertAll(ListOf(o), []);
  }

  /** The primary observation of a merged occurrence was listed by one of its source occurrences. */
  lemma PrimaryHasSource(rows: seq<SeedRow>, c: Contribution)
    requires Accepts(rows) && AllListed(Contribs(rows)) && c in Contribs(Emit(Merged(rows)))
    ensures exists d :: d in Contribs(rows) && PlaceOf(d) == PlaceOf(c) && c.occ.primary in ListOf(d.occ)
  {
    hide OccurrenceOk, KeyOf, Contribs, Emit, Combine, Group, GroupOk, RowOk, Observed, IdentityOf;
    var cs, x := Contribs(rows), c.occ.primary;
    MergedCell(rows, c);
    ValidIsObserved(c.occ);
    PrimaryIsListed(c.occ);
    CombinedAppears(rows, c.horse, c.key);
    var g := Group(cs, c.horse, c.key);
    CombineObservations(g);
    var o :| o in g && x in ListOf(o);
    MemberOfCombined(g, o);
    GroupMembers(cs, c.horse, c.key);
    assert Contribution(c.horse, c.key, o) in cs;
  }

  lemma MergedPlaceCell(comps: seq<Component>, p: Place) returns (c: Contribution)
    requires p in MergedTable(comps) && DistinctPlaces(Contribs(MergedLedger(comps)))
    ensures c in Contribs(MergedLedger(comps)) && PlaceOf(c) == p && MergedTable(comps)[p] == c.occ
  {
    hide Contribs, Emit, DistinctPlaces;
    var cells := Contribs(MergedLedger(comps));
    TableKeys(cells);
    c :| c in cells && PlaceOf(c) == p;
    TableHolds(cells, c);
  }

  /** Every merged occurrence is owned by at least one component. */
  lemma SomeoneOwns(rules: Rules, comps: seq<Component>, p: Place)
    requires Lineage(rules, comps) && p in MergedTable(comps)
    ensures exists i: nat :: i < |comps| && p in OwnedBy(rules, comps, i)
  {
    hide Contribs, Emit, DistinctPlaces, TableOf, Made, FromBatch, Accepts, StableOk, ProviderOk, Provider,
         AllListed, SourceRowsUpTo, Merged;
    SourcesAreListed(rules, comps);
    MergedIsCoverable(SourceRows(comps));
    var c := MergedPlaceCell(comps, p);
    PrimaryHasSource(SourceRows(comps), c);
    var d :| d in Contribs(SourceRows(comps)) && PlaceOf(d) == PlaceOf(c) && c.occ.primary in ListOf(d.occ);
    SourceIsPart(comps, |comps|);
    var i :| 0 <= i < |comps| && d in Contribs(comps[i].source);
    SourceCell(rules, comps[i], d);
    assert p in OwnedBy(rules, comps, i);
  }

  /** With clean ids, the rows of a component name exactly the occurrences that it owns. */
  lemma RowsAreOwned(rules: Rules, comps: seq<Component>, i: nat)
    requires Lineage(rules, comps) && i < |comps| && RawIdsClean(rules, comps[i].races, |comps[i].races|)
    ensures RowsOf(rules, comps[i], Contribs(MergedLedger(comps)))
            == RowKeys(OwnedBy(rules, comps, i), MergedTable(comps))
  {
    hide Contribs, FromBatch, Accepts, TableOf, ExpectedOf, SightingsUpTo, RawIdsClean, DistinctPlaces,
         StableOk, ProviderOk, Provider, AllListed, Emit, Merged, SourceRowsUpTo, BuildOk;
    SourcesAreListed(rules, comps);
    MergedIsCoverable(SourceRows(comps));
    BatchIsBuilt(rules, comps[i]);
    ExpectedOfBuilt(rules, comps[i].races);
    var t := MergedTable(comps);
    assert OwnedKeys(Made(rules, comps[i]), t) == RowKeys(OwnedBy(rules, comps, i), t);
  }

  /** No merged occurrence has a primary observation that two components made. */
  ghost predicate SoleOwners(rules: Rules, comps: seq<Component>) {
    forall i, j | 0 <= i < j < |comps| :: OwnedBy(rules, comps, i) !! OwnedBy(rules, comps, j)
  }

  lemma RowKeysDisjoint(a: set<Place>, b: set<Place>, merged: map<Place, Occurrence>)
    requires a <= merged.Keys && b <= merged.Keys
    ensures RowKeys(a, merged) !! RowKeys(b, merged) <==> a !! b
  {
    if x: Place :| x in a && x in b {
      assert RowKey(x, merged) in RowKeys(a, merged) && RowKey(x, merged) in RowKeys(b, merged);
    }
  }

  ghost predicate AllClean(rules: Rules, comps: seq<Component>) {
    forall i | 0 <= i < |comps| :: RawIdsClean(rules, comps[i].races, |comps[i].races|)
  }

  lemma OverlapIff(rules: Rules, comps: seq<Component>)
    requires Lineage(rules, comps) && AllClean(rules, comps)
    ensures NoOverlap(rules, comps, Contribs(MergedLedger(comps)), |comps|) <==> SoleOwners(rules, comps)
  {
    hide Contribs, Lineage, RawIdsClean, MergedLedger, RowsOf, RowKeys, OwnedBy, MergedTable;
    var cells, t := Contribs(MergedLedger(comps)), MergedTable(comps);
    forall i | 0 <= i < |comps|
      ensures OwnedBy(rules, comps, i) <= t.Keys
      ensures RowsOf(rules, comps[i], cells) == RowKeys(OwnedBy(rules, comps, i), t)
    {
      RowsAreOwned(rules, comps, i);
      OwnedIsMerged(rules, comps, i);
    }
    forall i, j | 0 <= i < j < |comps|
      ensures RowsOf(rules, comps[i], cells) !! RowsOf(rules, comps[j], cells)
              <==> OwnedBy(rules, comps, i) !! OwnedBy(rules, comps, j)
    {
      RowKeysDisjoint(OwnedBy(rules, comps, i), OwnedBy(rules, comps, j), t);
    }
    PairwiseOverlap(rules, comps, cells);
  }

  lemma OwnedIsMerged(rules: Rules, comps: seq<Component>, i: nat)
    requires i < |comps|
    ensures OwnedBy(rules, comps, i) <= MergedTable(comps).Keys
  {}

  lemma MergedKeys(rules: Rules, comps: seq<Component>)
    requires Lineage(rules, comps)
    ensures KeysFor(Contribs(MergedLedger(comps))) == RowKeys(MergedTable(comps).Keys, MergedTable(comps))
  {
    hide Contribs, Emit, DistinctPlaces, Made, FromBatch, Accepts, StableOk, ProviderOk, Provider,
         AllListed, SourceRowsUpTo, Merged;
    SourcesAreListed(rules, comps);
    MergedIsCoverable(SourceRows(comps));
    var cells, t := Contribs(MergedLedger(comps)), MergedTable(comps);
    forall c | c in cells ensures PlaceOf(c) in t && RowKey(PlaceOf(c), t) == KeyFor(c) {
      TableHolds(cells, c);
    }
    forall p | p in t ensures RowKey(p, t) in KeysFor(cells) {
      var c := MergedPlaceCell(comps, p);
      assert KeyFor(c) == RowKey(p, t);
    }
  }

  /** With clean ids, the rows of all components together name every merged occurrence. */
  lemma NothingIsMissed(rules: Rules, comps: seq<Component>)
    requires Lineage(rules, comps) && AllClean(rules, comps)
    ensures AllKeys(rules, comps, Contribs(MergedLedger(comps)), |comps|) == KeysFor(Contribs(MergedLedger(comps)))
  {
    hide Contribs, Lineage, RawIdsClean, MergedLedger, RowsOf, OwnedBy, MergedTable, AllKeys, KeysFor;
    var cells, t := Contribs(MergedLedger(comps)), MergedTable(comps);
    MergedKeys(rules, comps);
    forall k: Key ensures k in AllKeys(rules, comps, cells, |comps|) <==> k in RowKeys(t.Keys, t) {
      AllKeysMembers(rules, comps, cells, |comps|, k);
      if k in AllKeys(rules, comps, cells, |comps|) {
        var i :| 0 <= i < |comps| && k in RowsOf(rules, comps[i], cells);
        RowsAreOwned(rules, comps, i);
        OwnedIsMerged(rules, comps, i);
      }
      if k in RowKeys(t.Keys, t) {
        var p :| p in t && k == RowKey(p, t);
        SomeoneOwns(rules, comps, p);
        var i: nat :| i < |comps| && p in OwnedBy(rules, comps, i);
        RowsAreOwned(rules, comps, i);
        OwnedIsMerged(rules, comps, i);
      }
    }
  }

  lemma LedgerIsStable(rules: Rules, comps: seq<Component>)
    requires Lineage(rules, comps)
    ensures StableOk(MergedLedger(comps))
  {
    hide Accepts, FromBatch, StableOk, ProviderOk, Contribs;
    SourcesAreListed(rules, comps);
    MergedIsCoverable(SourceRows(comps));
  }

  /** Exactly when the audit of a merged ledger by the batches it was built from accepts. */
  lemma CoverageIff(rules: Rules, comps: seq<Component>)
    requires Lineage(rules, comps)
    ensures CoverageOk(rules, comps, MergedLedger(comps)) <==>
              comps != [] && AllClean(rules, comps) && DistinctShas(comps) && SoleOwners(rules, comps)
  {
    hide Contribs, Lineage, RawIdsClean, MergedLedger, RowsOf, AllKeys, KeysFor, Passes, StableOk, NoOverlap,
         SoleOwners, DistinctShas;
    LedgerIsStable(rules, comps);
    forall i | 0 <= i < |comps|
      ensures Passes(rules, comps[i], Contribs(MergedLedger(comps)))
              <==> RawIdsClean(rules, comps[i].races, |comps[i].races|)
    {
      PassesIff(rules, comps, i);
    }
    if AllClean(rules, comps) {
      OverlapIff(rules, comps);
      NothingIsMissed(rules, comps);
    }
  }

  /** No two materialisations made the same observation of a horse in a race. */
  ghost predicate DisjointObservations(rules: Rules, comps: seq<Component>) {
    forall i, j, p, x | 0 <= i < j < |comps| && p in Made(rules, comps[i]) && p in Made(rules, comps[j])
                        && x in ListOf(Made(rules, comps[i])[p]) :: x !in ListOf(Made(rules, comps[j])[p])
  }

  /** Materialisations with disjoint observations: the audit accepts, and every merged occurrence
      is owned by exactly one of them. */
  lemma DisjointBatchesAreCovered(rules: Rules, comps: seq<Component>)
    requires Lineage(rules, comps) && DisjointObservations(rules, comps)
    requires comps != [] && AllClean(rules, comps) && DistinctShas(comps)
    ensures CoverageOk(rules, comps, MergedLedger(comps))
    ensures forall p | p in MergedTable(comps) ::
              exists i: nat :: i < |comps| && p in OwnedBy(rules, comps, i)
                && forall j: nat :: j < |comps| && p in OwnedBy(rules, comps, j) ==> j == i
  {
    hide MergedTable, Made, RawIdsClean, DistinctShas, CoverageOk, Lineage, MergedLedger;
    assert SoleOwners(rules, comps);
    CoverageIff(rules, comps);
    forall p | p in MergedTable(comps)
      ensures exists i: nat :: i < |comps| && p in OwnedBy(rules, comps, i)
                && forall j: nat :: j < |comps| && p in OwnedBy(rules, comps, j) ==> j == i
    {
      SomeoneOwns(rules, comps, p);
      var i: nat :| i < |comps| && p in OwnedBy(rules, comps, i);
      hide Owned;
      assert forall j: nat :: j < |comps| && p in OwnedBy(rules, comps, j) ==> j == i;
    }
  }
}
