/** Merging per-batch runner ledgers (runtime/research/merge_target_runner_stable_id_ledgers.py). */
module RunnerLedgerMerge {
  import opened Alphabets
  import opened Wrappers
  import opened TextOrder
  import opened CanonicalText
  import opened RunnerOccurrences

  /** One ledger row.  A first-generation row names exactly one source batch. */
  datatype SeedRow = SeedRow(
    horse: string, names: seq<string>, batches: seq<string>, occurrences: seq<Occurrence>)

  datatype Source = Source(root: string, sha: string, rows: seq<SeedRow>)

  predicate IsWordChar(c: char) {
    'a' <= c <= 'z' || 'A' <= c <= 'Z' || '0' <= c <= '9'
  }

  predicate IsHorseId(s: string) {
    |s| > 4 && s[..4] == "hrs_" && forall i | 4 <= i < |s| :: IsWordChar(s[i])
  }

  predicate IsRaceId(s: string) {
    |s| > 4 && s[..4] == "rac_" && forall i | 4 <= i < |s| :: IsWordChar(s[i]) || s[i] == '_'
  }

  /** `hrs_` or `rac_` and then letters and digits, in race ids also underscores. */
  lemma IdsMean(s: string)
    ensures IsHorseId(s) <==>
              |s| > 4 && s[..4] == "hrs_" && forall c | c in s[4..] :: c in Letters + Capitals + Digits
    ensures IsRaceId(s) <==>
              |s| > 4 && s[..4] == "rac_" && forall c | c in s[4..] :: c in Letters + Capitals + Digits || c == '_'
  {
    hide Letters, Capitals, Digits;
    if |s| > 4 {
      assert forall i | 4 <= i < |s| :: s[i] == s[4..][i - 4] && s[i] in s[4..];
      forall c | c in s[4..] ensures exists i :: 4 <= i < |s| && s[i] == c {
        var j :| 0 <= j < |s[4..]| && s[4..][j] == c;
        assert s[j + 4] == c;
      }
      forall c ensures c in Letters + Capitals + Digits <==> IsWordChar(c) { AlphaNumericsAre(c); }
    }
  }

  predicate ObservationOk(o: Observation) {
    o.seed != "" && IsSha(o.run) && IsSha(o.payload)
  }

  /** `_validate_occurrence`, including its source observations. */
  predicate OccurrenceOk(o: Occurrence) {
    && IsRaceId(o.sem.race) && IsSha(o.sem.racePayload) && ObservationOk(o.primary)
    && Strip(o.sem.name) != "" && Strip(o.sem.position) != ""
    && (o.observations.Some? ==>
          var list := o.observations.value;
          var ordered := InsertAll(list, []);
          && list != [] && |ordered| == |list| && o.primary == ordered[0]
          && forall i | 0 <= i < |list| :: ObservationOk(list[i]))
  }

  function KeyOf(o: Occurrence): string {
    if o.observations.Some? then "{\"race_id\":" + (Quote(o.sem.race) + "}")
    else "{\"race_id\":" + (Quote(o.sem.race)
         + (",\"source_targeted_seed_id\":" + (Quote(o.primary.seed) + "}")))
  }

  datatype RaceIdentity = RaceIdentity(
    race: string, racePayload: string, target: Target, seed: Option<string>)

  function IdentityOf(o: Occurrence): RaceIdentity {
    RaceIdentity(o.sem.race, o.sem.racePayload, o.sem.target,
                 if o.observations.Some? then None else Some(o.primary.seed))
  }

  /** Equal keys mean the same physical race and, for legacy rows, the same seed. */
  lemma KeysAreInjective(o: Occurrence, p: Occurrence)
    requires KeyOf(o) == KeyOf(p)
    ensures o.observations.Some? == p.observations.Some? && o.sem.race == p.sem.race
    ensures o.observations.None? ==> o.primary.seed == p.primary.seed
  {
    var ot := if o.observations.Some? then "}"
              else ",\"source_targeted_seed_id\":" + (Quote(o.primary.seed) + "}");
    var pt := if p.observations.Some? then "}"
              else ",\"source_targeted_seed_id\":" + (Quote(p.primary.seed) + "}");
    DropPrefix("{\"race_id\":", Quote(o.sem.race) + ot, Quote(p.sem.race) + pt);
    QuoteIsCode(o.sem.race, p.sem.race, ot, pt);
    assert ot[0] == pt[0];
    if o.observations.None? {
      DropPrefix(",\"source_targeted_seed_id\":", Quote(o.primary.seed) + "}", Quote(p.primary.seed) + "}");
      QuoteIsCode(o.primary.seed, p.primary.seed, "}", "}");
    }
  }

  /** One occurrence as it reaches the merge, with the horse and the key it is filed under. */
  datatype Contribution = Contribution(horse: string, key: string, occ: Occurrence)

  function RowContribs(row: SeedRow): seq<Contribution> {
    seq(|row.occurrences|, i requires 0 <= i < |row.occurrences| =>
      Contribution(row.horse, KeyOf(row.occurrences[i]), row.occurrences[i]))
  }

  function Contribs(rows: seq<SeedRow>): seq<Contribution> {
    if rows == [] then [] else Contribs(rows[..|rows| - 1]) + RowContribs(rows[|rows| - 1])
  }

  function RowsUpTo(sources: seq<Source>, n: nat): seq<SeedRow>
    requires n <= |sources|
  {
    if n == 0 then [] else RowsUpTo(sources, n - 1) + sources[n - 1].rows
  }

  function AllRows(sources: seq<Source>): seq<SeedRow> {
    RowsUpTo(sources, |sources|)
  }

  /** The occurrences filed under one horse and key, in order of arrival. */
  function Group(cs: seq<Contribution>, horse: string, key: string): seq<Occurrence> {
    if cs == [] then []
    else
      var c := cs[|cs| - 1];
      Group(cs[..|cs| - 1], horse, key) + (if c.horse == horse && c.key == key then [c.occ] else [])
  }

  ghost predicate GroupsOk(cs: seq<Contribution>) {
    forall horse, key :: GroupOk(Group(cs, horse, key))
  }

  ghost predicate ContribsOk(cs: seq<Contribution>) {
    && (forall c | c in cs :: OccurrenceOk(c.occ) && c.key == KeyOf(c.occ))
    && (forall c, d | c in cs && d in cs && c.key == d.key :: IdentityOf(c.occ) == IdentityOf(d.occ))
    && GroupsOk(cs)
  }

  predicate RowOk(row: SeedRow) {
    && IsHorseId(row.horse) && row.occurrences != []
    && row.batches != [] && Ascending(row.batches, Same)
    && forall i | 0 <= i < |row.batches| :: IsSha(row.batches[i])
  }

  ghost predicate Accepts(rows: seq<SeedRow>) {
    (forall row | row in rows :: RowOk(row)) && ContribsOk(Contribs(rows))
  }

  function SourceKey(source: Source): (string, string) {
    (source.root, source.sha)
  }

  predicate Distinct(sources: seq<Source>) {
    forall i, j | 0 <= i < j < |sources| :: SourceKey(sources[i]) != SourceKey(sources[j])
  }

  predicate Paired(sources: seq<Source>) {
    |sources| >= 2 && Distinct(sources)
  }

  datatype Entry = Entry(names: set<string>, batches: set<string>, occurrences: map<string, Occurrence>)

  function CleanNames(names: seq<string>): set<string> {
    set n | n in names && Strip(n) != "" :: Strip(n)
  }

  ghost function Horses(rows: seq<SeedRow>): set<string> {
    set row | row in rows :: row.horse
  }

  ghost function NamesOf(rows: seq<SeedRow>, horse: string): set<string> {
    set row, n | row in rows && row.horse == horse && n in CleanNames(row.names) :: n
  }

  ghost function BatchesOf(rows: seq<SeedRow>, horse: string): set<string> {
    set row, b | row in rows && row.horse == horse && b in row.batches :: b
  }

  ghost function KeysOf(cs: seq<Contribution>, horse: string): set<string> {
    set c | c in cs && c.horse == horse && Group(cs, horse, c.key) != [] :: c.key
  }

  ghost function OccurrencesOf(cs: seq<Contribution>, horse: string): map<string, Occurrence> {
    map key | key in KeysOf(cs, horse) :: Combine(Group(cs, horse, key))
  }

  /** The merged ledger, described without any order of sources, rows or occurrences. */
  ghost function Merged(rows: seq<SeedRow>): map<string, Entry> {
    map horse | horse in Horses(rows) ::
      Entry(NamesOf(rows, horse), BatchesOf(rows, horse), OccurrencesOf(Contribs(rows), horse))
  }

  lemma GroupSnoc(cs: seq<Contribution>, c: Contribution, horse: string, key: string)
    ensures Group(cs + [c], horse, key)
            == Group(cs, horse, key) + (if c.horse == horse && c.key == key then [c.occ] else [])
  {
    assert (cs + [c])[..|cs + [c]| - 1] == cs;
  }

  lemma {:induction false} GroupAppend(cs: seq<Contribution>, ds: seq<Contribution>, horse: string, key: string)
    ensures Group(cs + ds, horse, key) == Group(cs, horse, key) + Group(ds, horse, key)
  {
    if ds == [] {
      assert cs + ds == cs;
    } else {
      var front, last := ds[..|ds| - 1], ds[|ds| - 1];
      assert cs + ds == (cs + front) + [last] && ds == front + [last];
      GroupSnoc(cs + front, last, horse, key);
      GroupAppend(cs, front, horse, key);
    }
  }

  lemma {:induction false} GroupMembers(cs: seq<Contribution>, horse: string, key: string)
    ensures forall o :: o in Group(cs, horse, key) <==> Contribution(horse, key, o) in cs
  {
    if cs != [] {
      GroupMembers(cs[..|cs| - 1], horse, key);
      assert cs == cs[..|cs| - 1] + [cs[|cs| - 1]];
    }
  }

  lemma KeysOfGroup(cs: seq<Contribution>, horse: string, key: string)
    ensures key in KeysOf(cs, horse) <==> Group(cs, horse, key) != []
  {
    if Group(cs, horse, key) != [] {
      GroupMembers(cs, horse, key);
      var o := Group(cs, horse, key)[0];
      assert o in Group(cs, horse, key);
      assert Contribution(horse, key, o) in cs;
    }
  }

  lemma ContribsOkSnoc(cs: seq<Contribution>, c: Contribution)
    requires ContribsOk(cs) && c.key == KeyOf(c.occ)
    ensures ContribsOk(cs + [c]) <==>
              && OccurrenceOk(c.occ)
              && (forall d | d in cs && d.key == c.key :: IdentityOf(d.occ) == IdentityOf(c.occ))
              && GroupOk(Group(cs, c.horse, c.key) + [c.occ])
  {
    hide GroupOk, OccurrenceOk, IdentityOf, KeyOf, Group;
    var all := cs + [c];
    assert forall d :: d in all <==> d in cs || d == c;
    forall horse, key ensures Group(all, horse, key) == Group(cs, horse, key)
                                + (if c.horse == horse && c.key == key then [c.occ] else []) {
      GroupSnoc(cs, c, horse, key);
    }
    forall horse, key | horse != c.horse || key != c.key ensures GroupOk(Group(all, horse, key)) {
      assert Group(all, horse, key) == Group(cs, horse, key);
    }
  }

  /** All members of a group are aware of their observations, or none is. */
  lemma GroupAwareness(cs: seq<Contribution>, horse: string, o: Occurrence)
    requires ContribsOk(cs)
    ensures forall p | p in Group(cs, horse, KeyOf(o)) ::
              && p.observations.Some? == o.observations.Some?
              && (o.observations.Some? ==> Aware(p)) && p.sem.race == o.sem.race
  {
    GroupMembers(cs, horse, KeyOf(o));
    forall p | p in Group(cs, horse, KeyOf(o))
      ensures p.observations.Some? == o.observations.Some?
              && (o.observations.Some? ==> Aware(p)) && p.sem.race == o.sem.race
    {
      assert Contribution(horse, KeyOf(o), p) in cs;
      KeysAreInjective(o, p);
    }
  }

  ghost predicate FiledAs(occs: map<string, Occurrence>, cs: seq<Contribution>, horse: string) {
    && (forall key :: key in occs <==> Group(cs, horse, key) != [])
    && (forall key | key in occs && Group(cs, horse, key) != [] ::
          occs[key] == Combine(Group(cs, horse, key)))
  }

  ghost predicate IdentitiesOf(ids: map<string, RaceIdentity>, cs: seq<Contribution>) {
    && (forall c | c in cs :: c.key in ids && ids[c.key] == IdentityOf(c.occ))
    && (forall key | key in ids :: exists c :: c in cs && c.key == key)
  }

  /** The innermost loop body: file one occurrence under its horse, or refuse the merge. */
  method AddOccurrence(occs: map<string, Occurrence>, ids: map<string, RaceIdentity>,
                       horse: string, o: Occurrence, ghost cs: seq<Contribution>)
    returns (r: Result<(map<string, Occurrence>, map<string, RaceIdentity>), string>)
    requires ContribsOk(cs) && FiledAs(occs, cs, horse) && IdentitiesOf(ids, cs)
    ensures r.Ok? <==> ContribsOk(cs + [Contribution(horse, KeyOf(o), o)])
    ensures r.Ok? ==>
              && FiledAs(r.value.0, cs + [Contribution(horse, KeyOf(o), o)], horse)
              && IdentitiesOf(r.value.1, cs + [Contribution(horse, KeyOf(o), o)])
  {
    var key := KeyOf(o);
    ghost var c := Contribution(horse, key, o);
    ContribsOkSnoc(cs, c);
    if !OccurrenceOk(o) { return Err("stable target occurrence contract drift"); }
    if key in ids && ids[key] != IdentityOf(o) { return Err("target occurrence identity conflict"); }
    var ids' := ids[key := IdentityOf(o)];
    var filed := FileUnder(if key in occs then Some(occs[key]) else None, horse, o, cs);
    if filed.Err? { return Err(filed.error); }
    var occs' := occs[key := filed.value];
    FiledSnoc(occs, occs', cs, c);
    IdentitiesSnoc(ids, cs, c);
    return Ok((occs', ids'));
  }

  /** What is filed once `o` has arrived after `previous`. */
  method FileUnder(previous: Option<Occurrence>, horse: string, o: Occurrence, ghost cs: seq<Contribution>)
    returns (r: Result<Occurrence, string>)
    requires ContribsOk(cs) && OccurrenceOk(o)
    requires previous == if Group(cs, horse, KeyOf(o)) == [] then None
                         else Some(Combine(Group(cs, horse, KeyOf(o))))
    ensures r.Ok? <==> GroupOk(Group(cs, horse, KeyOf(o)) + [o])
    ensures r.Ok? ==> r.value == Combine(Group(cs, horse, KeyOf(o)) + [o])
  {
    if previous.None? { return Ok(o); }
    GroupAwareness(cs, horse, o);
    ghost var g := Group(cs, horse, KeyOf(o));
    if o.observations.None? {
      assert g[0] in g && (g + [o])[0] == g[0] && g[0] in g + [o];
      return Err("horse occurrence conflict across source ledgers");
    }
    MergeObservedIsCombine(g, o);
    return MergeObserved(previous.value, o);
  }

  lemma FiledSnoc(occs: map<string, Occurrence>, occs': map<string, Occurrence>,
                  cs: seq<Contribution>, c: Contribution)
    requires FiledAs(occs, cs, c.horse)
    requires c.key in occs' && occs' == occs[c.key := occs'[c.key]]
    requires occs'[c.key] == Combine(Group(cs, c.horse, c.key) + [c.occ])
    ensures FiledAs(occs', cs + [c], c.horse)
  {
    forall key ensures Group(cs + [c], c.horse, key)
                         == Group(cs, c.horse, key) + (if c.key == key then [c.occ] else []) {
      GroupSnoc(cs, c, c.horse, key);
    }
    forall key | key != c.key ensures Group(cs + [c], c.horse, key) == Group(cs, c.horse, key) {}
  }

  lemma IdentitiesSnoc(ids: map<string, RaceIdentity>, cs: seq<Contribution>, c: Contribution)
    requires IdentitiesOf(ids, cs)
    requires c.key in ids ==> ids[c.key] == IdentityOf(c.occ)
    ensures IdentitiesOf(ids[c.key := IdentityOf(c.occ)], cs + [c])
  {
    var all := cs + [c];
    assert forall d :: d in all <==> d in cs || d == c;
    var ids' := ids[c.key := IdentityOf(c.occ)];
    forall key | key in ids' ensures exists d :: d in all && d.key == key {
      if key != c.key {
        var d :| d in cs && d.key == key;
        assert d in all;
      }
    }
  }

  lemma {:induction false} ContribsAppend(rows: seq<SeedRow>, more: seq<SeedRow>)
    ensures Contribs(rows + more) == Contribs(rows) + Contribs(more)
  {
    hide RowContribs;
    if more == [] {
      assert rows + more == rows;
    } else {
      var front := more[..|more| - 1];
      assert (rows + more)[..|rows + more| - 1] == rows + front;
      ContribsAppend(rows, front);
    }
  }

  lemma ContribsSnoc(rows: seq<SeedRow>, row: SeedRow)
    ensures Contribs(rows + [row]) == Contribs(rows) + RowContribs(row)
  {
    assert (rows + [row])[..|rows|] == rows;
  }

  lemma ContribsOkPrefix(cs: seq<Contribution>, ds: seq<Contribution>)
    requires ContribsOk(cs + ds)
    ensures ContribsOk(cs)
  {
    assert forall c :: c in cs ==> c in cs + ds;
    forall horse, key ensures GroupOk(Group(cs, horse, key)) {
      GroupAppend(cs, ds, horse, key);
      assert GroupOk(Group(cs + ds, horse, key));
      GroupOkPrefix(Group(cs, horse, key), Group(ds, horse, key));
    }
  }

  lemma GroupOkPrefix(g: seq<Occurrence>, h: seq<Occurrence>)
    requires GroupOk(g + h)
    ensures GroupOk(g)
  {
    if |g| >= 2 {
      assert forall o :: o in g ==> o in g + h;
      UnionOfAppend(g, h);
      assert (g + h)[0] == g[0];
    }
  }

  lemma {:induction false} ContribHorses(rows: seq<SeedRow>)
    ensures forall c | c in Contribs(rows) :: c.horse in Horses(rows)
  {
    if rows != [] {
      var front, last := rows[..|rows| - 1], rows[|rows| - 1];
      ContribHorses(front);
      assert last in rows && forall row :: row in front ==> row in rows;
    }
  }

  lemma {:induction false} ForeignGroup(cs: seq<Contribution>, horse: string, key: string)
    requires forall c | c in cs :: c.horse != horse
    ensures Group(cs, horse, key) == []
  {
    if cs != [] { ForeignGroup(cs[..|cs| - 1], horse, key); }
  }

  ghost predicate StateOf(merged: map<string, Entry>, ids: map<string, RaceIdentity>, rows: seq<SeedRow>) {
    var cs := Contribs(rows);
    && merged.Keys == Horses(rows)
    && ContribsOk(cs) && IdentitiesOf(ids, cs)
    && (forall horse | horse in merged ::
          && merged[horse].names == NamesOf(rows, horse)
          && merged[horse].batches == BatchesOf(rows, horse)
          && FiledAs(merged[horse].occurrences, cs, horse))
  }

  /** The loop over the occurrences of one row. */
  method AddOccurrences(occs0: map<string, Occurrence>, ids0: map<string, RaceIdentity>, row: SeedRow,
                        ghost cs: seq<Contribution>)
    returns (r: Result<(map<string, Occurrence>, map<string, RaceIdentity>), string>)
    requires ContribsOk(cs) && FiledAs(occs0, cs, row.horse) && IdentitiesOf(ids0, cs)
    ensures r.Ok? <==> ContribsOk(cs + RowContribs(row))
    ensures r.Ok? ==>
              && FiledAs(r.value.0, cs + RowContribs(row), row.horse)
              && IdentitiesOf(r.value.1, cs + RowContribs(row))
  {
    hide ContribsOk, FiledAs, IdentitiesOf;
    var occs, ids := occs0, ids0;
    ghost var ds := RowContribs(row);
    assert cs + ds[..0] == cs;
    for k := 0 to |row.occurrences|
      invariant ContribsOk(cs + ds[..k])
      invariant FiledAs(occs, cs + ds[..k], row.horse) && IdentitiesOf(ids, cs + ds[..k])
    {
      assert cs + ds[..k + 1] == cs + ds[..k] + [ds[k]];
      assert cs + ds == cs + ds[..k + 1] + ds[k + 1..];
      var added := AddOccurrence(occs, ids, row.horse, row.occurrences[k], cs + ds[..k]);
      if added.Err? {
        if ContribsOk(cs + ds) { ContribsOkPrefix(cs + ds[..k + 1], ds[k + 1..]); }
        return Err(added.error);
      }
      occs, ids := added.value.0, added.value.1;
    }
    assert ds[..|ds|] == ds;
    return Ok((occs, ids));
  }

  /** The body of the loop over ledger rows. */
  method AddRow(merged: map<string, Entry>, ids: map<string, RaceIdentity>, row: SeedRow,
                ghost rows: seq<SeedRow>)
    returns (r: Result<(map<string, Entry>, map<string, RaceIdentity>), string>)
    requires StateOf(merged, ids, rows)
    ensures r.Ok? <==> RowOk(row) && ContribsOk(Contribs(rows + [row]))
    ensures r.Ok? ==> StateOf(r.value.0, r.value.1, rows + [row])
  {
    if !RowOk(row) { return Err("source stable seed contract drift"); }
    var entry := if row.horse in merged then merged[row.horse] else Entry({}, {}, map[]);
    ContribsSnoc(rows, row);
    FreshHorse(merged, rows, row.horse);
    var filed := AddOccurrences(entry.occurrences, ids, row, Contribs(rows));
    if filed.Err? { return Err(filed.error); }
    var occs, ids' := filed.value.0, filed.value.1;
    var names := entry.names + CleanNames(row.names);
    var batches := entry.batches + set b | b in row.batches;
    RowFiled(merged, rows, row, occs, names, batches);
    return Ok((merged[row.horse := Entry(names, batches, occs)], ids'));
  }

  lemma FreshHorse(merged: map<string, Entry>, rows: seq<SeedRow>, horse: string)
    requires merged.Keys == Horses(rows)
    ensures horse !in merged ==>
              && FiledAs(map[], Contribs(rows), horse)
              && NamesOf(rows, horse) == {} && BatchesOf(rows, horse) == {}
  {
    ContribHorses(rows);
    if horse in merged { return; }
    forall key ensures Group(Contribs(rows), horse, key) == [] {
      ForeignGroup(Contribs(rows), horse, key);
    }
  }

  lemma RowFiled(merged: map<string, Entry>, rows: seq<SeedRow>, row: SeedRow,
                 occs: map<string, Occurrence>, names: set<string>, batches: set<string>)
    requires merged.Keys == Horses(rows)
    requires forall horse | horse in merged ::
               && merged[horse].names == NamesOf(rows, horse)
               && merged[horse].batches == BatchesOf(rows, horse)
               && FiledAs(merged[horse].occurrences, Contribs(rows), horse)
    requires FiledAs(occs, Contribs(rows + [row]), row.horse)
    requires names == NamesOf(rows, row.horse) + CleanNames(row.names)
    requires batches == BatchesOf(rows, row.horse) + set b | b in row.batches
    ensures var merged' := merged[row.horse := Entry(names, batches, occs)];
      && merged'.Keys == Horses(rows + [row])
      && (forall horse | horse in merged' ::
            && merged'[horse].names == NamesOf(rows + [row], horse)
            && merged'[horse].batches == BatchesOf(rows + [row], horse)
            && FiledAs(merged'[horse].occurrences, Contribs(rows + [row]), horse))
  {
    hide CleanNames, FiledAs, Contribs;
    var all := rows + [row];
    assert forall r :: r in all <==> r in rows || r == row;
    forall horse | horse in merged && horse != row.horse
      ensures FiledAs(merged[horse].occurrences, Contribs(all), horse)
      ensures NamesOf(all, horse) == NamesOf(rows, horse) && BatchesOf(all, horse) == BatchesOf(rows, horse)
    {
      OtherHorse(rows, row, merged[horse].occurrences, horse);
    }
  }

  /** A row says nothing about other horses. */
  lemma OtherHorse(rows: seq<SeedRow>, row: SeedRow, occs: map<string, Occurrence>, horse: string)
    requires horse != row.horse && FiledAs(occs, Contribs(rows), horse)
    ensures FiledAs(occs, Contribs(rows + [row]), horse)
    ensures NamesOf(rows + [row], horse) == NamesOf(rows, horse)
    ensures BatchesOf(rows + [row], horse) == BatchesOf(rows, horse)
  {
    hide Combine, Contribs, Group, CleanNames;
    assert forall r :: r in rows + [row] <==> r in rows || r == row;
    ContribsSnoc(rows, row);
    forall key ensures Group(Contribs(rows + [row]), horse, key) == Group(Contribs(rows), horse, key) {
      GroupAppend(Contribs(rows), RowContribs(row), horse, key);
      ForeignGroup(RowContribs(row), horse, key);
    }
  }

  lemma FiledIsComplete(occs: map<string, Occurrence>, cs: seq<Contribution>, horse: string)
    requires FiledAs(occs, cs, horse)
    ensures occs == OccurrencesOf(cs, horse)
  {
    forall key ensures key in occs <==> key in KeysOf(cs, horse) {
      KeysOfGroup(cs, horse, key);
    }
  }

  /** A loop state holds exactly the merged ledger of the rows read so far. */
  lemma StateIsMerged(merged: map<string, Entry>, ids: map<string, RaceIdentity>, rows: seq<SeedRow>)
    requires StateOf(merged, ids, rows)
    ensures merged == Merged(rows)
  {
    var cs, spec := Contribs(rows), Merged(rows);
    forall horse | horse in merged ensures merged[horse] == spec[horse] {
      FiledIsComplete(merged[horse].occurrences, cs, horse);
    }
  }

  lemma AcceptsSplit(rows: seq<SeedRow>, more: seq<SeedRow>)
    ensures Accepts(rows + more) ==> Accepts(rows)
  {
    ContribsAppend(rows, more);
    if Accepts(rows + more) {
      ContribsOkPrefix(Contribs(rows), Contribs(more));
      forall row | row in rows ensures RowOk(row) {
        assert row in rows + more;
      }
    }
  }

  lemma AcceptsSnoc(rows: seq<SeedRow>, row: SeedRow)
    requires Accepts(rows)
    ensures Accepts(rows + [row]) <==> RowOk(row) && ContribsOk(Contribs(rows + [row]))
  {
    assert forall r :: r in rows + [row] <==> r in rows || r == row;
  }

  /** The loop over the rows of one source ledger. */
  method AddSource(merged0: map<string, Entry>, ids0: map<string, RaceIdentity>, rows: seq<SeedRow>,
                   ghost before: seq<SeedRow>)
    returns (r: Result<(map<string, Entry>, map<string, RaceIdentity>), string>)
    requires StateOf(merged0, ids0, before) && Accepts(before)
    ensures r.Ok? <==> Accepts(before + rows)
    ensures r.Ok? ==> StateOf(r.value.0, r.value.1, before + rows)
  {
    hide Accepts, StateOf;
    var merged, ids := merged0, ids0;
    ghost var read := before;
    assert before + rows[..0] == before;
    for k := 0 to |rows|
      invariant read == before + rows[..k]
      invariant StateOf(merged, ids, read) && Accepts(read)
    {
      assert before + rows[..k + 1] == read + [rows[k]];
      AcceptsSnoc(read, rows[k]);
      var added := AddRow(merged, ids, rows[k], read);
      if added.Err? {
        AcceptsSplit(before + rows[..k + 1], rows[k + 1..]);
        assert before + rows == before + rows[..k + 1] + rows[k + 1..];
        return Err(added.error);
      }
      read := read + [rows[k]];
      merged, ids := added.value.0, added.value.1;
    }
    assert before + rows[..|rows|] == before + rows;
    return Ok((merged, ids));
  }

  /** Refusing the first sources refuses the whole merge. */
  lemma {:induction false} AcceptsSources(sources: seq<Source>, k: nat, n: nat)
    requires k <= n <= |sources|
    ensures Accepts(RowsUpTo(sources, n)) ==> Accepts(RowsUpTo(sources, k))
    decreases n
  {
    hide Accepts;
    if k < n {
      AcceptsSplit(RowsUpTo(sources, n - 1), sources[n - 1].rows);
      AcceptsSources(sources, k, n - 1);
    }
  }

  lemma NothingRead()
    ensures StateOf(map[], map[], []) && Accepts([])
  {}

  ghost function SortedStrings(s: set<string>): seq<string> {
    Sorted(s, Same)
  }

  method SortStrings(s: set<string>) returns (q: seq<string>)
    ensures q == SortedStrings(s)
  {
    q := [];
    var rest := s;
    while rest != {}
      invariant rest <= s && Ascending(q, Same)
      invariant forall x :: x in q <==> x in s && x !in rest
      decreases |rest|
    {
      var x :| x in rest;
      rest := rest - {x};
      InsertKeepsOrder(x, q, Same);
      q := Insert(x, q, Same);
    }
    SortedIsAscending(s, Same);
    AscendingUnique(q, SortedStrings(s), Same);
  }

  function InOrder(occs: map<string, Occurrence>, keys: seq<string>): seq<Occurrence>
    requires forall key | key in keys :: key in occs
  {
    if keys == [] then []
    else
      var last := keys[|keys| - 1];
      assert last in keys;
      InOrder(occs, keys[..|keys| - 1]) + [occs[last]]
  }

  lemma SortedKeys(s: set<string>)
    ensures Ascending(SortedStrings(s), Same)
    ensures forall x :: x in SortedStrings(s) <==> x in s
  {
    SortedIsAscending(s, Same);
  }

  ghost function EmitRow(horse: string, entry: Entry): SeedRow {
    SortedKeys(entry.occurrences.Keys);
    SeedRow(horse, SortedStrings(entry.names), SortedStrings(entry.batches),
            InOrder(entry.occurrences, SortedStrings(entry.occurrences.Keys)))
  }

  ghost function EmitRows(merged: map<string, Entry>, horses: seq<string>): seq<SeedRow>
    requires forall horse | horse in horses :: horse in merged
  {
    if horses == [] then []
    else
      var last := horses[|horses| - 1];
      assert last in horses;
      EmitRows(merged, horses[..|horses| - 1]) + [EmitRow(last, merged[last])]
  }

  /** The seed rows of a merged ledger: horses, names, batches and occurrence keys all ascending. */
  ghost function Emit(merged: map<string, Entry>): seq<SeedRow> {
    SortedKeys(merged.Keys);
    EmitRows(merged, SortedStrings(merged.Keys))
  }

  method EmitEntry(horse: string, entry: Entry) returns (row: SeedRow)
    ensures row == EmitRow(horse, entry)
  {
    var names := SortStrings(entry.names);
    var batches := SortStrings(entry.batches);
    var keys := SortStrings(entry.occurrences.Keys);
    SortedKeys(entry.occurrences.Keys);
    return SeedRow(horse, names, batches, InOrder(entry.occurrences, keys));
  }

  lemma EmitRowsSnoc(merged: map<string, Entry>, horses: seq<string>, k: nat)
    requires k < |horses| && forall horse | horse in horses :: horse in merged
    ensures (forall horse | horse in horses[..k] :: horse in merged)
            && (forall horse | horse in horses[..k + 1] :: horse in merged)
    ensures EmitRows(merged, horses[..k + 1])
            == EmitRows(merged, horses[..k]) + [EmitRow(horses[k], merged[horses[k]])]
  {
    hide EmitRow;
    assert horses[..k + 1][..k] == horses[..k];
  }

  lemma NoRows(merged: map<string, Entry>)
    ensures EmitRows(merged, []) == []
  {}

  method EmitSeeds(merged: map<string, Entry>) returns (rows: seq<SeedRow>)
    ensures rows == Emit(merged)
  {
    hide EmitRow, EmitRows, SortedStrings;
    var horses := SortStrings(merged.Keys);
    SortedKeys(merged.Keys);
    rows := [];
    NoRows(merged);
    for k := 0 to |horses|
      invariant forall horse | horse in horses :: horse in merged
      invariant forall horse | horse in horses[..k] :: horse in merged
      invariant rows == EmitRows(merged, horses[..k])
    {
      EmitRowsSnoc(merged, horses, k);
      var row := EmitEntry(horses[k], merged[horses[k]]);
      rows := rows + [row];
    }
    assert horses[..|horses|] == horses;
  }

  // ---------------------------------------------------------------- what the merge says of its sources

  lemma {:induction false} EmitRowsMembers(merged: map<string, Entry>, horses: seq<string>, row: SeedRow)
    requires forall h | h in horses :: h in merged
    ensures row in EmitRows(merged, horses) <==>
              row.horse in horses && row == EmitRow(row.horse, merged[row.horse])
  {
    if horses != [] {
      var front, last := horses[..|horses| - 1], horses[|horses| - 1];
      EmitRowsMembers(merged, front, row);
      assert horses == front + [last];
    }
  }

  lemma EmitMembers(merged: map<string, Entry>, row: SeedRow)
    ensures row in Emit(merged) <==> row.horse in merged && row == EmitRow(row.horse, merged[row.horse])
  {
    hide EmitRow, EmitRows, Less;
    SortedKeys(merged.Keys);
    EmitRowsMembers(merged, SortedStrings(merged.Keys), row);
  }

  lemma InOrderLength(occs: map<string, Occurrence>, keys: seq<string>)
    requires forall key | key in keys :: key in occs
    ensures |InOrder(occs, keys)| == |keys|
  {}

  lemma {:induction false} RowContribsIn(rows: seq<SeedRow>, row: SeedRow)
    requires row in rows
    ensures forall i | 0 <= i < |row.occurrences| ::
              Contribution(row.horse, KeyOf(row.occurrences[i]), row.occurrences[i]) in Contribs(rows)
  {
    hide KeyOf;
    if row != rows[|rows| - 1] {
      assert rows == rows[..|rows| - 1] + [rows[|rows| - 1]];
      RowContribsIn(rows[..|rows| - 1], row);
    } else {
      forall i | 0 <= i < |row.occurrences|
        ensures Contribution(row.horse, KeyOf(row.occurrences[i]), row.occurrences[i]) in RowContribs(row)
      {
        assert RowContribs(row)[i] == Contribution(row.horse, KeyOf(row.occurrences[i]), row.occurrences[i]);
      }
    }
  }

  lemma {:induction false} InOrderMembers(occs: map<string, Occurrence>, keys: seq<string>)
    requires forall key | key in keys :: key in occs
    ensures forall o :: o in InOrder(occs, keys) <==> exists key :: key in keys && o == occs[key]
  {
    if keys != [] {
      var front, last := keys[..|keys| - 1], keys[|keys| - 1];
      InOrderMembers(occs, front);
      assert keys == front + [last];
    }
  }

  /** The cells of a ledger are its rows' occurrences. */
  lemma {:induction false} CellsAreRows(rows: seq<SeedRow>, c: Contribution)
    ensures c in Contribs(rows) <==>
              exists row, o :: row in rows && o in row.occurrences && c == Contribution(row.horse, KeyOf(o), o)
  {
    hide KeyOf;
    if rows != [] {
      var front, last := rows[..|rows| - 1], rows[|rows| - 1];
      CellsAreRows(front, c);
      assert rows == front + [last];
      assert c in RowContribs(last) <==>
               exists o :: o in last.occurrences && c == Contribution(last.horse, KeyOf(o), o) by {
        CellsOfRow(last, c);
      }
    }
  }

  lemma CellsOfRow(row: SeedRow, c: Contribution)
    ensures c in RowContribs(row) <==>
              exists o :: o in row.occurrences && c == Contribution(row.horse, KeyOf(o), o)
  {
    hide KeyOf;
    if o :| o in row.occurrences && c == Contribution(row.horse, KeyOf(o), o) {
      var i :| 0 <= i < |row.occurrences| && row.occurrences[i] == o;
      assert RowContribs(row)[i] == c;
    }
    if c in RowContribs(row) {
      var i :| 0 <= i < |RowContribs(row)| && RowContribs(row)[i] == c;
      assert row.occurrences[i] in row.occurrences;
    }
  }

  ghost predicate SourceRow(sources: seq<Source>, row: SeedRow) {
    exists k :: 0 <= k < |sources| && row in sources[k].rows
  }

  lemma {:induction false} RowsUpToMembers(sources: seq<Source>, n: nat, row: SeedRow)
    requires n <= |sources|
    ensures row in RowsUpTo(sources, n) <==> exists k :: 0 <= k < n && row in sources[k].rows
  {
    if n > 0 { RowsUpToMembers(sources, n - 1, row); }
  }

  function HorseOf(row: SeedRow): string {
    row.horse
  }

  /** Every horse of the sources has one row, the rows in ascending order. */
  ghost predicate KeepsHorses(sources: seq<Source>, out: seq<SeedRow>) {
    && Ascending(out, HorseOf)
    && (forall r | r in out :: exists row :: SourceRow(sources, row) && row.horse == r.horse)
    && (forall row | SourceRow(sources, row) :: exists r :: r in out && r.horse == row.horse)
  }

  /** The names of a horse are the stripped names of its source rows, as far as something is left of
      them, and its batches are those of its source rows. */
  ghost predicate KeepsNames(sources: seq<Source>, out: seq<SeedRow>) {
    forall r | r in out ::
      && Ascending(r.names, Same) && Ascending(r.batches, Same)
      && (forall n :: n in r.names <==>
            n != "" && exists row, x :: SourceRow(sources, row) && row.horse == r.horse
                                        && x in row.names && n == Strip(x))
      && (forall b :: b in r.batches <==>
            exists row :: SourceRow(sources, row) && row.horse == r.horse && b in row.batches)
  }

  /** Two occurrences of a horse in the same race; without observation lists also by the same seed. */
  predicate SamePlace(o: Occurrence, p: Occurrence) {
    && o.sem.race == p.sem.race && o.observations.Some? == p.observations.Some?
    && (o.observations.None? ==> o.primary.seed == p.primary.seed)
  }

  ghost predicate SourceOccurrence(sources: seq<Source>, horse: string, o: Occurrence) {
    exists row :: SourceRow(sources, row) && row.horse == horse && o in row.occurrences
  }

  /** The canonically first observation of a list. */
  ghost predicate IsFirst(x: Observation, list: seq<Observation>) {
    x in list && forall y | y in list && y != x :: Less(ObservationText(x), ObservationText(y))
  }

  /** `o` is what the sources say together about one place of a horse. */
  ghost predicate Summary(sources: seq<Source>, horse: string, o: Occurrence) {
    && (exists p :: SourceOccurrence(sources, horse, p) && SamePlace(o, p))
    && (forall p | SourceOccurrence(sources, horse, p) && SamePlace(o, p) ::
          p.sem == o.sem && (o.observations.None? ==> p == o))
    && (forall x :: x in ListOf(o) <==>
          exists p :: SourceOccurrence(sources, horse, p) && SamePlace(o, p) && x in ListOf(p))
    && (o.observations.Some? ==> IsFirst(o.primary, ListOf(o)))
  }

  /** Every place of a horse has one occurrence, which summarises what the sources say about it. */
  ghost predicate KeepsOccurrences(sources: seq<Source>, out: seq<SeedRow>) {
    && (forall r, i, j | r in out && 0 <= i < j < |r.occurrences| ::
          !SamePlace(r.occurrences[i], r.occurrences[j]))
    && (forall r, o | r in out && o in r.occurrences :: Summary(sources, r.horse, o))
    && (forall horse, p | SourceOccurrence(sources, horse, p) ::
          exists r, o :: r in out && r.horse == horse && o in r.occurrences && SamePlace(o, p))
  }

  lemma KeysArePlaces(o: Occurrence, p: Occurrence)
    ensures KeyOf(o) == KeyOf(p) <==> SamePlace(o, p)
  {
    if KeyOf(o) == KeyOf(p) { KeysAreInjective(o, p); }
  }

  lemma SourceCells(sources: seq<Source>, horse: string, o: Occurrence)
    ensures Contribution(horse, KeyOf(o), o) in Contribs(AllRows(sources)) <==> SourceOccurrence(sources, horse, o)
  {
    hide KeyOf, Contribs;
    CellsAreRows(AllRows(sources), Contribution(horse, KeyOf(o), o));
    forall row ensures row in AllRows(sources) <==> SourceRow(sources, row) {
      RowsUpToMembers(sources, |sources|, row);
    }
  }

  /** The group of a place is what the sources say about it. */
  lemma SourceGroup(sources: seq<Source>, horse: string, o: Occurrence)
    requires ContribsOk(Contribs(AllRows(sources)))
    ensures forall p :: p in Group(Contribs(AllRows(sources)), horse, KeyOf(o)) <==>
              SourceOccurrence(sources, horse, p) && SamePlace(o, p)
  {
    hide KeyOf, Contribs, Group, OccurrenceOk, IdentityOf, GroupOk, SamePlace, SourceOccurrence;
    var cs := Contribs(AllRows(sources));
    GroupMembers(cs, horse, KeyOf(o));
    forall p ensures p in Group(cs, horse, KeyOf(o)) <==> SourceOccurrence(sources, horse, p) && SamePlace(o, p) {
      SourceCells(sources, horse, p);
      KeysArePlaces(o, p);
      if Contribution(horse, KeyOf(o), p) in cs { assert KeyOf(o) == KeyOf(p); }
    }
  }

  lemma CombineKeepsKey(g: seq<Occurrence>)
    requires g != [] && GroupOk(g)
    ensures SamePlace(Combine(g), g[0]) && (Combine(g).observations.None? ==> g == [Combine(g)])
    ensures forall o | o in g :: o.sem == Combine(g).sem
  {
    CombineObservations(g);
    assert g[0] in g;
    if |g| == 1 { assert g == [g[0]]; }
  }

  lemma FirstOfListing(list: seq<Observation>, q: seq<Observation>)
    requires q != [] && Ascending(q, ObservationText) && forall x :: x in q <==> x in list
    ensures IsFirst(q[0], list)
  {
    assert q[0] in q;
    forall y | y in list && y != q[0] ensures Less(ObservationText(q[0]), ObservationText(y)) {
      assert y in q;
    }
  }

  lemma CombineHasFirst(g: seq<Occurrence>)
    requires g != [] && GroupOk(g) && forall o | o in g :: OccurrenceOk(o)
    ensures Combine(g).observations.Some? ==> IsFirst(Combine(g).primary, ListOf(Combine(g)))
  {
    hide IsFirst, ObservationOk, Strip, IsRaceId, IsSha;
    var o := Combine(g);
    assert g[0] in g && OccurrenceOk(g[0]);
    if o.observations.Some? {
      InsertAllListing(ListOf(g[0]), []);
      if |g| == 1 {
        assert ListOf(o)[0] in ListOf(o);
        FirstOfListing(ListOf(o), InsertAll(ListOf(o), []));
      } else {
        ListingNonEmpty(g);
        ListingIsAscending(UnionOf(g));
        FirstOfListing(ListOf(o), Listing(UnionOf(g)));
      }
    }
  }

  lemma SummaryOfPlace(sources: seq<Source>, horse: string, p: Occurrence)
    requires ContribsOk(Contribs(AllRows(sources))) && SourceOccurrence(sources, horse, p)
    ensures Group(Contribs(AllRows(sources)), horse, KeyOf(p)) != []
    ensures var o := Combine(Group(Contribs(AllRows(sources)), horse, KeyOf(p)));
      SamePlace(o, p) && Summary(sources, horse, o)
  {
    hide KeyOf, Contribs, Group, OccurrenceOk, IdentityOf, GroupOk, SourceOccurrence, Combine, IsFirst;
    var cs := Contribs(AllRows(sources));
    var g := Group(cs, horse, KeyOf(p));
    SourceGroup(sources, horse, p);
    assert p in g;
    GroupMembers(cs, horse, KeyOf(p));
    forall o | o in g ensures OccurrenceOk(o) {
      assert Contribution(horse, KeyOf(p), o) in cs;
    }
    assert g[0] in g && GroupOk(g);
    CombineKeepsKey(g);
    CombineObservations(g);
    CombineHasFirst(g);
    forall x ensures x in UnionOf(g) <==> exists q :: q in g && x in ListOf(q) {}
  }

  lemma {:induction false} EmitRowsOrder(merged: map<string, Entry>, horses: seq<string>)
    requires forall horse | horse in horses :: horse in merged
    ensures |EmitRows(merged, horses)| == |horses|
    ensures forall i | 0 <= i < |horses| :: EmitRows(merged, horses)[i].horse == horses[i]
  {
    if horses != [] { EmitRowsOrder(merged, horses[..|horses| - 1]); }
  }

  lemma EmitIsAscending(merged: map<string, Entry>)
    ensures Ascending(Emit(merged), HorseOf)
  {
    hide EmitRow, EmitRows, Less;
    SortedKeys(merged.Keys);
    EmitRowsOrder(merged, SortedStrings(merged.Keys));
  }

  lemma EmittedHorses(sources: seq<Source>)
    ensures KeepsHorses(sources, Emit(Merged(AllRows(sources))))
  {
    hide EmitRow, Emit, RowsUpTo, Contribs, OccurrencesOf, NamesOf, BatchesOf, Ascending;
    var rows, m, out := AllRows(sources), Merged(AllRows(sources)), Emit(Merged(AllRows(sources)));
    EmitIsAscending(m);
    forall row ensures row in rows <==> SourceRow(sources, row) {
      RowsUpToMembers(sources, |sources|, row);
    }
    forall r | r in out ensures exists row :: SourceRow(sources, row) && row.horse == r.horse {
      EmitMembers(m, r);
    }
    forall row | SourceRow(sources, row) ensures exists r :: r in out && r.horse == row.horse {
      RowOfHorse(m, row.horse);
    }
  }

  lemma RowOfHorse(merged: map<string, Entry>, horse: string)
    requires horse in merged
    ensures EmitRow(horse, merged[horse]) in Emit(merged) && EmitRow(horse, merged[horse]).horse == horse
  {
    EmitMembers(merged, EmitRow(horse, merged[horse]));
  }

  lemma NamesMeaning(rows: seq<SeedRow>, horse: string, n: string)
    ensures n in NamesOf(rows, horse) <==>
              n != "" && exists row, x :: row in rows && row.horse == horse && x in row.names && n == Strip(x)
  {
    hide Strip;
    if n != "" {
      forall row, x | row in rows && row.horse == horse && x in row.names && n == Strip(x)
        ensures n in CleanNames(row.names)
      {}
    }
  }

  lemma EmittedNames(sources: seq<Source>)
    ensures KeepsNames(sources, Emit(Merged(AllRows(sources))))
  {
    hide Emit, RowsUpTo, Contribs, OccurrencesOf, Less, Strip, InOrder;
    var rows, m, out := AllRows(sources), Merged(AllRows(sources)), Emit(Merged(AllRows(sources)));
    forall row ensures row in rows <==> SourceRow(sources, row) {
      RowsUpToMembers(sources, |sources|, row);
    }
    forall r | r in out
      ensures r.horse in m && r.names == SortedStrings(NamesOf(rows, r.horse))
      ensures r.batches == SortedStrings(BatchesOf(rows, r.horse))
    {
      EmitMembers(m, r);
    }
    hide SortedStrings;
    forall r | r in out
      ensures Ascending(r.names, Same) && Ascending(r.batches, Same)
      ensures forall n :: n in r.names <==>
                n != "" && exists row, x :: SourceRow(sources, row) && row.horse == r.horse
                                            && x in row.names && n == Strip(x)
      ensures forall b :: b in r.batches <==>
                exists row :: SourceRow(sources, row) && row.horse == r.horse && b in row.batches
    {
      SortedKeys(NamesOf(rows, r.horse));
      SortedKeys(BatchesOf(rows, r.horse));
      forall n ensures n in r.names <==>
                 n != "" && exists row, x :: row in rows && row.horse == r.horse && x in row.names && n == Strip(x)
      {
        NamesMeaning(rows, r.horse, n);
      }
    }
  }

  /** The occurrences of an emitted row, by the places of its horse. */
  lemma RowOccurrences(sources: seq<Source>, r: SeedRow, o: Occurrence)
    requires ContribsOk(Contribs(AllRows(sources))) && r in Emit(Merged(AllRows(sources)))
    ensures o in r.occurrences <==>
              exists p :: SourceOccurrence(sources, r.horse, p)
                && o == PlaceSummary(sources, r.horse, p)
  {
    hide Emit, Contribs, Group, KeyOf, Combine, GroupOk, OccurrenceOk, IdentityOf, SourceOccurrence, InOrder, Less,
         Summary;
    var m, cs := Merged(AllRows(sources)), Contribs(AllRows(sources));
    EmitMembers(m, r);
    var occs := m[r.horse].occurrences;
    SortedKeys(occs.Keys);
    InOrderMembers(occs, SortedStrings(occs.Keys));
    if key :| key in occs && o == occs[key] {
      KeysOfGroup(cs, r.horse, key);
      GroupMembers(cs, r.horse, key);
      var p := Group(cs, r.horse, key)[0];
      assert p in Group(cs, r.horse, key);
      assert Contribution(r.horse, key, p) in cs && KeyOf(p) == key;
      SourceCells(sources, r.horse, p);
      assert o == PlaceSummary(sources, r.horse, p);
    }
    if p :| SourceOccurrence(sources, r.horse, p) && o == PlaceSummary(sources, r.horse, p) {
      SummaryOfPlace(sources, r.horse, p);
      KeysOfGroup(cs, r.horse, KeyOf(p));
      assert KeyOf(p) in SortedStrings(occs.Keys);
    }
  }

  ghost function PlaceSummary(sources: seq<Source>, horse: string, p: Occurrence): Occurrence {
    var g := Group(Contribs(AllRows(sources)), horse, KeyOf(p));
    if g == [] then p else Combine(g)
  }

  lemma EmittedOccurrences(sources: seq<Source>)
    requires Accepts(AllRows(sources))
    ensures KeepsOccurrences(sources, Emit(Merged(AllRows(sources))))
  {
    hide Emit, Contribs, SourceOccurrence, Summary, PlaceSummary, SamePlace, ContribsOk, RowOk;
    var out := Emit(Merged(AllRows(sources)));
    forall r, o | r in out && o in r.occurrences ensures Summary(sources, r.horse, o) {
      RowOccurrences(sources, r, o);
      var p :| SourceOccurrence(sources, r.horse, p) && o == PlaceSummary(sources, r.horse, p);
      PlaceIsSummarised(sources, r.horse, p);
    }
    forall horse, p | SourceOccurrence(sources, horse, p)
      ensures exists r, o :: r in out && r.horse == horse && o in r.occurrences && SamePlace(o, p)
    {
      var r := RowWith(sources, horse, p);
      PlaceIsSummarised(sources, horse, p);
      RowOccurrences(sources, r, PlaceSummary(sources, horse, p));
    }
    forall r, i, j | r in out && 0 <= i < j < |r.occurrences|
      ensures !SamePlace(r.occurrences[i], r.occurrences[j])
    {
      PlacesDiffer(sources, r, i, j);
    }
  }

  lemma PlaceIsSummarised(sources: seq<Source>, horse: string, p: Occurrence)
    requires ContribsOk(Contribs(AllRows(sources))) && SourceOccurrence(sources, horse, p)
    ensures Summary(sources, horse, PlaceSummary(sources, horse, p)) && SamePlace(PlaceSummary(sources, horse, p), p)
  {
    hide Contribs, Group, KeyOf, Combine, ContribsOk, SourceOccurrence, Summary, SamePlace;
    SummaryOfPlace(sources, horse, p);
  }

  lemma RowWith(sources: seq<Source>, horse: string, p: Occurrence) returns (r: SeedRow)
    requires SourceOccurrence(sources, horse, p)
    ensures r in Emit(Merged(AllRows(sources))) && r.horse == horse
  {
    hide Emit, EmitRow, RowsUpTo, Contribs, NamesOf, BatchesOf, OccurrencesOf;
    var row :| SourceRow(sources, row) && row.horse == horse && p in row.occurrences;
    RowsUpToMembers(sources, |sources|, row);
    RowOfHorse(Merged(AllRows(sources)), horse);
    r := EmitRow(horse, Merged(AllRows(sources))[horse]);
  }

  lemma {:induction false} InOrderAt(occs: map<string, Occurrence>, keys: seq<string>, i: nat)
    requires i < |keys| && forall key | key in keys :: key in occs
    ensures |InOrder(occs, keys)| == |keys| && InOrder(occs, keys)[i] == occs[keys[i]]
  {
    if i < |keys| - 1 {
      InOrderAt(occs, keys[..|keys| - 1], i);
    } else {
      InOrderLength(occs, keys[..|keys| - 1]);
    }
  }

  /** The occurrences of an emitted row have different keys. */
  lemma PlacesDiffer(sources: seq<Source>, r: SeedRow, i: nat, j: nat)
    requires Accepts(AllRows(sources)) && r in Emit(Merged(AllRows(sources))) && i < j < |r.occurrences|
    ensures !SamePlace(r.occurrences[i], r.occurrences[j])
  {
    hide Emit, Contribs, Group, KeyOf, Combine, GroupOk, OccurrenceOk, IdentityOf, SamePlace, InOrder, Less, RowOk,
         ContribsOk;
    var m, cs := Merged(AllRows(sources)), Contribs(AllRows(sources));
    EmitMembers(m, r);
    var occs := m[r.horse].occurrences;
    var keys := SortedStrings(occs.Keys);
    SortedKeys(occs.Keys);
    InOrderLength(occs, keys);
    InOrderAt(occs, keys, i);
    InOrderAt(occs, keys, j);
    assert keys[i] in keys && keys[j] in keys;
    KeyOfFiled(cs, r.horse, keys[i]);
    KeyOfFiled(cs, r.horse, keys[j]);
    Trichotomy(keys[i], keys[i]);
    assert Less(Same(keys[i]), Same(keys[j]));
    KeysArePlaces(r.occurrences[i], r.occurrences[j]);
  }

  lemma KeyOfFiled(cs: seq<Contribution>, horse: string, key: string)
    requires ContribsOk(cs) && key in OccurrencesOf(cs, horse)
    ensures KeyOf(OccurrencesOf(cs, horse)[key]) == key
  {
    hide Group, Combine, GroupOk, OccurrenceOk, IdentityOf, KeyOf;
    KeysOfGroup(cs, horse, key);
    var g := Group(cs, horse, key);
    GroupMembers(cs, horse, key);
    assert g[0] in g && Contribution(horse, key, g[0]) in cs;
    assert GroupOk(g);
    CombineKeepsKey(g);
    KeysArePlaces(Combine(g), g[0]);
  }

  // ---------------------------------------------------------------- which sources are merged

  /** An occurrence that names its race, its payload, its runner and where it was seen; a list of
      observations has no repetition and its first one is the occurrence's own. */
  ghost predicate Documented(o: Occurrence) {
    && IsRaceId(o.sem.race) && IsSha(o.sem.racePayload)
    && (exists c :: c in o.sem.name && !IsSpace(c)) && (exists c :: c in o.sem.position && !IsSpace(c))
    && (forall x | x in [o.primary] + ListOf(o) :: x.seed != "" && IsSha(x.run) && IsSha(x.payload))
    && (o.observations.Some? ==>
          && IsFirst(o.primary, o.observations.value)
          && forall i, j | 0 <= i < j < |o.observations.value| :: o.observations.value[i] != o.observations.value[j])
  }

  /** Two occurrences of one place can be one only if both list their observations, say the same of
      the race and the runner, and all their observations saw the same runner payload. */
  ghost predicate Agree(o: Occurrence, p: Occurrence) {
    && o.observations.Some? && p.observations.Some? && o.sem == p.sem
    && forall x, y | x in ListOf(o) + ListOf(p) && y in ListOf(o) + ListOf(p) :: x.payload == y.payload
  }

  /** The sources that can be merged. */
  ghost predicate Mergeable(sources: seq<Source>) {
    && |sources| >= 2
    && (forall i, j | 0 <= i < j < |sources| :: sources[i].root != sources[j].root || sources[i].sha != sources[j].sha)
    && (forall row | SourceRow(sources, row) ::
          && IsHorseId(row.horse) && row.occurrences != []
          && row.batches != [] && Ascending(row.batches, Same) && (forall b | b in row.batches :: IsSha(b)))
    && (forall horse, o | SourceOccurrence(sources, horse, o) :: Documented(o))
    && (forall horse, o, horse', p | SourceOccurrence(sources, horse, o) && SourceOccurrence(sources, horse', p)
                                     && SamePlace(o, p) ::
          o.sem.racePayload == p.sem.racePayload && o.sem.target == p.sem.target)
    && (forall i, j | 0 <= i < j < |Contribs(AllRows(sources))|
                      && Contribs(AllRows(sources))[i].horse == Contribs(AllRows(sources))[j].horse
                      && SamePlace(Contribs(AllRows(sources))[i].occ, Contribs(AllRows(sources))[j].occ) ::
          Agree(Contribs(AllRows(sources))[i].occ, Contribs(AllRows(sources))[j].occ))
  }

  lemma {:induction false} StripEmpty(s: string)
    ensures Strip(s) != "" <==> exists c :: c in s && !IsSpace(c)
  {
    var t := s[Run(s, true)..];
    if t == [] {
      forall c | c in s ensures IsSpace(c) {
        var i :| 0 <= i < |s| && s[i] == c;
      }
    } else {
      assert t[0] in s && !IsSpace(t[0]);
      StripRightKeeps(t);
    }
  }

  lemma {:induction false} StripRightKeeps(t: string)
    requires t != [] && !IsSpace(t[0])
    ensures StripRight(t) != []
  {
    if IsSpace(t[|t| - 1]) { StripRightKeeps(t[..|t| - 1]); }
  }

  /** A list is free of repetition exactly if collecting it makes nothing disappear. */
  lemma {:induction false} InsertAllSize(xs: seq<Observation>, q: seq<Observation>)
    requires Ascending(q, ObservationText)
    ensures |InsertAll(xs, q)| <= |xs| + |q|
    ensures |InsertAll(xs, q)| == |xs| + |q| <==>
              (forall x | x in xs :: x !in q) && forall i, j | 0 <= i < j < |xs| :: xs[i] != xs[j]
  {
    hide Less, ObservationText;
    if xs != [] {
      var x, rest := xs[0], xs[1..];
      forall y | y in q && ObservationText(y) == ObservationText(x) ensures y == x { ObservationTextInjective(y, x); }
      InsertKeepsOrder(x, q, ObservationText);
      InsertSize(x, q);
      InsertAllSize(rest, Insert(x, q, ObservationText));
      assert forall y :: y in xs <==> y == x || y in rest;
      assert (forall i, j | 0 <= i < j < |xs| :: xs[i] != xs[j])
        <==> x !in rest && forall i, j | 0 <= i < j < |rest| :: rest[i] != rest[j] by { DistinctCons(xs); }
    }
  }

  lemma DistinctCons(xs: seq<Observation>)
    requires xs != []
    ensures (forall i, j | 0 <= i < j < |xs| :: xs[i] != xs[j])
            <==> xs[0] !in xs[1..] && forall i, j | 0 <= i < j < |xs[1..]| :: xs[1..][i] != xs[1..][j]
  {
    var rest := xs[1..];
    assert forall i | 0 <= i < |rest| :: rest[i] == xs[i + 1];
    if xs[0] !in rest && forall i, j | 0 <= i < j < |rest| :: rest[i] != rest[j] {
      forall i, j | 0 <= i < j < |xs| ensures xs[i] != xs[j] {
        assert xs[j] == rest[j - 1];
        if i > 0 { assert xs[i] == rest[i - 1]; }
      }
    }
  }

  lemma {:induction false} InsertSize(x: Observation, q: seq<Observation>)
    requires Ascending(q, ObservationText) && forall y | y in q && ObservationText(y) == ObservationText(x) :: y == x
    ensures |Insert(x, q, ObservationText)| == if x in q then |q| else |q| + 1
  {
    hide ObservationText;
    if q != [] && x != q[0] {
      assert q == [q[0]] + q[1..];
      if Less(ObservationText(x), ObservationText(q[0])) {
        forall y | y in q ensures y != x {
          var i :| 0 <= i < |q| && q[i] == y;
          if i > 0 { Transitive(ObservationText(x), ObservationText(q[0]), ObservationText(q[i])); }
          Trichotomy(ObservationText(x), ObservationText(x));
        }
      } else {
        InsertSize(x, q[1..]);
      }
    }
  }

  lemma DocumentedIsOk(o: Occurrence)
    ensures OccurrenceOk(o) <==> Documented(o)
  {
    hide IsRaceId, IsSha, Strip, Less, IsSpace, ObservationText;
    StripEmpty(o.sem.name);
    StripEmpty(o.sem.position);
    var list := ListOf(o);
    assert forall x :: x in [o.primary] + list <==> x == o.primary || x in list;
    assert (forall i | 0 <= i < |list| :: ObservationOk(list[i])) <==> forall x | x in list :: ObservationOk(x);
    if o.observations.Some? && list != [] {
      InsertAllListing(list, []);
      InsertAllSize(list, []);
      assert list[0] in list;
      var q := InsertAll(list, []);
      FirstOfListing(list, q);
      if IsFirst(o.primary, list) { FirstIsUnique(o.primary, q[0], list); }
    }
  }

  lemma FirstIsUnique(x: Observation, y: Observation, list: seq<Observation>)
    requires IsFirst(x, list) && IsFirst(y, list)
    ensures x == y
  {
    if x != y { Trichotomy(ObservationText(x), ObservationText(y)); }
  }

  /** The members of a group are the cells of its place, in order. */
  lemma {:induction false} GroupPositions(cs: seq<Contribution>, horse: string, key: string, i: nat)
    requires i < |cs| && cs[i].horse == horse && cs[i].key == key
    ensures var a := |Group(cs[..i], horse, key)|;
      a < |Group(cs, horse, key)| && Group(cs, horse, key)[a] == cs[i].occ
  {
    var front := cs[..i + 1];
    assert front[..i] == cs[..i];
    assert cs == front + cs[i + 1..];
    GroupAppend(front, cs[i + 1..], horse, key);
    assert front == cs[..i] + [cs[i]];
    GroupSnoc(cs[..i], cs[i], horse, key);
  }

  lemma {:induction false} PositionsOfGroup(cs: seq<Contribution>, horse: string, key: string, a: nat)
    returns (i: nat)
    requires a < |Group(cs, horse, key)|
    ensures i < |cs| && cs[i] == Contribution(horse, key, Group(cs, horse, key)[a])
    ensures |Group(cs[..i], horse, key)| == a
  {
    var front := cs[..|cs| - 1];
    if a < |Group(front, horse, key)| {
      i := PositionsOfGroup(front, horse, key, a);
      assert front[..i] == cs[..i];
    } else {
      i := |cs| - 1;
    }
  }

  ghost predicate PairsAgree(cs: seq<Contribution>) {
    forall i, j | 0 <= i < j < |cs| && cs[i].horse == cs[j].horse && cs[i].key == cs[j].key ::
      Agree(cs[i].occ, cs[j].occ)
  }

  lemma GroupsAgree(cs: seq<Contribution>)
    requires forall c | c in cs :: c.occ.observations.Some? ==> Aware(c.occ)
    ensures PairsAgree(cs) <==> GroupsOk(cs)
  {
    hide GroupOk, Agree, Group, Aware, PairsAgree;
    if PairsAgree(cs) {
      forall horse, key ensures GroupOk(Group(cs, horse, key)) {
        AgreeingGroup(cs, horse, key);
      }
    } else if GroupsOk(cs) {
      AgreeingPairs(cs);
    }
  }

  lemma AgreeingPairs(cs: seq<Contribution>)
    requires GroupsOk(cs)
    ensures PairsAgree(cs)
  {
    hide GroupOk, Agree, Group;
    forall i, j | 0 <= i < j < |cs| && cs[i].horse == cs[j].horse && cs[i].key == cs[j].key
      ensures Agree(cs[i].occ, cs[j].occ)
    {
      var horse, key := cs[i].horse, cs[i].key;
      GroupPositions(cs, horse, key, i);
      GroupPositions(cs, horse, key, j);
      PrefixIsSmaller(cs, horse, key, i, j);
      assert GroupOk(Group(cs, horse, key));
      MembersAgree(Group(cs, horse, key), |Group(cs[..i], horse, key)|, |Group(cs[..j], horse, key)|);
    }
  }

  lemma PrefixIsSmaller(cs: seq<Contribution>, horse: string, key: string, i: nat, j: nat)
    requires i < j < |cs| && cs[i].horse == horse && cs[i].key == key
    ensures |Group(cs[..i], horse, key)| < |Group(cs[..j], horse, key)|
  {
    assert cs[..j][..i] == cs[..i];
    GroupPositions(cs[..j], horse, key, i);
  }

  lemma MembersAgree(g: seq<Occurrence>, a: nat, b: nat)
    requires a < b < |g| && GroupOk(g)
    ensures Agree(g[a], g[b])
  {
    assert g[a] in g && g[b] in g;
    forall x, y | x in ListOf(g[a]) + ListOf(g[b]) && y in ListOf(g[a]) + ListOf(g[b]) ensures x.payload == y.payload {
      assert x in UnionOf(g) && y in UnionOf(g);
    }
  }

  lemma AgreeingGroup(cs: seq<Contribution>, horse: string, key: string)
    requires PairsAgree(cs) && forall c | c in cs :: c.occ.observations.Some? ==> Aware(c.occ)
    ensures GroupOk(Group(cs, horse, key))
  {
    hide Group, Agree, PairsAgree;
    var g := Group(cs, horse, key);
    GroupMembers(cs, horse, key);
    forall a, b | 0 <= a < b < |g| ensures Agree(g[a], g[b]) {
      hide Aware;
      var i := PositionsOfGroup(cs, horse, key, a);
      var j := PositionsOfGroup(cs, horse, key, b);
      PositionsInOrder(cs, horse, key, i, j);
      assert Agree(cs[i].occ, cs[j].occ) by { PairAgrees(cs, i, j); }
    }
    if |g| >= 2 {
      forall o | o in g ensures Aware(o) && o.sem == g[0].sem {
        var a :| 0 <= a < |g| && g[a] == o;
        assert Contribution(horse, key, o) in cs;
        AgreeingPair(g, if a == 0 then 1 else 0, a);
      }
      forall x, y | x in UnionOf(g) && y in UnionOf(g) ensures x.payload == y.payload {
        var o, p :| o in g && p in g && x in ListOf(o) && y in ListOf(p);
        var a :| 0 <= a < |g| && g[a] == o;
        var b :| 0 <= b < |g| && g[b] == p;
        AgreeingPair(g, a, if b != a then b else if a == 0 then 1 else 0);
      }
    }
  }

  lemma PositionsInOrder(cs: seq<Contribution>, horse: string, key: string, i: nat, j: nat)
    requires i < |cs| && j < |cs| && cs[j].horse == horse && cs[j].key == key
    requires |Group(cs[..i], horse, key)| < |Group(cs[..j], horse, key)|
    ensures i < j
  {
    if j < i { PrefixIsSmaller(cs, horse, key, j, i); }
  }

  lemma PairAgrees(cs: seq<Contribution>, i: nat, j: nat)
    requires PairsAgree(cs) && i < j < |cs| && cs[i].horse == cs[j].horse && cs[i].key == cs[j].key
    ensures Agree(cs[i].occ, cs[j].occ)
  {}

  /** Agreement of two members in whichever order. */
  lemma AgreeingPair(g: seq<Occurrence>, a: nat, b: nat)
    requires a < |g| && b < |g| && a != b && forall i, j | 0 <= i < j < |g| :: Agree(g[i], g[j])
    ensures g[a].observations.Some? && g[b].observations.Some? && g[a].sem == g[b].sem
    ensures forall x, y | x in ListOf(g[a]) + ListOf(g[b]) && y in ListOf(g[a]) + ListOf(g[b]) :: x.payload == y.payload
  {
    assert Agree(g[if a < b then a else b], g[if a < b then b else a]);
    assert forall x :: x in ListOf(g[a]) + ListOf(g[b]) <==> x in ListOf(g[b]) + ListOf(g[a]);
  }

  lemma OkOccurrencesAreAware(cs: seq<Contribution>)
    requires forall c | c in cs :: OccurrenceOk(c.occ)
    ensures forall c | c in cs :: c.occ.observations.Some? ==> Aware(c.occ)
  {
    hide IsRaceId, IsSha, Strip;
  }

  lemma ConflictsAreIdentities(cs: seq<Contribution>)
    requires forall c | c in cs :: c.key == KeyOf(c.occ)
    ensures (forall c, d | c in cs && d in cs && c.key == d.key :: IdentityOf(c.occ) == IdentityOf(d.occ))
            <==> forall c, d | c in cs && d in cs && SamePlace(c.occ, d.occ) ::
                   c.occ.sem.racePayload == d.occ.sem.racePayload && c.occ.sem.target == d.occ.sem.target
  {
    hide KeyOf;
    forall c, d | c in cs && d in cs ensures c.key == d.key <==> SamePlace(c.occ, d.occ) {
      KeysArePlaces(c.occ, d.occ);
    }
  }

  lemma {:induction false} CellKeys(rows: seq<SeedRow>)
    ensures forall c | c in Contribs(rows) :: c.key == KeyOf(c.occ)
  {
    hide KeyOf;
    if rows != [] { CellKeys(rows[..|rows| - 1]); }
  }

  /** What the checks of the merge amount to over all cells. */
  lemma ContribsOkMeans(cs: seq<Contribution>)
    requires forall c | c in cs :: c.key == KeyOf(c.occ)
    ensures ContribsOk(cs) <==>
              && (forall c | c in cs :: Documented(c.occ))
              && (forall c, d | c in cs && d in cs && SamePlace(c.occ, d.occ) ::
                    c.occ.sem.racePayload == d.occ.sem.racePayload && c.occ.sem.target == d.occ.sem.target)
              && (forall i, j | 0 <= i < j < |cs| && cs[i].horse == cs[j].horse && SamePlace(cs[i].occ, cs[j].occ) ::
                    Agree(cs[i].occ, cs[j].occ))
  {
    hide KeyOf, Documented, OccurrenceOk, GroupsOk, Agree, IdentityOf, SamePlace, Aware;
    forall c | c in cs ensures OccurrenceOk(c.occ) <==> Documented(c.occ) { DocumentedIsOk(c.occ); }
    ConflictsAreIdentities(cs);
    if forall c | c in cs :: OccurrenceOk(c.occ) {
      OkOccurrencesAreAware(cs);
      GroupsAgree(cs);
      forall i, j | 0 <= i < |cs| && 0 <= j < |cs|
        ensures cs[i].key == cs[j].key <==> SamePlace(cs[i].occ, cs[j].occ)
      {
        assert cs[i] in cs && cs[j] in cs;
        KeysArePlaces(cs[i].occ, cs[j].occ);
      }
      assert PairsAgree(cs) <==>
               forall i, j | 0 <= i < j < |cs| && cs[i].horse == cs[j].horse && SamePlace(cs[i].occ, cs[j].occ) ::
                 Agree(cs[i].occ, cs[j].occ);
    }
  }

  lemma RowOkMeans(row: SeedRow)
    ensures RowOk(row) <==>
              && IsHorseId(row.horse) && row.occurrences != []
              && row.batches != [] && Ascending(row.batches, Same) && (forall b | b in row.batches :: IsSha(b))
  {
    hide IsSha, Ascending;
  }

  /** The sources as a set of cells. */
  lemma SourcesAsCells(sources: seq<Source>)
    ensures (forall horse, o | SourceOccurrence(sources, horse, o) :: Documented(o))
            <==> forall c | c in Contribs(AllRows(sources)) :: Documented(c.occ)
    ensures (forall horse, o, horse', p | SourceOccurrence(sources, horse, o) && SourceOccurrence(sources, horse', p)
                                          && SamePlace(o, p) ::
               o.sem.racePayload == p.sem.racePayload && o.sem.target == p.sem.target)
            <==> forall c, d | c in Contribs(AllRows(sources)) && d in Contribs(AllRows(sources))
                               && SamePlace(c.occ, d.occ) ::
                   c.occ.sem.racePayload == d.occ.sem.racePayload && c.occ.sem.target == d.occ.sem.target
  {
    hide KeyOf, Contribs, Documented, SourceOccurrence, SamePlace;
    var cs := Contribs(AllRows(sources));
    CellKeys(AllRows(sources));
    forall c | c in cs ensures SourceOccurrence(sources, c.horse, c.occ) {
      SourceCells(sources, c.horse, c.occ);
      assert c == Contribution(c.horse, KeyOf(c.occ), c.occ);
    }
    forall horse, o | SourceOccurrence(sources, horse, o) ensures Contribution(horse, KeyOf(o), o) in cs {
      SourceCells(sources, horse, o);
    }
  }

  lemma MergeableMeans(sources: seq<Source>)
    ensures Paired(sources) && Accepts(AllRows(sources)) <==> Mergeable(sources)
  {
    hide Contribs, Documented, SourceOccurrence, SamePlace, ContribsOk, RowOk, Agree, IsSha, IsHorseId, Ascending;
    CellKeys(AllRows(sources));
    ContribsOkMeans(Contribs(AllRows(sources)));
    SourcesAsCells(sources);
    forall row ensures row in AllRows(sources) <==> SourceRow(sources, row) {
      RowsUpToMembers(sources, |sources|, row);
    }
    forall row ensures RowOk(row) <==>
                 && IsHorseId(row.horse) && row.occurrences != []
                 && row.batches != [] && Ascending(row.batches, Same) && (forall b | b in row.batches :: IsSha(b))
    {
      RowOkMeans(row);
    }
  }

  /** `merge_stable_runner_ledgers` up to the rows that it writes. */
  method Merge(sources: seq<Source>) returns (r: Result<seq<SeedRow>, string>)
    ensures r.Ok? <==> Paired(sources) && Accepts(AllRows(sources))
    ensures r.Ok? ==> r.value == Emit(Merged(AllRows(sources)))
    ensures r.Ok? <==> Mergeable(sources)
    ensures r.Ok? ==>
              KeepsHorses(sources, r.value) && KeepsNames(sources, r.value) && KeepsOccurrences(sources, r.value)
  {
    hide Accepts, StateOf, Merged, Emit, Mergeable, KeepsHorses, KeepsNames, KeepsOccurrences;
    MergeableMeans(sources);
    if |sources| < 2 { return Err("merge requires at least two paired stable ledgers"); }
    var seen: set<(string, string)> := {};
    var merged: map<string, Entry> := map[];
    var ids: map<string, RaceIdentity> := map[];
    NothingRead();
    for k := 0 to |sources|
      invariant StateOf(merged, ids, RowsUpTo(sources, k)) && Accepts(RowsUpTo(sources, k))
      invariant seen == set i | 0 <= i < k :: SourceKey(sources[i])
      invariant forall i, j | 0 <= i < j < k :: SourceKey(sources[i]) != SourceKey(sources[j])
    {
      if SourceKey(sources[k]) in seen { return Err("source stable ledger is duplicated"); }
      seen := seen + {SourceKey(sources[k])};
      AcceptsSources(sources, k + 1, |sources|);
      var added := AddSource(merged, ids, sources[k].rows, RowsUpTo(sources, k));
      if added.Err? { return Err(added.error); }
      merged, ids := added.value.0, added.value.1;
    }
    StateIsMerged(merged, ids, AllRows(sources));
    EmittedHorses(sources);
    EmittedNames(sources);
    EmittedOccurrences(sources);
    var seeds := EmitSeeds(merged);
    return Ok(seeds);
  }
}
