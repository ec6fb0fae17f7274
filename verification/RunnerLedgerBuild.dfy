/** Building the runner ledger of one materialised batch
    (runtime/research/build_target_runner_stable_id_ledger.py). */
module RunnerLedgerBuild {
  import opened Wrappers
  import opened TextOrder
  import opened CanonicalText
  import opened RunnerOccurrences
  import opened RunnerLedgerMerge

  datatype Runner = Runner(horseId: string, name: string, position: string, details: string)

  /** A provider race without its starter list and derived counters. */
  datatype RawRace = RawRace(raceId: string, details: string)

  datatype Materialized =
    | Gap
    | Race(seed: string, run: string, race: RawRace, starters: seq<Runner>)

  predicate IsAscii(s: string) {
    forall c | c in s :: c < '\U{80}'
  }

  /** Compatibility composition leaves ASCII text alone; nothing else is used of it here. */
  ghost predicate KeepsAscii(nfkc: string -> string) {
    forall s | IsAscii(s) :: nfkc(s) == s
  }

  /** Unicode Normalization Form KC. */
  type Composition = nfkc: string -> string | KeepsAscii(nfkc) witness (s: string) => s

  /** Payload digests, the resolution of a race into a target (none when its date, region, grade
      or type is unsupported), which finishing positions are those of actual starters, and the
      Unicode normalisation of provider fields. */
  datatype Rules = Rules(
    raceSha: RawRace -> string, runnerSha: Runner -> string,
    target: RawRace -> Option<Target>, starts: string -> bool, nfkc: Composition)

  /** `normalize_space`: compatibility composition first, then single spaces between words. */
  function Clean(rules: Rules): string -> string {
    s => NormalizeSpace(rules.nfkc(s))
  }

  function RaceIdOf(rules: Rules, m: Materialized): string
    requires m.Race?
  {
    Clean(rules)(m.race.raceId)
  }

  predicate Resolved(rules: Rules, m: Materialized)
    requires m.Race?
  {
    IsRaceId(RaceIdOf(rules, m)) && rules.target(m.race).Some?
  }

  /** `_target_occurrence` for a race that resolves. */
  function OccurrenceOf(rules: Rules, m: Materialized, runner: Runner): Occurrence
    requires m.Race?
  {
    var observation := Observation(m.seed, m.run, rules.runnerSha(runner));
    var target := if rules.target(m.race).Some? then rules.target(m.race).value else map[];
    Occurrence(
      Semantics(RaceIdOf(rules, m), rules.raceSha(m.race), target,
                Clean(rules)(runner.name), Clean(rules)(runner.position)),
      observation, Some([observation]))
  }

  function SightingOf(rules: Rules, m: Materialized, idOf: string -> string, runner: Runner): Contribution
    requires m.Race?
  {
    Contribution(idOf(runner.horseId), RaceIdOf(rules, m), OccurrenceOf(rules, m, runner))
  }

  /** The first `n` starters of a race, filed by horse (as `idOf` reads its id) and race. */
  function RaceSightings(rules: Rules, m: Materialized, idOf: string -> string, n: nat): seq<Contribution>
    requires m.Race? && n <= |m.starters|
  {
    if n == 0 then []
    else RaceSightings(rules, m, idOf, n - 1) + [SightingOf(rules, m, idOf, m.starters[n - 1])]
  }

  function AllOf(rules: Rules, m: Materialized, idOf: string -> string): seq<Contribution> {
    if m.Gap? then [] else RaceSightings(rules, m, idOf, |m.starters|)
  }

  /** Every starter of the first `n` races in order. */
  function SightingsUpTo(rules: Rules, races: seq<Materialized>, idOf: string -> string, n: nat): seq<Contribution>
    requires n <= |races|
  {
    if n == 0 then [] else SightingsUpTo(rules, races, idOf, n - 1) + AllOf(rules, races[n - 1], idOf)
  }

  function Sightings(rules: Rules, races: seq<Materialized>, idOf: string -> string): seq<Contribution> {
    SightingsUpTo(rules, races, idOf, |races|)
  }

  predicate StarterOk(rules: Rules, runner: Runner) {
    IsHorseId(Clean(rules)(runner.horseId)) && rules.starts(runner.position)
  }

  function HorseIds(rules: Rules, m: Materialized, k: nat): set<string>
    requires m.Race? && k <= |m.starters|
  {
    set i | 0 <= i < k :: Clean(rules)(m.starters[i].horseId)
  }

  /** The first `k` starters are actual ones with valid and different horse ids. */
  predicate StartersOk(rules: Rules, m: Materialized, k: nat)
    requires m.Race? && k <= |m.starters|
  {
    forall i | 0 <= i < k ::
      StarterOk(rules, m.starters[i]) && Clean(rules)(m.starters[i].horseId) !in HorseIds(rules, m, i)
  }

  predicate RaceOk(rules: Rules, m: Materialized) {
    m.Race? ==> m.starters != [] && Resolved(rules, m) && StartersOk(rules, m, |m.starters|)
  }

  /** Every physical race was seen with one payload only. */
  predicate RacesAgree(rules: Rules, races: seq<Materialized>, n: nat)
    requires n <= |races|
  {
    forall i, j | 0 <= i < j < n && races[i].Race? && races[j].Race?
                  && RaceIdOf(rules, races[i]) == RaceIdOf(rules, races[j]) ::
      rules.raceSha(races[i].race) == rules.raceSha(races[j].race)
  }

  ghost predicate BuildOkUpTo(rules: Rules, races: seq<Materialized>, n: nat)
    requires n <= |races|
  {
    && (forall i | 0 <= i < n :: RaceOk(rules, races[i]))
    && RacesAgree(rules, races, n)
    && GroupsOk(SightingsUpTo(rules, races, Clean(rules), n))
  }

  /** When a batch has a ledger. */
  ghost predicate BuildOk(rules: Rules, races: seq<Materialized>) {
    BuildOkUpTo(rules, races, |races|)
  }

  ghost function HorsesIn(cs: seq<Contribution>): set<string> {
    set c | c in cs :: c.horse
  }

  ghost function NamesIn(cs: seq<Contribution>, horse: string): set<string> {
    set c | c in cs && c.horse == horse :: c.occ.sem.name
  }

  /** The ledger of a batch, described without any order of races or starters. */
  ghost function Built(cs: seq<Contribution>, batch: string): map<string, Entry> {
    map horse | horse in HorsesIn(cs) ::
      Entry(NamesIn(cs, horse) - {""}, {batch}, OccurrencesOf(cs, horse))
  }

  lemma {:induction false} RaceSightingsAware(rules: Rules, m: Materialized, idOf: string -> string, n: nat)
    requires m.Race? && n <= |m.starters|
    ensures forall c | c in RaceSightings(rules, m, idOf, n) :: Aware(c.occ) && c.key == c.occ.sem.race
  {
    hide Clean;
    if n > 0 { RaceSightingsAware(rules, m, idOf, n - 1); }
  }

  lemma {:induction false} SightingsAware(rules: Rules, races: seq<Materialized>, idOf: string -> string, n: nat)
    requires n <= |races|
    ensures forall c | c in SightingsUpTo(rules, races, idOf, n) :: Aware(c.occ) && c.key == c.occ.sem.race
  {
    hide Aware, RaceSightings;
    if n > 0 {
      SightingsAware(rules, races, idOf, n - 1);
      if races[n - 1].Race? { RaceSightingsAware(rules, races[n - 1], idOf, |races[n - 1].starters|); }
    }
  }

  ghost predicate AllAware(cs: seq<Contribution>) {
    forall c | c in cs :: Aware(c.occ)
  }

  lemma GroupsOkSnoc(cs: seq<Contribution>, c: Contribution)
    requires GroupsOk(cs)
    ensures GroupsOk(cs + [c]) <==> GroupOk(Group(cs, c.horse, c.key) + [c.occ])
  {
    hide GroupOk, Group;
    forall horse, key
      ensures Group(cs + [c], horse, key)
              == if c.horse == horse && c.key == key then Group(cs, horse, key) + [c.occ]
                 else Group(cs, horse, key)
    {
      GroupSnoc(cs, c, horse, key);
      assert Group(cs, horse, key) + [] == Group(cs, horse, key);
    }
    assert Group(cs + [c], c.horse, c.key) == Group(cs, c.horse, c.key) + [c.occ];
  }

  lemma GroupsOkPrefix(cs: seq<Contribution>, ds: seq<Contribution>)
    ensures GroupsOk(cs + ds) ==> GroupsOk(cs)
  {
    hide GroupOk, Group;
    if GroupsOk(cs + ds) {
      forall horse, key ensures GroupOk(Group(cs, horse, key)) {
        GroupAppend(cs, ds, horse, key);
        assert GroupOk(Group(cs + ds, horse, key));
        GroupOkPrefix(Group(cs, horse, key), Group(ds, horse, key));
      }
    }
  }

  /** File a sighting after those of `g`: both the builder and the coverage audit do this. */
  method FileSighting(previous: Option<Occurrence>, o: Occurrence, ghost g: seq<Occurrence>)
    returns (r: Result<Occurrence, string>)
    requires Aware(o) && GroupOk(g) && forall p | p in g :: Aware(p)
    requires previous == if g == [] then None else Some(Combine(g))
    ensures r.Ok? <==> GroupOk(g + [o])
    ensures r.Ok? ==> r.value == Combine(g + [o])
  {
    if previous.None? {
      assert g + [o] == [o];
      return Ok(o);
    }
    MergeObservedIsCombine(g, o);
    return MergeObserved(previous.value, o);
  }

  ghost predicate BuildState(horses: map<string, Entry>, cs: seq<Contribution>) {
    && AllAware(cs) && GroupsOk(cs) && horses.Keys == HorsesIn(cs)
    && forall horse | horse in horses ::
         horses[horse].names == NamesIn(cs, horse) && FiledAs(horses[horse].occurrences, cs, horse)
  }

  lemma GroupIsAware(cs: seq<Contribution>, horse: string, key: string)
    requires AllAware(cs)
    ensures forall o | o in Group(cs, horse, key) :: Aware(o)
  {
    GroupMembers(cs, horse, key);
  }

  lemma OtherHorsesKept(occs: map<string, Occurrence>, cs: seq<Contribution>, c: Contribution, horse: string)
    requires horse != c.horse && FiledAs(occs, cs, horse)
    ensures FiledAs(occs, cs + [c], horse) && NamesIn(cs + [c], horse) == NamesIn(cs, horse)
  {
    hide Combine, Group;
    assert forall d :: d in cs + [c] <==> d in cs || d == c;
    forall key ensures Group(cs + [c], horse, key) == Group(cs, horse, key) {
      GroupSnoc(cs, c, horse, key);
      assert Group(cs, horse, key) + [] == Group(cs, horse, key);
    }
  }

  lemma UnseenHorse(cs: seq<Contribution>, horse: string)
    requires horse !in HorsesIn(cs)
    ensures FiledAs(map[], cs, horse) && NamesIn(cs, horse) == {}
  {
    forall key ensures Group(cs, horse, key) == [] {
      ForeignGroup(cs, horse, key);
    }
  }

  lemma SightingFiled(horses: map<string, Entry>, cs: seq<Contribution>, c: Contribution, entry: Entry)
    requires BuildState(horses, cs) && GroupsOk(cs + [c]) && Aware(c.occ)
    requires entry.names == NamesIn(cs, c.horse) + {c.occ.sem.name}
    requires FiledAs(entry.occurrences, cs + [c], c.horse)
    ensures BuildState(horses[c.horse := entry], cs + [c])
  {
    hide FiledAs, GroupsOk, Aware;
    assert forall d :: d in cs + [c] <==> d in cs || d == c;
    forall horse | horse in horses && horse != c.horse
      ensures FiledAs(horses[horse].occurrences, cs + [c], horse) && NamesIn(cs + [c], horse) == NamesIn(cs, horse)
    {
      OtherHorsesKept(horses[horse].occurrences, cs, c, horse);
    }
  }

  /** The part of the starter loop that files one occurrence. */
  method AddStarter(horses: map<string, Entry>, c: Contribution, ghost cs: seq<Contribution>)
    returns (r: Result<map<string, Entry>, string>)
    requires BuildState(horses, cs) && Aware(c.occ)
    ensures r.Ok? <==> GroupsOk(cs + [c])
    ensures r.Ok? ==> BuildState(r.value, cs + [c])
  {
    var entry := if c.horse in horses then horses[c.horse] else Entry({}, {}, map[]);
    if c.horse !in horses { UnseenHorse(cs, c.horse); }
    ghost var g := Group(cs, c.horse, c.key);
    GroupIsAware(cs, c.horse, c.key);
    GroupsOkSnoc(cs, c);
    hide BuildState, Group, GroupOk, Combine, Aware;
    assert FiledAs(entry.occurrences, cs, c.horse) && GroupOk(g);
    var filed := FileSighting(
      if c.key in entry.occurrences then Some(entry.occurrences[c.key]) else None, c.occ, g);
    if filed.Err? { return Err("runner occurrence conflict"); }
    var occs := entry.occurrences[c.key := filed.value];
    FiledSnoc(entry.occurrences, occs, cs, c);
    var entry' := Entry(entry.names + {c.occ.sem.name}, {}, occs);
    SightingFiled(horses, cs, c, entry');
    return Ok(horses[c.horse := entry']);
  }

  lemma {:induction false} StartersPrefix(rules: Rules, m: Materialized, cs: seq<Contribution>, k: nat, n: nat)
    requires m.Race? && k <= n <= |m.starters|
    ensures GroupsOk(cs + RaceSightings(rules, m, Clean(rules), n)) ==>
              GroupsOk(cs + RaceSightings(rules, m, Clean(rules), k))
    decreases n
  {
    hide GroupsOk, SightingOf;
    if k < n {
      StartersPrefix(rules, m, cs, k, n - 1);
      SightingSnoc(rules, m, cs, n - 1);
      GroupsOkPrefix(cs + RaceSightings(rules, m, Clean(rules), n - 1),
                     [SightingOf(rules, m, Clean(rules), m.starters[n - 1])]);
    }
  }

  lemma SightingSnoc(rules: Rules, m: Materialized, cs: seq<Contribution>, k: nat)
    requires m.Race? && k < |m.starters|
    ensures cs + RaceSightings(rules, m, Clean(rules), k + 1)
            == cs + RaceSightings(rules, m, Clean(rules), k)
               + [SightingOf(rules, m, Clean(rules), m.starters[k])]
  {
    hide SightingOf;
  }

  lemma NoStarters(rules: Rules, m: Materialized, cs: seq<Contribution>)
    requires m.Race?
    ensures cs + RaceSightings(rules, m, Clean(rules), 0) == cs
  {}

  /** The loop over the actual starters of one race. */
  method AddRace(rules: Rules, horses0: map<string, Entry>, m: Materialized, ghost cs: seq<Contribution>)
    returns (r: Result<map<string, Entry>, string>)
    requires BuildState(horses0, cs) && m.Race?
    ensures r.Ok? <==> RaceOk(rules, m) && GroupsOk(cs + AllOf(rules, m, Clean(rules)))
    ensures r.Ok? ==> BuildState(r.value, cs + AllOf(rules, m, Clean(rules)))
  {
    hide BuildState, GroupsOk, IsHorseId, Clean, Resolved, RaceSightings, SightingOf;
    if m.starters == [] { return Err("target race actual starters are missing"); }
    var horses := horses0;
    var seen: set<string> := {};
    ghost var filed := cs;
    NoStarters(rules, m, cs);
    for k := 0 to |m.starters|
      invariant filed == cs + RaceSightings(rules, m, Clean(rules), k) && BuildState(horses, filed)
      invariant k > 0 ==> Resolved(rules, m)
      invariant StartersOk(rules, m, k) && seen == HorseIds(rules, m, k)
    {
      var runner := m.starters[k];
      var horse := Clean(rules)(runner.horseId);
      if !IsHorseId(horse) || horse in seen {
        return Err("actual starter horse identity is invalid or duplicated");
      }
      if !rules.starts(runner.position) {
        return Err("actual starter list contains a non-starter or unresolved status");
      }
      seen := seen + {horse};
      if !Resolved(rules, m) { return Err("target race is unsupported"); }
      SightingSnoc(rules, m, cs, k);
      SightingIsAware(rules, m, runner);
      StartersPrefix(rules, m, cs, k + 1, |m.starters|);
      var c := SightingOf(rules, m, Clean(rules), runner);
      var added := AddStarter(horses, c, filed);
      if added.Err? { return Err(added.error); }
      filed := filed + [c];
      horses := added.value;
    }
    BuildStateOk(horses, filed);
    return Ok(horses);
  }

  lemma SightingIsAware(rules: Rules, m: Materialized, runner: Runner)
    requires m.Race?
    ensures Aware(SightingOf(rules, m, Clean(rules), runner).occ)
  {}

  lemma BuildStateOk(horses: map<string, Entry>, cs: seq<Contribution>)
    requires BuildState(horses, cs)
    ensures GroupsOk(cs)
  {}

  ghost predicate HashesOf(hashes: map<string, string>, rules: Rules, races: seq<Materialized>, n: nat)
    requires n <= |races|
  {
    && (forall i | 0 <= i < n && races[i].Race? ::
          RaceIdOf(rules, races[i]) in hashes && hashes[RaceIdOf(rules, races[i])] == rules.raceSha(races[i].race))
    && (forall id | id in hashes :: exists i :: 0 <= i < n && races[i].Race? && RaceIdOf(rules, races[i]) == id)
  }

  /** The first race that disagrees with an earlier payload is found by its hash. */
  lemma HashesSnoc(hashes: map<string, string>, rules: Rules, races: seq<Materialized>, n: nat)
    requires n < |races| && HashesOf(hashes, rules, races, n) && RacesAgree(rules, races, n)
    requires races[n].Race?
    ensures var id, sha := RaceIdOf(rules, races[n]), rules.raceSha(races[n].race);
      && (RacesAgree(rules, races, n + 1) <==> (id in hashes ==> hashes[id] == sha))
      && (RacesAgree(rules, races, n + 1) ==> HashesOf(hashes[id := sha], rules, races, n + 1))
  {
    hide Clean;
    var id, sha := RaceIdOf(rules, races[n]), rules.raceSha(races[n].race);
    if id in hashes {
      var i :| 0 <= i < n && races[i].Race? && RaceIdOf(rules, races[i]) == id;
    }
    var hashes' := hashes[id := sha];
    forall k | k in hashes' ensures exists i :: 0 <= i < n + 1 && races[i].Race? && RaceIdOf(rules, races[i]) == k {
      if k == id {
        assert RaceIdOf(rules, races[n]) == k;
      } else {
        var i :| 0 <= i < n && races[i].Race? && RaceIdOf(rules, races[i]) == k;
      }
    }
  }

  lemma GapAdds(hashes: map<string, string>, rules: Rules, races: seq<Materialized>, n: nat)
    requires n < |races| && races[n].Gap? && BuildOkUpTo(rules, races, n) && HashesOf(hashes, rules, races, n)
    ensures BuildOkUpTo(rules, races, n + 1) && HashesOf(hashes, rules, races, n + 1)
    ensures SightingsUpTo(rules, races, Clean(rules), n + 1) == SightingsUpTo(rules, races, Clean(rules), n)
  {
    hide GroupsOk, RaceIdOf, RaceOk, Clean, AllOf;
    var cs := SightingsUpTo(rules, races, Clean(rules), n);
    GapIsNothing(rules, races[n], cs);
    GapHashes(hashes, rules, races, n);
  }

  lemma GapIsNothing(rules: Rules, m: Materialized, cs: seq<Contribution>)
    requires m.Gap?
    ensures RaceOk(rules, m) && cs + AllOf(rules, m, Clean(rules)) == cs
  {}

  lemma GapHashes(hashes: map<string, string>, rules: Rules, races: seq<Materialized>, n: nat)
    requires n < |races| && races[n].Gap? && HashesOf(hashes, rules, races, n)
    ensures HashesOf(hashes, rules, races, n + 1)
  {
    hide RaceIdOf;
    forall id | id in hashes ensures exists i :: 0 <= i < n + 1 && races[i].Race? && RaceIdOf(rules, races[i]) == id {
      var i :| 0 <= i < n && races[i].Race? && RaceIdOf(rules, races[i]) == id;
    }
  }

  lemma BuildOkSnoc(rules: Rules, races: seq<Materialized>, n: nat)
    requires n < |races|
    ensures BuildOkUpTo(rules, races, n + 1) <==>
              && BuildOkUpTo(rules, races, n) && RaceOk(rules, races[n]) && RacesAgree(rules, races, n + 1)
              && GroupsOk(SightingsUpTo(rules, races, Clean(rules), n) + AllOf(rules, races[n], Clean(rules)))
  {
    hide RaceOk, GroupsOk, RaceIdOf, AllOf;
    GroupsOkPrefix(SightingsUpTo(rules, races, Clean(rules), n), AllOf(rules, races[n], Clean(rules)));
  }

  /** A batch whose first races are refused is refused. */
  lemma {:induction false} BuildOkPrefix(rules: Rules, races: seq<Materialized>, k: nat, n: nat)
    requires k <= n <= |races|
    ensures BuildOkUpTo(rules, races, n) ==> BuildOkUpTo(rules, races, k)
    decreases n
  {
    hide BuildOkUpTo;
    if k < n {
      BuildOkSnoc(rules, races, n - 1);
      BuildOkPrefix(rules, races, k, n - 1);
    }
  }

  lemma NothingBuilt(rules: Rules, races: seq<Materialized>)
    ensures BuildState(map[], SightingsUpTo(rules, races, Clean(rules), 0))
    ensures BuildOkUpTo(rules, races, 0) && HashesOf(map[], rules, races, 0)
  {}

  /** A state of the race loop turned into the ledger of the batch. */
  lemma StateIsBuilt(horses: map<string, Entry>, cs: seq<Contribution>, batch: string, out: map<string, Entry>)
    requires BuildState(horses, cs)
    requires out.Keys == horses.Keys
    requires forall horse | horse in out ::
               out[horse] == Entry(horses[horse].names - {""}, {batch}, horses[horse].occurrences)
    ensures out == Built(cs, batch)
  {
    hide FiledAs, OccurrencesOf;
    forall horse | horse in out ensures out[horse] == Built(cs, batch)[horse] {
      FiledIsComplete(horses[horse].occurrences, cs, horse);
    }
  }

  // ---------------------------------------------------------------- what a ledger says of its races

  predicate StarterAt(races: seq<Materialized>, i: int, k: int) {
    0 <= i < |races| && races[i].Race? && 0 <= k < |races[i].starters|
  }

  /** A horse id as it is read: `raw` by the audit, normalised by the builder. */
  function IdText(rules: Rules, raw: bool, id: string): string {
    if raw then id else Words(rules, id)
  }

  function Words(rules: Rules, s: string): string {
    NormalizeSpace(rules.nfkc(s))
  }

  function RaceText(rules: Rules, m: Materialized): string
    requires m.Race?
  {
    Words(rules, m.race.raceId)
  }

  function ObservationBy(rules: Rules, m: Materialized, runner: Runner): Observation
    requires m.Race?
  {
    Observation(m.seed, m.run, rules.runnerSha(runner))
  }

  /** `o` says of this race and this starter what the provider said. */
  predicate Tells(rules: Rules, m: Materialized, runner: Runner, o: Occurrence)
    requires m.Race?
  {
    && o.sem.race == RaceText(rules, m) && o.sem.racePayload == rules.raceSha(m.race)
    && Some(o.sem.target) == rules.target(m.race)
    && o.sem.name == Words(rules, runner.name)
    && o.sem.position == Words(rules, runner.position)
    && o.observations.Some? && ObservationBy(rules, m, runner) in o.observations.value
  }

  /** Starter `k` of race `i` was seen as this horse in this race, with this observation. */
  predicate SeenAs(rules: Rules, races: seq<Materialized>, raw: bool, horse: string, race: string, x: Observation,
                   i: int, k: int)
  {
    && StarterAt(races, i, k) && IdText(rules, raw, races[i].starters[k].horseId) == horse
    && RaceText(rules, races[i]) == race
    && x == ObservationBy(rules, races[i], races[i].starters[k])
  }

  /** Every starter is told of under its horse and race, and nothing else is said there. */
  ghost predicate TellsAll(rules: Rules, races: seq<Materialized>, raw: bool, rows: seq<SeedRow>) {
    && (forall i, k | StarterAt(races, i, k) ::
          exists row, o :: row in rows && row.horse == IdText(rules, raw, races[i].starters[k].horseId)
                           && o in row.occurrences && Tells(rules, races[i], races[i].starters[k], o))
    && (forall i, k, row, o | StarterAt(races, i, k) && row in rows && o in row.occurrences
                              && row.horse == IdText(rules, raw, races[i].starters[k].horseId)
                              && o.sem.race == RaceText(rules, races[i]) ::
          Tells(rules, races[i], races[i].starters[k], o))
  }

  /** Nothing is told but by starters: every occurrence lists observations, each made of one. */
  ghost predicate TellsOnly(rules: Rules, races: seq<Materialized>, raw: bool, rows: seq<SeedRow>) {
    forall row, o | row in rows && o in row.occurrences ::
      && o.observations.Some? && IsFirst(o.primary, o.observations.value)
      && forall x | x in o.observations.value ::
           exists i, k :: SeenAs(rules, races, raw, row.horse, o.sem.race, x, i, k)
  }

  /** The names of a horse are those of its starters, as far as they are not blank. */
  ghost predicate TellsNames(rules: Rules, races: seq<Materialized>, batch: string, rows: seq<SeedRow>) {
    forall row | row in rows ::
      && row.batches == [batch]
      && forall n :: n in row.names <==>
           n != "" && exists i, k :: StarterAt(races, i, k) && Words(rules, races[i].starters[k].name) == n
                                     && IdText(rules, false, races[i].starters[k].horseId) == row.horse
  }

  ghost predicate OnePlaceEach(rows: seq<SeedRow>) {
    && Ascending(rows, HorseOf)
    && forall row, i, j | row in rows && 0 <= i < j < |row.occurrences| ::
         row.occurrences[i].sem.race != row.occurrences[j].sem.race
  }

  /** The ledger of a batch in terms of its races and starters alone. */
  ghost predicate LedgerOf(rules: Rules, races: seq<Materialized>, batch: string, rows: seq<SeedRow>) {
    && TellsAll(rules, races, false, rows) && TellsOnly(rules, races, false, rows)
    && TellsNames(rules, races, batch, rows) && OnePlaceEach(rows)
  }

  /** The batches that have a ledger: races with a valid id and a target, actual starters with valid
      and different horse ids, one payload per race and one story per horse and race. */
  ghost predicate Buildable(rules: Rules, races: seq<Materialized>) {
    && (forall i | 0 <= i < |races| && races[i].Race? ::
          && races[i].starters != [] && rules.target(races[i].race).Some?
          && IsRaceId(RaceText(rules, races[i])))
    && (forall i, k | StarterAt(races, i, k) ::
          && IsHorseId(IdText(rules, false, races[i].starters[k].horseId))
          && rules.starts(races[i].starters[k].position))
    && (forall i, k, l | StarterAt(races, i, k) && StarterAt(races, i, l) && k < l ::
          IdText(rules, false, races[i].starters[k].horseId) != IdText(rules, false, races[i].starters[l].horseId))
    && (forall i, j | 0 <= i < j < |races| && races[i].Race? && races[j].Race?
                      && RaceText(rules, races[i]) == RaceText(rules, races[j]) ::
          rules.raceSha(races[i].race) == rules.raceSha(races[j].race))
    && OneStory(rules, races, false)
  }

  /** The provider says the same of two starters and their races. */
  predicate SameStory(rules: Rules, m: Materialized, a: Runner, n: Materialized, b: Runner)
    requires m.Race? && n.Race?
  {
    && rules.raceSha(m.race) == rules.raceSha(n.race) && rules.target(m.race) == rules.target(n.race)
    && Words(rules, a.name) == Words(rules, b.name) && Words(rules, a.position) == Words(rules, b.position)
    && rules.runnerSha(a) == rules.runnerSha(b)
  }

  /** Starters that are the same horse in the same race are told of alike. */
  ghost predicate OneStory(rules: Rules, races: seq<Materialized>, raw: bool) {
    forall i, k, j, l | StarterAt(races, i, k) && StarterAt(races, j, l)
                        && IdText(rules, raw, races[i].starters[k].horseId)
                           == IdText(rules, raw, races[j].starters[l].horseId)
                        && RaceText(rules, races[i]) == RaceText(rules, races[j]) ::
      SameStory(rules, races[i], races[i].starters[k], races[j], races[j].starters[l])
  }

  lemma {:induction false} RaceMembers(rules: Rules, m: Materialized, idOf: string -> string, n: nat, c: Contribution)
    requires m.Race? && n <= |m.starters|
    ensures c in RaceSightings(rules, m, idOf, n) <==>
              exists k :: 0 <= k < n && c == SightingOf(rules, m, idOf, m.starters[k])
  {
    hide SightingOf;
    if n > 0 { RaceMembers(rules, m, idOf, n - 1, c); }
  }

  lemma {:induction false} SightingMembers(rules: Rules, races: seq<Materialized>, idOf: string -> string, n: nat,
                                           c: Contribution)
    requires n <= |races|
    ensures c in SightingsUpTo(rules, races, idOf, n) <==>
              exists i, k :: StarterAt(races, i, k) && i < n
                             && c == SightingOf(rules, races[i], idOf, races[i].starters[k])
  {
    hide SightingOf, RaceSightings;
    if n > 0 {
      SightingMembers(rules, races, idOf, n - 1, c);
      if races[n - 1].Race? {
        RaceMembers(rules, races[n - 1], idOf, |races[n - 1].starters|, c);
        var last := n - 1;
        assert forall k :: StarterAt(races, last, k) <==> 0 <= k < |races[last].starters|;
      }
    }
  }

  /** How the ids of a sighting are read. */
  ghost predicate Reads(rules: Rules, raw: bool, idOf: string -> string) {
    forall s :: idOf(s) == IdText(rules, raw, s)
  }

  lemma SightingTells(rules: Rules, races: seq<Materialized>, raw: bool, idOf: string -> string, i: int, k: int)
    requires Reads(rules, raw, idOf) && StarterAt(races, i, k) && rules.target(races[i].race).Some?
    ensures var c := SightingOf(rules, races[i], idOf, races[i].starters[k]);
      && c.horse == IdText(rules, raw, races[i].starters[k].horseId)
      && c.key == RaceText(rules, races[i])
      && Tells(rules, races[i], races[i].starters[k], c.occ)
      && ListOf(c.occ) == [ObservationBy(rules, races[i], races[i].starters[k])]
      && c.occ.primary == ListOf(c.occ)[0]
  {}

  ghost predicate TargetsKnown(rules: Rules, races: seq<Materialized>) {
    forall i, k | StarterAt(races, i, k) :: rules.target(races[i].race).Some?
  }

  /** A member of a group comes from a starter. */
  lemma MemberTells(rules: Rules, races: seq<Materialized>, raw: bool, idOf: string -> string, horse: string,
                    race: string, p: Occurrence) returns (i: int, k: int)
    requires Reads(rules, raw, idOf) && TargetsKnown(rules, races)
    requires p in Group(Sightings(rules, races, idOf), horse, race)
    ensures SeenAs(rules, races, raw, horse, race, p.primary, i, k)
    ensures Tells(rules, races[i], races[i].starters[k], p) && ListOf(p) == [p.primary]
  {
    hide SightingOf, Group, Words, SightingsUpTo, Clean, Reads;
    GroupMembers(Sightings(rules, races, idOf), horse, race);
    SightingMembers(rules, races, idOf, |races|, Contribution(horse, race, p));
    i, k :| StarterAt(races, i, k)
      && Contribution(horse, race, p) == SightingOf(rules, races[i], idOf, races[i].starters[k]);
    SightingTells(rules, races, raw, idOf, i, k);
  }

  /** A starter is a member of the group of its horse and race. */
  lemma StarterTells(rules: Rules, races: seq<Materialized>, raw: bool, idOf: string -> string, i: int, k: int)
    requires Reads(rules, raw, idOf) && TargetsKnown(rules, races) && StarterAt(races, i, k)
    ensures var g := Group(Sightings(rules, races, idOf), IdText(rules, raw, races[i].starters[k].horseId),
                           RaceText(rules, races[i]));
      g != [] && (GroupOk(g) ==> Tells(rules, races[i], races[i].starters[k], Combine(g)))
  {
    hide SightingOf, Group, GroupOk, Words, SightingsUpTo, Clean, Reads, Combine;
    var c := SightingOf(rules, races[i], idOf, races[i].starters[k]);
    var g := Group(Sightings(rules, races, idOf), c.horse, c.key);
    SightingTells(rules, races, raw, idOf, i, k);
    SightingMembers(rules, races, idOf, |races|, c);
    GroupMembers(Sightings(rules, races, idOf), c.horse, c.key);
    assert c == Contribution(c.horse, c.key, c.occ) && c.occ in g;
    if GroupOk(g) {
      CombineKeepsKey(g);
      CombineObservations(g);
      assert ListOf(c.occ)[0] in ListOf(c.occ);
      assert ListOf(c.occ)[0] in UnionOf(g);
      assert Combine(g).observations.Some? by {
        forall p | p in g ensures p.observations.Some? && ListOf(p) == [p.primary] {
          var _, _ := MemberTells(rules, races, raw, idOf, c.horse, c.key, p);
        }
        FirstOfGroup(g);
      }
    }
  }

  /** The occurrence that is filed for a horse and race. */
  lemma GroupTells(rules: Rules, races: seq<Materialized>, raw: bool, idOf: string -> string, horse: string,
                   race: string)
    requires Reads(rules, raw, idOf) && TargetsKnown(rules, races)
    requires var g := Group(Sightings(rules, races, idOf), horse, race); g != [] && GroupOk(g)
    ensures var o := Combine(Group(Sightings(rules, races, idOf), horse, race));
      && o.observations.Some? && IsFirst(o.primary, o.observations.value) && o.sem.race == race
      && (forall x | x in o.observations.value :: exists i, k :: SeenAs(rules, races, raw, horse, race, x, i, k))
  {
    hide SightingOf, Group, GroupOk, Combine, Words, SightingsUpTo, Clean, IsFirst, Reads;
    var g := Group(Sightings(rules, races, idOf), horse, race);
    CombineObservations(g);
    forall p | p in g
      ensures p.observations.Some? && ListOf(p) == [p.primary] && p.sem.race == race
      ensures exists i, k :: SeenAs(rules, races, raw, horse, race, p.primary, i, k)
    {
      var i, k := MemberTells(rules, races, raw, idOf, horse, race, p);
    }
    assert g[0] in g;
    FirstOfGroup(g);
    forall x | x in ListOf(Combine(g)) ensures exists i, k :: SeenAs(rules, races, raw, horse, race, x, i, k) {
      var p :| p in g && x in ListOf(p);
    }
  }

  /** The primary observation of occurrences that list one observation each. */
  lemma FirstOfGroup(g: seq<Occurrence>)
    requires g != [] && GroupOk(g) && forall p | p in g :: p.observations.Some? && ListOf(p) == [p.primary]
    ensures Combine(g).observations.Some? && IsFirst(Combine(g).primary, ListOf(Combine(g)))
    ensures forall p | p in g :: p.sem.race == Combine(g).sem.race
  {
    hide ObservationText;
    assert g[0] in g;
    CombineKeepsKey(g);
    if |g| >= 2 {
      ListingNonEmpty(g);
      ListingIsAscending(UnionOf(g));
      FirstOfListing(ListOf(Combine(g)), Listing(UnionOf(g)));
    } else {
      assert ListOf(g[0]) == [g[0].primary];
    }
  }

  lemma CleanReads(rules: Rules)
    ensures Reads(rules, false, Clean(rules))
  {}

  /** The occurrences of a row of the ledger, by the races of its horse. */
  lemma BuiltRow(cs: seq<Contribution>, batch: string, row: SeedRow, o: Occurrence)
    requires row in Emit(Built(cs, batch))
    ensures row.horse in HorsesIn(cs)
    ensures row.names == SortedStrings(NamesIn(cs, row.horse) - {""}) && row.batches == SortedStrings({batch})
    ensures o in row.occurrences <==>
              exists race :: Group(cs, row.horse, race) != [] && o == Combine(Group(cs, row.horse, race))
  {
    hide Emit, Group, Combine, NamesIn, Less, InOrder;
    var m := Built(cs, batch);
    EmitMembers(m, row);
    var occs := m[row.horse].occurrences;
    SortedKeys(occs.Keys);
    InOrderMembers(occs, SortedStrings(occs.Keys));
    hide SortedStrings;
    if key :| key in occs && o == occs[key] {
      KeysOfGroup(cs, row.horse, key);
      assert Group(cs, row.horse, key) != [] && o == Combine(Group(cs, row.horse, key));
    }
    if race :| Group(cs, row.horse, race) != [] && o == Combine(Group(cs, row.horse, race)) {
      KeysOfGroup(cs, row.horse, race);
      assert race in SortedStrings(occs.Keys);
    }
  }

  lemma GroupHorse(cs: seq<Contribution>, horse: string, race: string)
    requires Group(cs, horse, race) != []
    ensures horse in HorsesIn(cs)
  {
    GroupMembers(cs, horse, race);
    assert Group(cs, horse, race)[0] in Group(cs, horse, race);
  }

  lemma BuiltTellsAll(rules: Rules, races: seq<Materialized>, batch: string)
    requires TargetsKnown(rules, races) && GroupsOk(Sightings(rules, races, Clean(rules)))
    ensures TellsAll(rules, races, false, Emit(Built(Sightings(rules, races, Clean(rules)), batch)))
  {
    hide Emit, Group, Combine, GroupOk, Words, Clean, Tells, SightingsUpTo, Built, TargetsKnown, Reads;
    CleanReads(rules);
    var cs := Sightings(rules, races, Clean(rules));
    var rows := Emit(Built(cs, batch));
    forall i, k | StarterAt(races, i, k)
      ensures exists row, o :: row in rows && row.horse == IdText(rules, false, races[i].starters[k].horseId)
                               && o in row.occurrences && Tells(rules, races[i], races[i].starters[k], o)
    {
      var horse, race := IdText(rules, false, races[i].starters[k].horseId), RaceText(rules, races[i]);
      StarterTells(rules, races, false, Clean(rules), i, k);
      assert GroupOk(Group(cs, horse, race));
      GroupHorse(cs, horse, race);
      var row := BuiltRowOf(cs, batch, horse);
      BuiltRow(cs, batch, row, Combine(Group(cs, horse, race)));
    }
    forall i, k, row, o | StarterAt(races, i, k) && row in rows && o in row.occurrences
                          && row.horse == IdText(rules, false, races[i].starters[k].horseId)
                          && o.sem.race == RaceText(rules, races[i])
      ensures Tells(rules, races[i], races[i].starters[k], o)
    {
      BuiltRow(cs, batch, row, o);
      var race :| Group(cs, row.horse, race) != [] && o == Combine(Group(cs, row.horse, race));
      assert GroupOk(Group(cs, row.horse, race));
      GroupTells(rules, races, false, Clean(rules), row.horse, race);
      StarterTells(rules, races, false, Clean(rules), i, k);
    }
  }

  lemma BuiltRowOf(cs: seq<Contribution>, batch: string, horse: string) returns (row: SeedRow)
    requires horse in HorsesIn(cs)
    ensures row in Emit(Built(cs, batch)) && row.horse == horse
  {
    hide Emit, EmitRow, NamesIn, OccurrencesOf;
    RowOfHorse(Built(cs, batch), horse);
    row := EmitRow(horse, Built(cs, batch)[horse]);
  }

  lemma BuiltTellsOnly(rules: Rules, races: seq<Materialized>, batch: string)
    requires TargetsKnown(rules, races) && GroupsOk(Sightings(rules, races, Clean(rules)))
    ensures TellsOnly(rules, races, false, Emit(Built(Sightings(rules, races, Clean(rules)), batch)))
  {
    hide Emit, Group, Combine, GroupOk, Words, Clean, SeenAs, SightingsUpTo, Built, TargetsKnown, IsFirst, Reads;
    CleanReads(rules);
    var cs := Sightings(rules, races, Clean(rules));
    forall row, o | row in Emit(Built(cs, batch)) && o in row.occurrences
      ensures o.observations.Some? && IsFirst(o.primary, o.observations.value)
      ensures forall x | x in o.observations.value ::
                exists i, k :: SeenAs(rules, races, false, row.horse, o.sem.race, x, i, k)
    {
      BuiltRow(cs, batch, row, o);
      var race :| Group(cs, row.horse, race) != [] && o == Combine(Group(cs, row.horse, race));
      assert GroupOk(Group(cs, row.horse, race));
      GroupTells(rules, races, false, Clean(rules), row.horse, race);
    }
  }

  lemma BuiltTellsNames(rules: Rules, races: seq<Materialized>, batch: string)
    requires TargetsKnown(rules, races)
    ensures TellsNames(rules, races, batch, Emit(Built(Sightings(rules, races, Clean(rules)), batch)))
  {
    hide Emit, Words, Clean, SightingsUpTo, Built, TargetsKnown, SightingOf, Less, Reads;
    CleanReads(rules);
    var cs := Sightings(rules, races, Clean(rules));
    forall row | row in Emit(Built(cs, batch))
      ensures row.batches == [batch]
      ensures forall n :: n in row.names <==>
                n != "" && exists i, k :: StarterAt(races, i, k) && Words(rules, races[i].starters[k].name) == n
                                          && IdText(rules, false, races[i].starters[k].horseId) == row.horse
    {
      BuiltRow(cs, batch, row, Occurrence(Semantics("", "", map[], "", ""), Observation("", "", ""), None));
      SortedKeys({batch});
      AscendingUnique(SortedStrings({batch}), [batch], Same);
      SortedKeys(NamesIn(cs, row.horse) - {""});
      forall n ensures n in NamesIn(cs, row.horse) <==>
                exists i, k :: StarterAt(races, i, k) && Words(rules, races[i].starters[k].name) == n
                               && IdText(rules, false, races[i].starters[k].horseId) == row.horse
      {
        NameSeen(rules, races, row.horse, n);
      }
    }
  }

  lemma NameSeen(rules: Rules, races: seq<Materialized>, horse: string, n: string)
    requires TargetsKnown(rules, races)
    ensures n in NamesIn(Sightings(rules, races, Clean(rules)), horse) <==>
              exists i, k :: StarterAt(races, i, k) && Words(rules, races[i].starters[k].name) == n
                             && IdText(rules, false, races[i].starters[k].horseId) == horse
  {
    hide Words, Clean, SightingsUpTo, SightingOf, Reads;
    CleanReads(rules);
    var cs := Sightings(rules, races, Clean(rules));
    if c :| c in cs && c.horse == horse && c.occ.sem.name == n {
      SightingMembers(rules, races, Clean(rules), |races|, c);
      var i, k :| StarterAt(races, i, k) && c == SightingOf(rules, races[i], Clean(rules), races[i].starters[k]);
      SightingTells(rules, races, false, Clean(rules), i, k);
    }
    if i, k :| StarterAt(races, i, k) && Words(rules, races[i].starters[k].name) == n
               && IdText(rules, false, races[i].starters[k].horseId) == horse {
      var c := SightingOf(rules, races[i], Clean(rules), races[i].starters[k]);
      SightingTells(rules, races, false, Clean(rules), i, k);
      SightingMembers(rules, races, Clean(rules), |races|, c);
    }
  }

  lemma BuiltOnePlaceEach(rules: Rules, races: seq<Materialized>, batch: string)
    requires TargetsKnown(rules, races) && GroupsOk(Sightings(rules, races, Clean(rules)))
    ensures OnePlaceEach(Emit(Built(Sightings(rules, races, Clean(rules)), batch)))
  {
    hide Emit, Group, Combine, GroupOk, Words, Clean, SeenAs, SightingsUpTo, TargetsKnown, IsFirst, Reads, Less,
         InOrder, NamesIn;
    CleanReads(rules);
    var cs := Sightings(rules, races, Clean(rules));
    var m := Built(cs, batch);
    EmitIsAscending(m);
    forall row, i, j | row in Emit(m) && 0 <= i < j < |row.occurrences|
      ensures row.occurrences[i].sem.race != row.occurrences[j].sem.race
    {
      EmitMembers(m, row);
      var occs := m[row.horse].occurrences;
      var keys := SortedStrings(occs.Keys);
      SortedKeys(occs.Keys);
      InOrderLength(occs, keys);
      InOrderAt(occs, keys, i);
      InOrderAt(occs, keys, j);
      assert keys[i] in keys && keys[j] in keys;
      KeysOfGroup(cs, row.horse, keys[i]);
      KeysOfGroup(cs, row.horse, keys[j]);
      assert GroupOk(Group(cs, row.horse, keys[i])) && GroupOk(Group(cs, row.horse, keys[j]));
      GroupTells(rules, races, false, Clean(rules), row.horse, keys[i]);
      GroupTells(rules, races, false, Clean(rules), row.horse, keys[j]);
      Trichotomy(keys[i], keys[i]);
      assert Less(Same(keys[i]), Same(keys[j]));
    }
  }

  /** The two sightings of starters that are the same horse in the same race. */
  lemma SightingsAgree(rules: Rules, races: seq<Materialized>, raw: bool, idOf: string -> string,
                       i: int, k: int, j: int, l: int)
    requires Reads(rules, raw, idOf) && TargetsKnown(rules, races) && StarterAt(races, i, k) && StarterAt(races, j, l)
    ensures var c := SightingOf(rules, races[i], idOf, races[i].starters[k]);
      var d := SightingOf(rules, races[j], idOf, races[j].starters[l]);
      && (c.horse == d.horse && c.key == d.key <==>
            && IdText(rules, raw, races[i].starters[k].horseId) == IdText(rules, raw, races[j].starters[l].horseId)
            && RaceText(rules, races[i]) == RaceText(rules, races[j]))
      && (c.key == d.key ==>
            (Agree(c.occ, d.occ) <==> SameStory(rules, races[i], races[i].starters[k], races[j], races[j].starters[l])))
  {
    hide Words, Clean;
    SightingTells(rules, races, raw, idOf, i, k);
    SightingTells(rules, races, raw, idOf, j, l);
  }

  /** The stories of all starters agree exactly if every group can be merged. */
  lemma StoriesAgree(rules: Rules, races: seq<Materialized>, raw: bool, idOf: string -> string)
    requires Reads(rules, raw, idOf) && TargetsKnown(rules, races)
    ensures GroupsOk(Sightings(rules, races, idOf)) <==> OneStory(rules, races, raw)
  {
    hide Words, Clean, SightingOf, SightingsUpTo, Agree, GroupsOk, SameStory, IdText, RaceText, Reads, TargetsKnown;
    var cs := Sightings(rules, races, idOf);
    SightingsAware(rules, races, idOf, |races|);
    GroupsAgree(cs);
    forall c | c in cs ensures exists i, k :: StarterAt(races, i, k)
                                 && c == SightingOf(rules, races[i], idOf, races[i].starters[k]) {
      SightingMembers(rules, races, idOf, |races|, c);
    }
    forall i, k | StarterAt(races, i, k) ensures SightingOf(rules, races[i], idOf, races[i].starters[k]) in cs {
      SightingMembers(rules, races, idOf, |races|, SightingOf(rules, races[i], idOf, races[i].starters[k]));
    }
    if OneStory(rules, races, raw) {
      forall a, b | 0 <= a < b < |cs| && cs[a].horse == cs[b].horse && cs[a].key == cs[b].key
        ensures Agree(cs[a].occ, cs[b].occ)
      {
        assert cs[a] in cs && cs[b] in cs;
        var i, k :| StarterAt(races, i, k) && cs[a] == SightingOf(rules, races[i], idOf, races[i].starters[k]);
        var j, l :| StarterAt(races, j, l) && cs[b] == SightingOf(rules, races[j], idOf, races[j].starters[l]);
        SightingsAgree(rules, races, raw, idOf, i, k, j, l);
      }
      assert PairsAgree(cs);
    }
    if PairsAgree(cs) {
      forall i, k, j, l | StarterAt(races, i, k) && StarterAt(races, j, l)
                          && IdText(rules, raw, races[i].starters[k].horseId)
                             == IdText(rules, raw, races[j].starters[l].horseId)
                          && RaceText(rules, races[i]) == RaceText(rules, races[j])
        ensures SameStory(rules, races[i], races[i].starters[k], races[j], races[j].starters[l])
      {
        SightingsAgree(rules, races, raw, idOf, i, k, j, l);
        CellsAgree(cs, SightingOf(rules, races[i], idOf, races[i].starters[k]),
                   SightingOf(rules, races[j], idOf, races[j].starters[l]));
        SightingsAgree(rules, races, raw, idOf, j, l, i, k);
        StorySymmetric(rules, races[i], races[i].starters[k], races[j], races[j].starters[l]);
        if SightingOf(rules, races[i], idOf, races[i].starters[k])
           == SightingOf(rules, races[j], idOf, races[j].starters[l]) {
          EqualSightings(rules, races, raw, idOf, i, k, j, l);
        }
      }
    }
  }

  lemma StorySymmetric(rules: Rules, m: Materialized, a: Runner, n: Materialized, b: Runner)
    requires m.Race? && n.Race?
    ensures SameStory(rules, m, a, n, b) <==> SameStory(rules, n, b, m, a)
  {}

  lemma EqualSightings(rules: Rules, races: seq<Materialized>, raw: bool, idOf: string -> string,
                       i: int, k: int, j: int, l: int)
    requires Reads(rules, raw, idOf) && TargetsKnown(rules, races) && StarterAt(races, i, k) && StarterAt(races, j, l)
    requires SightingOf(rules, races[i], idOf, races[i].starters[k])
             == SightingOf(rules, races[j], idOf, races[j].starters[l])
    ensures SameStory(rules, races[i], races[i].starters[k], races[j], races[j].starters[l])
  {
    hide Words, Clean;
    SightingTells(rules, races, raw, idOf, i, k);
    SightingTells(rules, races, raw, idOf, j, l);
  }

  lemma CellsAgree(cs: seq<Contribution>, c: Contribution, d: Contribution)
    requires PairsAgree(cs) && c in cs && d in cs && c.horse == d.horse && c.key == d.key
    ensures c == d || Agree(c.occ, d.occ) || Agree(d.occ, c.occ)
  {
    hide Agree;
    var a :| 0 <= a < |cs| && cs[a] == c;
    var b :| 0 <= b < |cs| && cs[b] == d;
    if a < b { PairAgrees(cs, a, b); }
    if b < a { PairAgrees(cs, b, a); }
  }

  lemma RaceOkMeans(rules: Rules, m: Materialized)
    requires m.Race?
    ensures RaceOk(rules, m) <==>
              && m.starters != [] && rules.target(m.race).Some? && IsRaceId(RaceText(rules, m))
              && (forall k | 0 <= k < |m.starters| ::
                    IsHorseId(IdText(rules, false, m.starters[k].horseId)) && rules.starts(m.starters[k].position))
              && (forall k, l | 0 <= k < l < |m.starters| ::
                    IdText(rules, false, m.starters[k].horseId) != IdText(rules, false, m.starters[l].horseId))
  {
    hide IsHorseId, IsRaceId, NormalizeSpace;
    forall k | 0 <= k < |m.starters|
      ensures Clean(rules)(m.starters[k].horseId) == IdText(rules, false, m.starters[k].horseId)
    {}
    forall k | 0 <= k < |m.starters|
      ensures Clean(rules)(m.starters[k].horseId) in HorseIds(rules, m, k) <==>
                exists l :: 0 <= l < k && IdText(rules, false, m.starters[l].horseId)
                                          == IdText(rules, false, m.starters[k].horseId)
    {}
  }

  lemma BuildOkMeans(rules: Rules, races: seq<Materialized>)
    ensures BuildOk(rules, races) <==> Buildable(rules, races)
  {
    hide IsHorseId, IsRaceId, Words, Clean, SightingsUpTo, RaceOk, OneStory, GroupsOk, IdText, Reads;
    forall i | 0 <= i < |races|
      ensures RaceOk(rules, races[i]) <==>
                races[i].Race? ==>
                  && races[i].starters != [] && rules.target(races[i].race).Some?
                  && IsRaceId(RaceText(rules, races[i]))
                  && (forall k | StarterAt(races, i, k) ::
                        && IsHorseId(IdText(rules, false, races[i].starters[k].horseId))
                        && rules.starts(races[i].starters[k].position))
                  && (forall k, l | StarterAt(races, i, k) && StarterAt(races, i, l) && k < l ::
                        IdText(rules, false, races[i].starters[k].horseId)
                        != IdText(rules, false, races[i].starters[l].horseId))
    {
      if races[i].Race? { RaceOkMeans(rules, races[i]); } else { GapIsNothing(rules, races[i], []); }
    }
    forall i | 0 <= i < |races| && races[i].Race? ensures RaceIdOf(rules, races[i]) == RaceText(rules, races[i]) {
      RaceIdIsText(rules, races[i]);
    }
    CleanReads(rules);
    if forall i | 0 <= i < |races| && races[i].Race? :: rules.target(races[i].race).Some? {
      StoriesAgree(rules, races, false, Clean(rules));
    }
  }

  lemma RaceIdIsText(rules: Rules, m: Materialized)
    requires m.Race?
    ensures RaceIdOf(rules, m) == RaceText(rules, m)
  {}

  lemma LedgerIsTold(rules: Rules, races: seq<Materialized>, batch: string)
    ensures BuildOk(rules, races) ==>
              LedgerOf(rules, races, batch, Emit(Built(Sightings(rules, races, Clean(rules)), batch)))
  {
    hide Emit, Built, SightingsUpTo, TellsAll, TellsOnly, TellsNames, OnePlaceEach, IsHorseId, IsRaceId, StartersOk,
         Clean, GroupsOk;
    if BuildOk(rules, races) {
      forall i, k | StarterAt(races, i, k) ensures rules.target(races[i].race).Some? {
        assert RaceOk(rules, races[i]);
      }
      BuiltTellsAll(rules, races, batch);
      BuiltTellsOnly(rules, races, batch);
      BuiltTellsNames(rules, races, batch);
      BuiltOnePlaceEach(rules, races, batch);
    }
  }

  /** `build_stable_id_seed_ledger` up to the rows that it writes. */
  method Build(rules: Rules, races: seq<Materialized>, batch: string) returns (r: Result<seq<SeedRow>, string>)
    ensures r.Ok? <==> BuildOk(rules, races)
    ensures r.Ok? ==> r.value == Emit(Built(Sightings(rules, races, Clean(rules)), batch))
    ensures r.Ok? <==> Buildable(rules, races)
    ensures r.Ok? ==> LedgerOf(rules, races, batch, r.value)
  {
    BuildOkMeans(rules, races);
    LedgerIsTold(rules, races, batch);
    hide Buildable, LedgerOf, BuildState, HashesOf, SightingsUpTo, RacesAgree, Built, Emit, GroupsOk, AllOf, RaceOk,
         BuildOkUpTo;
    var horses: map<string, Entry> := map[];
    var hashes: map<string, string> := map[];
    NothingBuilt(rules, races);
    for n := 0 to |races|
      invariant BuildOkUpTo(rules, races, n) && HashesOf(hashes, rules, races, n)
      invariant BuildState(horses, SightingsUpTo(rules, races, Clean(rules), n))
    {
      var m := races[n];
      if m.Gap? {
        GapAdds(hashes, rules, races, n);
      } else {
        OneRace(rules, races, n, hashes);
        var id, sha := RaceIdOf(rules, m), rules.raceSha(m.race);
        if id in hashes && hashes[id] != sha { return Err("target race payload conflict"); }
        hashes := hashes[id := sha];
        var added := AddRace(rules, horses, m, SightingsUpTo(rules, races, Clean(rules), n));
        if added.Err? { return Err(added.error); }
        horses := added.value;
      }
    }
    var out := map horse | horse in horses ::
      Entry(horses[horse].names - {""}, {batch}, horses[horse].occurrences);
    StateIsBuilt(horses, Sightings(rules, races, Clean(rules)), batch, out);
    var seeds := EmitSeeds(out);
    return Ok(seeds);
  }

  /** What one turn of the race loop has to check. */
  lemma OneRace(rules: Rules, races: seq<Materialized>, n: nat, hashes: map<string, string>)
    requires n < |races| && races[n].Race? && BuildOkUpTo(rules, races, n) && HashesOf(hashes, rules, races, n)
    ensures var id, sha := RaceIdOf(rules, races[n]), rules.raceSha(races[n].race);
      && (BuildOkUpTo(rules, races, n + 1) <==>
            && (id in hashes ==> hashes[id] == sha) && RaceOk(rules, races[n])
            && GroupsOk(SightingsUpTo(rules, races, Clean(rules), n) + AllOf(rules, races[n], Clean(rules))))
      && (BuildOkUpTo(rules, races, n + 1) ==> HashesOf(hashes[id := sha], rules, races, n + 1))
    ensures SightingsUpTo(rules, races, Clean(rules), n + 1)
            == SightingsUpTo(rules, races, Clean(rules), n) + AllOf(rules, races[n], Clean(rules))
    ensures BuildOk(rules, races) ==> BuildOkUpTo(rules, races, n + 1)
  {
    hide HashesOf, RaceOk, GroupsOk, AllOf, RaceIdOf;
    HashesSnoc(hashes, rules, races, n);
    BuildOkSnoc(rules, races, n);
    BuildOkPrefix(rules, races, n + 1, |races|);
  }
}
