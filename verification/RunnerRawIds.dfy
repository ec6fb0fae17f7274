/** The smallest batches on which building and covering disagree: one race with one starter, whose
    provider record carries a horse id that is not in normalised form. */
module RunnerRawIds {
  import opened Wrappers
  import opened TextOrder
  import opened CanonicalText
  import opened RunnerOccurrences
  import opened RunnerLedgerMerge
  import opened RunnerLedgerBuild
  import opened RunnerCoverage
  import opened RunnerLineage

  function PlainRules(sha: string, nfkc: Composition): Rules {
    Rules(race => sha, runner => sha, race => Some(map[]), position => true, nfkc)
  }

  function Starter(id: string): Runner {
    Runner(id, "A", "1", "")
  }

  function OneRace(sha: string, id: string): seq<Materialized> {
    [Race("s", sha, RawRace("rac_1", ""), [Starter(id)])]
  }

  /** The batch together with the ledger that the builder makes of it. */
  ghost function OneStarter(rules: Rules, sha: string, id: string): Component {
    Component(sha, OneRace(sha, id), Emit(Built(Sightings(rules, OneRace(sha, id), Clean(rules)), sha)))
  }

  function OnlyOccurrence(sha: string): Occurrence {
    var seen := Observation("s", sha, sha);
    Occurrence(Semantics("rac_1", sha, map[], "A", "1"), seen, Some([seen]))
  }

  lemma AsciiWordIsClean(rules: Rules, s: string)
    requires forall c | c in s :: '!' <= c <= '~'
    ensures Clean(rules)(s) == s
  {
    forall i | 0 <= i < |s| ensures !IsSpace(s[i]) {
      assert s[i] in s;
    }
    assert IsAscii(s);
    NormalizeWord(s);
  }

  lemma SightingOfOne(rules: Rules, m: Materialized, idOf: string -> string)
    requires m.Race? && |m.starters| == 1
    ensures Sightings(rules, [m], idOf) == [SightingOf(rules, m, idOf, m.starters[0])]
  {
    hide SightingOf;
    var c := SightingOf(rules, m, idOf, m.starters[0]);
    assert RaceSightings(rules, m, idOf, 0) == [];
    assert RaceSightings(rules, m, idOf, 1) == [c];
    assert SightingsUpTo(rules, [m], idOf, 0) == [];
  }

  lemma OnlySighting(sha: string, nfkc: Composition, id: string)
    ensures var rules := PlainRules(sha, nfkc);
      && Sightings(rules, OneRace(sha, id), Clean(rules))
         == [Contribution(Clean(rules)(id), "rac_1", OnlyOccurrence(sha))]
      && RaceIdOf(rules, OneRace(sha, id)[0]) == "rac_1"
  {
    hide Clean, SightingsUpTo;
    var rules, m := PlainRules(sha, nfkc), OneRace(sha, id)[0];
    AsciiWordIsClean(rules, "rac_1");
    AsciiWordIsClean(rules, "A");
    AsciiWordIsClean(rules, "1");
    SightingOfOne(rules, m, Clean(rules));
    assert m.starters[0] == Starter(id);
  }

  lemma OnlyGroup(c: Contribution, horse: string, key: string)
    ensures Group([c], horse, key) == if c.horse == horse && c.key == key then [c.occ] else []
  {
    assert [c][..0] == [];
    assert Group([], horse, key) == [];
  }

  lemma OnlyGroupsOk(c: Contribution)
    ensures GroupsOk([c])
  {
    forall horse, key ensures GroupOk(Group([c], horse, key)) {
      OnlyGroup(c, horse, key);
    }
  }

  /** The builder accepts the batch. */
  lemma OneStarterBuilds(sha: string, nfkc: Composition, id: string)
    requires IsHorseId(Clean(PlainRules(sha, nfkc))(id))
    ensures BuildOk(PlainRules(sha, nfkc), OneRace(sha, id))
  {
    hide Clean, IsHorseId;
    var rules := PlainRules(sha, nfkc);
    OnlySighting(sha, nfkc, id);
    OnlyGroupsOk(Contribution(Clean(rules)(id), "rac_1", OnlyOccurrence(sha)));
    assert IsRaceId("rac_1");
  }

  lemma SortedSingle(x: string)
    ensures SortedStrings({x}) == [x]
  {
    SortedKeys({x});
    AscendingUnique(SortedStrings({x}), [x], Same);
  }

  function OnlyRow(sha: string, horse: string): SeedRow {
    SeedRow(horse, ["A"], [sha], [OnlyOccurrence(sha)])
  }

  /** Its ledger has one row with one occurrence. */
  lemma OneStarterLedger(sha: string, nfkc: Composition, id: string)
    ensures OneStarter(PlainRules(sha, nfkc), sha, id).races == OneRace(sha, id)
    ensures OneStarter(PlainRules(sha, nfkc), sha, id).source == [OnlyRow(sha, Clean(PlainRules(sha, nfkc))(id))]
  {
    hide Clean, IsHorseId;
    var rules := PlainRules(sha, nfkc);
    var horse := Clean(rules)(id);
    var c := Contribution(horse, "rac_1", OnlyOccurrence(sha));
    OnlySighting(sha, nfkc, id);
    var m := Built([c], sha);
    OnlyEntry(sha, c);
    SortedSingle(horse);
    EmitOnly(sha, horse, m[horse]);
  }

  lemma OnlyEntry(sha: string, c: Contribution)
    requires c.key == "rac_1" && c.occ == OnlyOccurrence(sha)
    ensures Built([c], sha) == map[c.horse := Entry({"A"}, {sha}, map["rac_1" := OnlyOccurrence(sha)])]
  {
    forall key ensures Group([c], c.horse, key) == if key == c.key then [c.occ] else [] {
      OnlyGroup(c, c.horse, key);
    }
    assert c in [c];
    assert HorsesIn([c]) == {c.horse};
    assert NamesIn([c], c.horse) == {"A"};
    assert KeysOf([c], c.horse) == {"rac_1"};
    assert Combine([c.occ]) == c.occ;
    var b, e := Built([c], sha), Entry({"A"}, {sha}, map["rac_1" := OnlyOccurrence(sha)]);
    assert OccurrencesOf([c], c.horse) == e.occurrences;
    assert e.names - {""} == e.names by { assert |"A"| != |""|; }
    assert b.Keys == {c.horse} && b[c.horse] == e;
  }

  lemma EmitOnly(sha: string, horse: string, entry: Entry)
    requires entry == Entry({"A"}, {sha}, map["rac_1" := OnlyOccurrence(sha)])
    ensures Emit(map[horse := entry]) == [OnlyRow(sha, horse)]
  {
    SortedSingle(horse);
    SortedSingle("A");
    SortedSingle(sha);
    SortedSingle("rac_1");
    var m := map[horse := entry];
    assert m.Keys == {horse} && entry.occurrences.Keys == {"rac_1"};
    assert InOrder(entry.occurrences, []) == [];
    assert ["rac_1"][..0] == [];
    assert [horse][..0] == [];
    assert EmitRow(horse, entry) == OnlyRow(sha, horse);
    assert EmitRows(m, []) == [];
  }

  lemma OnlyOccurrenceOk(sha: string)
    requires IsSha(sha)
    ensures OccurrenceOk(OnlyOccurrence(sha))
  {
    assert IsRaceId("rac_1");
    var seen := Observation("s", sha, sha);
    assert InsertAll([seen], []) == [seen];
    assert Strip("A") == "A" && Strip("1") == "1";
  }

  lemma OnlyRowAccepted(sha: string, horse: string)
    requires IsSha(sha) && IsHorseId(horse)
    ensures Accepts([OnlyRow(sha, horse)])
  {
    hide OccurrenceOk, KeyOf, IsHorseId;
    var row := OnlyRow(sha, horse);
    OnlyOccurrenceOk(sha);
    assert RowOk(row);
    var c := Contribution(horse, KeyOf(OnlyOccurrence(sha)), OnlyOccurrence(sha));
    assert [row][..0] == [];
    assert Contribs([]) == [];
    assert RowContribs(row) == [c];
    assert Contribs([row]) == [c];
    OnlyGroupsOk(c);
  }

  /** Built, merged and audited on its own, a batch with a single starter passes exactly if the
      starter's horse id is stored in normalised form. */
  lemma RawIdDecides(sha: string, nfkc: Composition, id: string)
    requires IsSha(sha) && IsHorseId(Clean(PlainRules(sha, nfkc))(id))
    ensures var rules, comps := PlainRules(sha, nfkc), [OneStarter(PlainRules(sha, nfkc), sha, id)];
      && BuildOk(rules, OneRace(sha, id)) && Lineage(rules, comps)
      && (CoverageOk(rules, comps, MergedLedger(comps)) <==> Clean(rules)(id) == id)
  {
    hide Clean, IsHorseId, BuildOk, Accepts, CoverageOk, MergedLedger, Emit, Built, Sightings, OwnedBy;
    var rules, comps := PlainRules(sha, nfkc), [OneStarter(PlainRules(sha, nfkc), sha, id)];
    OneStarterBuilds(sha, nfkc, id);
    OneStarterLedger(sha, nfkc, id);
    OnlyRowAccepted(sha, Clean(rules)(id));
    assert SourceRowsUpTo(comps, 0) == [];
    assert SourceRows(comps) == comps[0].source;
    assert FromBatch(rules, comps[0]);
    CoverageIff(rules, comps);
    assert AllClean(rules, comps) <==> Clean(rules)(id) == id by {
      assert comps[0].races[0].starters[0].horseId == id;
    }
  }

  // ---------------------------------------------------------------- two failing ids

  /** Every step before the audit accepts the batch with this id; the audit does not. */
  ghost predicate BuiltButRefused(rules: Rules, sha: string, id: string) {
    && BuildOk(rules, OneRace(sha, id)) && Lineage(rules, [OneStarter(rules, sha, id)])
    && !CoverageOk(rules, [OneStarter(rules, sha, id)], MergedLedger([OneStarter(rules, sha, id)]))
  }

  lemma PaddedWord(w: string)
    requires forall i | 0 <= i < |w| :: !IsSpace(w[i])
    ensures NormalizeSpace(" " + w) == NormalizeSpace(w)
  {
    var s := " " + w;
    assert s[1..] == w;
    assert Run(w, true) == 0;
    assert Run(s, true) == 1;
    assert w[0..] == w;
  }

  /** A blank in front of the id. */
  lemma PaddedIdIsRefused(sha: string)
    requires IsSha(sha)
    ensures BuiltButRefused(PlainRules(sha, s => s), sha, " hrs_1")
  {
    hide NormalizeSpace, BuildOk, Lineage, CoverageOk, MergedLedger, OneStarter;
    var nfkc: Composition := s => s;
    assert IsHorseId("hrs_1");
    HorseIdIsNormal(PlainRules(sha, nfkc), "hrs_1");
    PaddedWord("hrs_1");
    assert " " + "hrs_1" == " hrs_1" != "hrs_1";
    RawIdDecides(sha, nfkc, " hrs_1");
  }

  /** What composition does to full-width digits; other characters are left alone here. */
  function Narrow(s: string): string {
    seq(|s|, i requires 0 <= i < |s| => NarrowChar(s[i]))
  }

  function NarrowChar(c: char): char {
    if '\U{ff10}' <= c <= '\U{ff19}' then (c as int - 0xff10 + '0' as int) as char else c
  }

  lemma NarrowKeepsAscii()
    ensures KeepsAscii(Narrow)
  {
    forall s | IsAscii(s) ensures Narrow(s) == s {
      forall i | 0 <= i < |s| ensures Narrow(s)[i] == s[i] {
        assert s[i] in s;
      }
    }
  }

  function Narrowing(): Composition {
    NarrowKeepsAscii();
    Narrow
  }

  /** Full-width digits in the id: composition reads them as ordinary ones. */
  lemma FullWidthIdIsRefused(sha: string)
    requires IsSha(sha)
    ensures BuiltButRefused(PlainRules(sha, Narrowing()), sha, "hrs_\U{ff11}")
  {
    hide NormalizeSpace, BuildOk, Lineage, CoverageOk, MergedLedger, OneStarter, KeepsAscii;
    var nfkc := Narrowing();
    assert Narrow("hrs_\U{ff11}") == "hrs_1";
    assert IsHorseId("hrs_1");
    HorseIdIsNormal(PlainRules(sha, nfkc), "hrs_1");
    AsciiIsKept(nfkc, "hrs_1");
    assert "hrs_\U{ff11}"[4] != "hrs_1"[4];
    RawIdDecides(sha, nfkc, "hrs_\U{ff11}");
  }

  lemma AsciiIsKept(nfkc: Composition, s: string)
    requires IsAscii(s)
    ensures nfkc(s) == s
  {}
}
