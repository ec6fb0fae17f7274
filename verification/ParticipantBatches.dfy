/** Batching reviewed participants (runtime/research/build_p0_participant_completion_batches.py). */
module ParticipantBatches {
  import opened Wrappers
  import opened TextOrder
  import opened CanonicalText

  /** A source entry, reduced to what decides whether and where it is batched.  A field that should
      be a list and is not one is `None`; `listsOk` covers the remaining list fields. */
  datatype Candidate =
    | NotObject
    | Candidate(rawKey: string, regions: Option<seq<string>>, starts: int, reviewed: bool,
                hasUrl: bool, listsOk: bool)

  const AllowedRegions: seq<string> := ["japan", "hong_kong", "united_kingdom", "france", "united_states"]

  datatype Reason =
    | CandidateNotObject
    | CandidateKeyMissing
    | EventRegionsInvalid
    | SingleRegionIdentityRequired
    | ActualStartEvidenceMissing
    | ReviewStatusBlocked
    | SourceUrlMissing
    | ListFieldInvalid

  function KeyOf(c: Candidate): string {
    if c.NotObject? then "" else Strip(c.rawKey)
  }

  function InScope(regions: seq<string>, selected: set<string>): nat {
    if regions == [] then 0
    else InScope(regions[..|regions| - 1], selected) + (if regions[|regions| - 1] in selected then 1 else 0)
  }

  /** `_candidate_exclusion`; `None` is eligible. */
  function Exclusion(c: Candidate, selected: set<string>): Option<Reason> {
    if c.NotObject? then Some(CandidateNotObject)
    else if KeyOf(c) == "" then Some(CandidateKeyMissing)
    else if c.regions.None? then Some(EventRegionsInvalid)
    else if InScope(c.regions.value, selected) != 1 || |c.regions.value| != 1
    then Some(SingleRegionIdentityRequired)
    else if c.starts <= 0 then Some(ActualStartEvidenceMissing)
    else if !c.reviewed then Some(ReviewStatusBlocked)
    else if !c.hasUrl then Some(SourceUrlMissing)
    else if !c.listsOk then Some(ListFieldInvalid)
    else None
  }

  predicate Eligible(c: Candidate, selected: set<string>) {
    Exclusion(c, selected).None?
  }

  /** An eligible candidate has a key and exactly one region, which is selected. */
  lemma EligibleHasRegion(c: Candidate, selected: set<string>)
    ensures Eligible(c, selected) <==>
              && c.Candidate? && KeyOf(c) != ""
              && (exists region :: region in selected && c.regions == Some([region]))
              && c.starts > 0 && c.reviewed && c.hasUrl && c.listsOk
  {
    if c.Candidate? && c.regions.Some? && |c.regions.value| == 1 {
      var region := c.regions.value[0];
      assert c.regions.value == [region] && c.regions.value[..0] == [];
      assert InScope(c.regions.value, selected) == if region in selected then 1 else 0;
    }
  }

  /** Which reason an excluded candidate gets: the first one that applies. */
  lemma ReasonMeans(c: Candidate, selected: set<string>)
    ensures Exclusion(c, selected) == Some(CandidateNotObject) <==> c == NotObject
    ensures c.Candidate? ==>
              var scoped := exists region :: region in selected && c.regions == Some([region]);
              var blank := forall x | x in c.rawKey :: IsSpace(x);
              && (Exclusion(c, selected) == Some(CandidateKeyMissing) <==> blank)
              && (Exclusion(c, selected) == Some(EventRegionsInvalid) <==> !blank && c.regions.None?)
              && (Exclusion(c, selected) == Some(SingleRegionIdentityRequired) <==>
                    !blank && c.regions.Some? && !scoped)
              && (Exclusion(c, selected) == Some(ActualStartEvidenceMissing) <==> !blank && scoped && c.starts <= 0)
              && (Exclusion(c, selected) == Some(ReviewStatusBlocked) <==>
                    !blank && scoped && c.starts > 0 && !c.reviewed)
              && (Exclusion(c, selected) == Some(SourceUrlMissing) <==>
                    !blank && scoped && c.starts > 0 && c.reviewed && !c.hasUrl)
              && (Exclusion(c, selected) == Some(ListFieldInvalid) <==>
                    !blank && scoped && c.starts > 0 && c.reviewed && c.hasUrl && !c.listsOk)
              && (Exclusion(c, selected) == None <==>
                    !blank && scoped && c.starts > 0 && c.reviewed && c.hasUrl && c.listsOk)
  {
    hide Strip, IsSpace;
    if c.Candidate? {
      BlankKey(c.rawKey);
      if c.regions.Some? { OneRegion(c.regions.value, selected); }
    }
  }

  lemma BlankKey(key: string)
    ensures Strip(key) == "" <==> forall x | x in key :: IsSpace(x)
  {
    hide IsSpace;
    var left, right := StripMeans(key);
    if Strip(key) == "" {
      assert key == left + right;
    } else {
      assert Strip(key)[0] in key;
    }
  }

  lemma OneRegion(regions: seq<string>, selected: set<string>)
    ensures InScope(regions, selected) == 1 && |regions| == 1 <==>
              exists region :: region in selected && regions == [region]
  {
    if |regions| == 1 {
      assert regions == [regions[0]] && regions[..0] == [];
      assert InScope([], selected) == 0;
    }
  }

  function RegionOf(c: Candidate): string {
    if c.Candidate? && c.regions.Some? && |c.regions.value| == 1 then c.regions.value[0] else ""
  }

  /** The eligible candidates among the first `n`, in order. */
  function EligibleUpTo(cs: seq<Candidate>, selected: set<string>, n: nat): seq<Candidate>
    requires n <= |cs|
  {
    if n == 0 then []
    else EligibleUpTo(cs, selected, n - 1) + (if Eligible(cs[n - 1], selected) then [cs[n - 1]] else [])
  }

  function InRegionUpTo(cs: seq<Candidate>, selected: set<string>, region: string, n: nat): seq<Candidate>
    requires n <= |cs|
  {
    if n == 0 then []
    else InRegionUpTo(cs, selected, region, n - 1)
         + (if Eligible(cs[n - 1], selected) && RegionOf(cs[n - 1]) == region then [cs[n - 1]] else [])
  }

  datatype Excluded = Excluded(key: string, reason: Reason)

  function ExcludedUpTo(cs: seq<Candidate>, selected: set<string>, n: nat): seq<Excluded>
    requires n <= |cs|
  {
    if n == 0 then []
    else ExcludedUpTo(cs, selected, n - 1)
         + (if Eligible(cs[n - 1], selected) then []
            else [Excluded(KeyOf(cs[n - 1]), Exclusion(cs[n - 1], selected).value)])
  }

  /** Batches and exclusions together account for every source entry. */
  lemma {:induction false} NothingIsDropped(cs: seq<Candidate>, selected: set<string>, n: nat)
    requires n <= |cs|
    ensures |EligibleUpTo(cs, selected, n)| + |ExcludedUpTo(cs, selected, n)| == n
    ensures forall i | 0 <= i < n ::
              if Eligible(cs[i], selected) then cs[i] in EligibleUpTo(cs, selected, n)
              else Excluded(KeyOf(cs[i]), Exclusion(cs[i], selected).value) in ExcludedUpTo(cs, selected, n)
  {
    hide KeyOf, Exclusion;
    if n > 0 { NothingIsDropped(cs, selected, n - 1); }
  }

  lemma OneMore(q: seq<Candidate>, x: Candidate, c: Candidate)
    ensures multiset(q + [x])[c] == multiset(q)[c] + (if x == c then 1 else 0)
  {}

  lemma EligibleStep(cs: seq<Candidate>, selected: set<string>, region: string, n: nat)
    requires n <= |cs|
    ensures n == 0 ==> EligibleUpTo(cs, selected, n) == [] && InRegionUpTo(cs, selected, region, n) == []
    ensures n > 0 ==>
              && EligibleUpTo(cs, selected, n)
                 == (if Eligible(cs[n - 1], selected) then EligibleUpTo(cs, selected, n - 1) + [cs[n - 1]]
                     else EligibleUpTo(cs, selected, n - 1))
              && InRegionUpTo(cs, selected, region, n)
                 == (if Eligible(cs[n - 1], selected) && RegionOf(cs[n - 1]) == region
                     then InRegionUpTo(cs, selected, region, n - 1) + [cs[n - 1]]
                     else InRegionUpTo(cs, selected, region, n - 1))
  {
    hide Eligible, RegionOf;
  }

  lemma {:induction false} RegionCounts(cs: seq<Candidate>, selected: set<string>, region: string, n: nat, c: Candidate)
    requires n <= |cs|
    ensures multiset(InRegionUpTo(cs, selected, region, n))[c]
            == if RegionOf(c) == region then multiset(EligibleUpTo(cs, selected, n))[c] else 0
  {
    hide Eligible, RegionOf, EligibleUpTo, InRegionUpTo;
    EligibleStep(cs, selected, region, n);
    if n > 0 {
      RegionCounts(cs, selected, region, n - 1, c);
      OneMore(EligibleUpTo(cs, selected, n - 1), cs[n - 1], c);
      OneMore(InRegionUpTo(cs, selected, region, n - 1), cs[n - 1], c);
    }
  }

  lemma {:induction false} EligibleMembers(cs: seq<Candidate>, selected: set<string>, n: nat)
    requires n <= |cs|
    ensures forall c :: c in EligibleUpTo(cs, selected, n) <==>
              Eligible(c, selected) && exists i :: 0 <= i < n && cs[i] == c
  {
    hide Eligible;
    if n > 0 { EligibleMembers(cs, selected, n - 1); }
  }

  predicate DistinctUpTo(cs: seq<Candidate>, n: nat)
    requires n <= |cs|
  {
    forall i, j | 0 <= i < j < n && KeyOf(cs[i]) != "" :: KeyOf(cs[i]) != KeyOf(cs[j])
  }

  // ---------------------------------------------------------------- sorting a region

  function KeyText(c: Candidate): string {
    if c.NotObject? then "" else c.rawKey
  }

  lemma {:induction false} InsertCounts(x: Candidate, q: seq<Candidate>)
    requires x !in q
    ensures multiset(Insert(x, q, KeyText)) == multiset(q) + multiset{x}
  {
    if q != [] {
      assert q == [q[0]] + q[1..];
      if x != q[0] && !Less(KeyText(x), KeyText(q[0])) { InsertCounts(x, q[1..]); }
    }
  }

  ghost predicate KeysDiffer(q: seq<Candidate>) {
    forall i, j | 0 <= i < j < |q| :: KeyText(q[i]) != KeyText(q[j])
  }

  /** Order the candidates of one region by their keys. */
  method SortByKey(q: seq<Candidate>) returns (r: seq<Candidate>)
    requires KeysDiffer(q)
    ensures Ascending(r, KeyText) && multiset(r) == multiset(q)
  {
    r := [];
    for n := 0 to |q|
      invariant Ascending(r, KeyText) && multiset(r) == multiset(q[..n])
    {
      assert q[..n + 1] == q[..n] + [q[n]];
      forall y | y in r ensures KeyText(y) != KeyText(q[n]) {
        assert y in multiset(q[..n]);
        var i :| 0 <= i < n && q[..n][i] == y;
        assert q[i] == y;
      }
      InsertKeepsOrder(q[n], r, KeyText);
      InsertCounts(q[n], r);
      r := Insert(q[n], r, KeyText);
    }
    assert q[..|q|] == q;
  }

  // ---------------------------------------------------------------- batches

  /** A batch; its path spells its ordinal, region and part within the region. */
  datatype Batch = Batch(ordinal: nat, region: string, part: nat, rows: seq<Candidate>)

  function RowsUpTo(batches: seq<Batch>, n: nat): seq<Candidate>
    requires n <= |batches|
  {
    if n == 0 then [] else RowsUpTo(batches, n - 1) + batches[n - 1].rows
  }

  function Rows(batches: seq<Batch>): seq<Candidate> {
    RowsUpTo(batches, |batches|)
  }

  lemma {:induction false} RowsPrefix(batches: seq<Batch>, b: Batch, n: nat)
    requires n <= |batches|
    ensures RowsUpTo(batches + [b], n) == RowsUpTo(batches, n)
  {
    if n > 0 { RowsPrefix(batches, b, n - 1); }
  }

  lemma RowsSnoc(batches: seq<Batch>, b: Batch)
    ensures Rows(batches + [b]) == Rows(batches) + b.rows
  {
    RowsPrefix(batches, b, |batches|);
  }

  /** Contiguous ordinals, sizes within the cap, and only the last batch of a region short. */
  ghost predicate WellCut(batches: seq<Batch>, cap: nat) {
    && (forall i | 0 <= i < |batches| :: batches[i].ordinal == i + 1 && 1 <= |batches[i].rows| <= cap)
    && (forall i | 0 <= i < |batches| - 1 ::
          |batches[i].rows| < cap ==> batches[i + 1].region != batches[i].region)
    && (forall i | 0 <= i < |batches| ::
          batches[i].part == if i > 0 && batches[i - 1].region == batches[i].region
                             then batches[i - 1].part + 1 else 1)
    && (forall i, c | 0 <= i < |batches| && c in batches[i].rows :: RegionOf(c) == batches[i].region)
  }

  /** Cut the sorted candidates of one region into batches. */
  method CutRegion(batches0: seq<Batch>, region: string, sorted: seq<Candidate>, cap: nat)
    returns (batches: seq<Batch>)
    requires cap >= 1 && WellCut(batches0, cap)
    requires forall b | b in batches0 :: b.region != region
    requires forall c | c in sorted :: RegionOf(c) == region
    ensures WellCut(batches, cap) && batches0 <= batches
    ensures Rows(batches) == Rows(batches0) + sorted
    ensures forall i | |batches0| <= i < |batches| :: batches[i].region == region
  {
    hide RegionOf, WellCut;
    batches := batches0;
    var start, part := 0, 0;
    while start < |sorted|
      invariant 0 <= start <= |sorted| && batches0 <= batches
      invariant WellCut(batches, cap) && Rows(batches) == Rows(batches0) + sorted[..start]
      invariant forall i | |batches0| <= i < |batches| :: batches[i].region == region
      invariant |batches| == |batches0| + part
      invariant part > 0 ==> batches[|batches| - 1].part == part
      invariant part > 0 && start < |sorted| ==> |batches[|batches| - 1].rows| == cap
    {
      var end := if start + cap < |sorted| then start + cap else |sorted|;
      part := part + 1;
      var b := Batch(|batches| + 1, region, part, sorted[start..end]);
      RowsSnoc(batches, b);
      assert sorted[..end] == sorted[..start] + sorted[start..end];
      SliceMembers(sorted, start, end);
      LastOfRegion(batches0, batches, region);
      CutSnoc(batches, b, cap);
      batches := batches + [b];
      start := end;
    }
    assert sorted[..|sorted|] == sorted;
  }

  lemma SliceMembers(q: seq<Candidate>, from: nat, to: nat)
    requires from <= to <= |q|
    ensures forall c | c in q[from..to] :: c in q
  {
    forall c | c in q[from..to] ensures c in q {
      var i :| 0 <= i < to - from && q[from..to][i] == c;
      assert q[from + i] == c;
    }
  }

  lemma LastOfRegion(batches0: seq<Batch>, batches: seq<Batch>, region: string)
    requires batches0 <= batches && (forall b | b in batches0 :: b.region != region)
    requires forall i | |batches0| <= i < |batches| :: batches[i].region == region
    ensures |batches| == |batches0| && batches != [] ==> batches[|batches| - 1].region != region
  {
    if batches0 != [] { assert batches0[|batches0| - 1] in batches0; }
  }

  lemma CutSnoc(batches: seq<Batch>, b: Batch, cap: nat)
    requires WellCut(batches, cap)
    requires b.ordinal == |batches| + 1 && 1 <= |b.rows| <= cap
    requires forall c | c in b.rows :: RegionOf(c) == b.region
    requires batches == [] || batches[|batches| - 1].region != b.region ==> b.part == 1
    requires batches != [] && batches[|batches| - 1].region == b.region ==>
               b.part == batches[|batches| - 1].part + 1 && |batches[|batches| - 1].rows| == cap
    ensures WellCut(batches + [b], cap)
  {
    hide RegionOf;
    var all := batches + [b];
    assert forall i | 0 <= i < |batches| :: all[i] == batches[i];
    assert all[|batches|] == b;
  }

  // ---------------------------------------------------------------- the plan

  /** The candidates of the first `k` allowed regions. */
  function ByRegion(cs: seq<Candidate>, selected: set<string>, k: nat): seq<Candidate>
    requires k <= |AllowedRegions|
  {
    if k == 0 then []
    else ByRegion(cs, selected, k - 1) + InRegionUpTo(cs, selected, AllowedRegions[k - 1], |cs|)
  }

  lemma AllowedAreDistinct()
    ensures forall i, j | 0 <= i < j < |AllowedRegions| :: AllowedRegions[i] != AllowedRegions[j]
  {
    assert AllowedRegions[0][0] == 'j' && AllowedRegions[1][0] == 'h' && AllowedRegions[3][0] == 'f';
    assert AllowedRegions[2][0] == 'u' && AllowedRegions[4][0] == 'u';
    assert AllowedRegions[2][7] == 'k' && AllowedRegions[4][7] == 's';
  }

  predicate AmongFirst(k: nat, region: string)
    requires k <= |AllowedRegions|
  {
    exists j :: 0 <= j < k && AllowedRegions[j] == region
  }

  lemma {:induction false} ByRegionCounts(cs: seq<Candidate>, selected: set<string>, k: nat, c: Candidate)
    requires k <= |AllowedRegions|
    ensures multiset(ByRegion(cs, selected, k))[c]
            == if AmongFirst(k, RegionOf(c))
               then multiset(EligibleUpTo(cs, selected, |cs|))[c] else 0
  {
    hide RegionOf, Eligible, AllowedRegions, InRegionUpTo, EligibleUpTo;
    if k > 0 {
      AllowedAreDistinct();
      ByRegionCounts(cs, selected, k - 1, c);
      RegionCounts(cs, selected, AllowedRegions[k - 1], |cs|, c);
      var front, last := ByRegion(cs, selected, k - 1), InRegionUpTo(cs, selected, AllowedRegions[k - 1], |cs|);
      assert multiset(front + last)[c] == multiset(front)[c] + multiset(last)[c];
    }
  }

  /** Every eligible candidate belongs to exactly one of the allowed regions. */
  lemma RegionsPartition(cs: seq<Candidate>, selected: set<string>)
    requires selected <= (set r | r in AllowedRegions)
    ensures multiset(ByRegion(cs, selected, |AllowedRegions|)) == multiset(EligibleUpTo(cs, selected, |cs|))
  {
    hide EligibleUpTo, ByRegion, Exclusion;
    var all, eligible := ByRegion(cs, selected, |AllowedRegions|), EligibleUpTo(cs, selected, |cs|);
    forall c ensures multiset(all)[c] == multiset(eligible)[c] {
      ByRegionCounts(cs, selected, |AllowedRegions|, c);
      EligibleMembers(cs, selected, |cs|);
      EligibleHasRegion(c, selected);
      assert c in eligible <==> c in multiset(eligible);
      if c in eligible {
        var region :| region in selected && c.regions == Some([region]);
        assert RegionOf(c) == region;
        assert region in AllowedRegions;
      }
    }
  }

  datatype Plan = Plan(batches: seq<Batch>, candidateCount: nat, exclusions: seq<Excluded>)

  /** What the loop over the source entries collects. */
  ghost predicate Collected(cs: seq<Candidate>, selected: set<string>, n: nat,
                            byRegion: map<string, seq<Candidate>>, exclusions: seq<Excluded>)
    requires n <= |cs|
  {
    && byRegion.Keys == selected
    && (forall region | region in selected :: byRegion[region] == InRegionUpTo(cs, selected, region, n))
    && exclusions == ExcludedUpTo(cs, selected, n)
  }

  lemma CollectNext(cs: seq<Candidate>, selected: set<string>, n: nat,
                    byRegion: map<string, seq<Candidate>>, exclusions: seq<Excluded>)
    requires n < |cs| && Collected(cs, selected, n, byRegion, exclusions)
    ensures !Eligible(cs[n], selected) ==>
              Collected(cs, selected, n + 1, byRegion,
                        exclusions + [Excluded(KeyOf(cs[n]), Exclusion(cs[n], selected).value)])
    ensures Eligible(cs[n], selected) ==>
              && RegionOf(cs[n]) in selected
              && Collected(cs, selected, n + 1,
                           byRegion[RegionOf(cs[n]) := byRegion[RegionOf(cs[n])] + [cs[n]]], exclusions)
  {
    if Eligible(cs[n], selected) { RegionIsSelected(cs[n], selected); }
    ExcludedStep(cs, selected, n + 1);
    hide Exclusion, KeyOf, RegionOf, Eligible, InRegionUpTo, ExcludedUpTo;
    forall region
      ensures InRegionUpTo(cs, selected, region, n + 1)
              == (if Eligible(cs[n], selected) && RegionOf(cs[n]) == region
                  then InRegionUpTo(cs, selected, region, n) + [cs[n]] else InRegionUpTo(cs, selected, region, n))
    {
      EligibleStep(cs, selected, region, n + 1);
    }
  }

  lemma RegionIsSelected(c: Candidate, selected: set<string>)
    requires Eligible(c, selected)
    ensures RegionOf(c) in selected
  {
    EligibleHasRegion(c, selected);
    hide Exclusion, KeyOf;
  }

  lemma ExcludedStep(cs: seq<Candidate>, selected: set<string>, n: nat)
    requires 0 < n <= |cs|
    ensures Eligible(cs[n - 1], selected) ==>
              ExcludedUpTo(cs, selected, n) == ExcludedUpTo(cs, selected, n - 1)
    ensures !Eligible(cs[n - 1], selected) ==>
              ExcludedUpTo(cs, selected, n)
              == ExcludedUpTo(cs, selected, n - 1)
                 + [Excluded(KeyOf(cs[n - 1]), Exclusion(cs[n - 1], selected).value)]
  {
    hide Exclusion, KeyOf;
  }

  /** The loop over the source entries. */
  method Collect(cs: seq<Candidate>, selected: set<string>)
    returns (r: Result<(map<string, seq<Candidate>>, seq<Excluded>), string>)
    ensures r.Ok? <==> DistinctUpTo(cs, |cs|)
    ensures r.Ok? ==> Collected(cs, selected, |cs|, r.value.0, r.value.1)
  {
    hide Exclusion, KeyOf, RegionOf;
    var seen: set<string> := {};
    var byRegion := map region | region in selected :: [];
    var exclusions: seq<Excluded> := [];
    for n := 0 to |cs|
      invariant DistinctUpTo(cs, n)
      invariant seen == set i | 0 <= i < n && KeyOf(cs[i]) != "" :: KeyOf(cs[i])
      invariant Collected(cs, selected, n, byRegion, exclusions)
    {
      var key := KeyOf(cs[n]);
      if key != "" && key in seen { return Err("duplicate candidate_key"); }
      if key != "" { seen := seen + {key}; }
      CollectNext(cs, selected, n, byRegion, exclusions);
      var reason := Exclusion(cs[n], selected);
      if reason.Some? {
        exclusions := exclusions + [Excluded(key, reason.value)];
      } else {
        var region := RegionOf(cs[n]);
        byRegion := byRegion[region := byRegion[region] + [cs[n]]];
      }
    }
    return Ok((byRegion, exclusions));
  }

  lemma RegionMembers(cs: seq<Candidate>, selected: set<string>, region: string, n: nat)
    requires n <= |cs|
    ensures forall c | c in InRegionUpTo(cs, selected, region, n) ::
              Eligible(c, selected) && RegionOf(c) == region && exists i :: 0 <= i < n && cs[i] == c
  {
    hide Eligible, RegionOf;
    if n > 0 { RegionMembers(cs, selected, region, n - 1); }
  }

  lemma {:induction false} RegionKeysDiffer(cs: seq<Candidate>, selected: set<string>, region: string, n: nat)
    requires n <= |cs| && DistinctUpTo(cs, |cs|)
    ensures KeysDiffer(InRegionUpTo(cs, selected, region, n))
  {
    hide Exclusion, RegionOf, Strip;
    if n > 0 {
      RegionKeysDiffer(cs, selected, region, n - 1);
      RegionMembers(cs, selected, region, n - 1);
      var front := InRegionUpTo(cs, selected, region, n - 1);
      forall i | 0 <= i < |front| && Eligible(cs[n - 1], selected)
        ensures KeyText(front[i]) != KeyText(cs[n - 1])
      {
        assert front[i] in front;
        var k :| 0 <= k < n - 1 && cs[k] == front[i];
        EligibleHasRegion(front[i], selected);
        EligibleHasRegion(cs[n - 1], selected);
      }
    }
  }

  /** Within one region the rows of all batches read in ascending order of their keys. */
  ghost predicate RegionSorted(rows: seq<Candidate>) {
    forall i, j | 0 <= i < j < |rows| && RegionOf(rows[i]) == RegionOf(rows[j]) ::
      Less(KeyText(rows[i]), KeyText(rows[j]))
  }

  lemma RegionSortedAppend(rows: seq<Candidate>, sorted: seq<Candidate>, region: string)
    requires RegionSorted(rows) && Ascending(sorted, KeyText)
    requires forall c | c in rows :: RegionOf(c) != region
    requires forall c | c in sorted :: RegionOf(c) == region
    ensures RegionSorted(rows + sorted)
  {
    hide RegionOf, KeyText, Less;
    var all := rows + sorted;
    forall k | 0 <= k < |all| ensures RegionOf(all[k]) == region <==> k >= |rows| {
      assert if k < |rows| then all[k] in rows else all[k] in sorted;
    }
    forall i, j | 0 <= i < j < |all| && RegionOf(all[i]) == RegionOf(all[j])
      ensures Less(KeyText(all[i]), KeyText(all[j]))
    {
      if j < |rows| {
        assert all[i] == rows[i] && all[j] == rows[j];
      } else {
        assert all[i] == sorted[i - |rows|] && all[j] == sorted[j - |rows|];
      }
    }
  }

  lemma {:induction false} RowsHaveRegions(batches: seq<Batch>, n: nat)
    requires n <= |batches|
    requires forall i, c | 0 <= i < |batches| && c in batches[i].rows :: RegionOf(c) == batches[i].region
    ensures forall c | c in RowsUpTo(batches, n) :: exists b :: b in batches && b.region == RegionOf(c)
  {
    hide RegionOf;
    if n > 0 {
      RowsHaveRegions(batches, n - 1);
      assert batches[n - 1] in batches;
    }
  }

  lemma OtherRegions(batches: seq<Batch>, cap: nat, region: string)
    requires WellCut(batches, cap) && forall b | b in batches :: b.region != region
    ensures forall c | c in Rows(batches) :: RegionOf(c) != region
  {
    RowsHaveRegions(batches, |batches|);
  }

  /** The loop over the allowed regions. */
  method CutAll(cs: seq<Candidate>, selected: set<string>, byRegion: map<string, seq<Candidate>>, cap: nat)
    returns (batches: seq<Batch>)
    requires cap >= 1 && DistinctUpTo(cs, |cs|) && selected <= (set r | r in AllowedRegions)
    requires byRegion.Keys == selected
    requires forall region | region in selected :: byRegion[region] == InRegionUpTo(cs, selected, region, |cs|)
    ensures WellCut(batches, cap)
    ensures multiset(Rows(batches)) == multiset(EligibleUpTo(cs, selected, |cs|))
    ensures RegionSorted(Rows(batches))
  {
    hide AllowedRegions, WellCut, InRegionUpTo, Rows, EligibleUpTo, DistinctUpTo, RegionSorted, RegionOf;
    batches := [];
    NoBatches(cap);
    AllowedAreDistinct();
    for k := 0 to |AllowedRegions|
      invariant WellCut(batches, cap) && RegionSorted(Rows(batches))
      invariant multiset(Rows(batches)) == multiset(ByRegion(cs, selected, k))
      invariant forall b | b in batches :: exists j :: 0 <= j < k && AllowedRegions[j] == b.region
    {
      var region := AllowedRegions[k];
      RegionKeysDiffer(cs, selected, region, |cs|);
      RegionMembers(cs, selected, region, |cs|);
      if region in byRegion {
        var sorted := SortByKey(byRegion[region]);
        forall c | c in sorted ensures RegionOf(c) == region { assert c in multiset(sorted); }
        var before := batches;
        OtherRegions(before, cap, region);
        RegionSortedAppend(Rows(before), sorted, region);
        batches := CutRegion(before, region, sorted, cap);
        forall b | b in batches
          ensures exists j :: 0 <= j < k + 1 && AllowedRegions[j] == b.region
        {
          var i :| 0 <= i < |batches| && batches[i] == b;
          if i < |before| { assert before[i] == b && b in before; } else { assert AllowedRegions[k] == b.region; }
        }
      } else {
        UnselectedRegion(cs, selected, region);
      }
    }
    RegionsPartition(cs, selected);
  }

  lemma NoBatches(cap: nat)
    ensures WellCut([], cap) && Rows([]) == [] && RegionSorted([])
  {}

  lemma UnselectedRegion(cs: seq<Candidate>, selected: set<string>, region: string)
    requires region !in selected
    ensures InRegionUpTo(cs, selected, region, |cs|) == []
  {
    RegionMembers(cs, selected, region, |cs|);
    var q := InRegionUpTo(cs, selected, region, |cs|);
    if q != [] {
      assert q[0] in q;
      EligibleHasRegion(q[0], selected);
    }
  }

  function Selected(regions: seq<string>): set<string> {
    set r | r in regions :: Strip(r)
  }

  /** What the builder asks of its arguments and of the source. */
  ghost predicate Plannable(cs: seq<Candidate>, regions: seq<string>, cap: int, decision: string) {
    && regions != [] && Selected(regions) <= (set r | r in AllowedRegions)
    && 1 <= cap <= 100 && Strip(decision) != ""
    && DistinctUpTo(cs, |cs|)
  }

  /** `build_participant_completion_batches`. */
  method Build(cs: seq<Candidate>, regions: seq<string>, cap: int, decision: string)
    returns (r: Result<Plan, string>)
    ensures r.Ok? <==> Plannable(cs, regions, cap, decision)
    ensures r.Ok? ==> IsPlan(r.value, cs, Selected(regions), cap)
  {
    hide Strip, AllowedRegions, WellCut, RegionSorted, EligibleUpTo, ExcludedUpTo, DistinctUpTo;
    var selected := set r | r in regions :: Strip(r);
    if regions == [] || !(selected <= set r | r in AllowedRegions) {
      return Err("regions must be a non-empty approved subset");
    }
    if !(1 <= cap <= 100) { return Err("max_rows_per_batch must be within 1..100"); }
    if Strip(decision) == "" { return Err("decision_reference is required"); }
    var collected := Collect(cs, selected);
    if collected.Err? { return Err(collected.error); }
    var batches := CutAll(cs, selected, collected.value.0, cap);
    return Ok(Plan(batches, |Rows(batches)|, collected.value.1));
  }

  /** A plan of the source: eligible candidates in well-cut batches, everything else excluded. */
  ghost predicate IsPlan(plan: Plan, cs: seq<Candidate>, selected: set<string>, cap: nat) {
    && WellCut(plan.batches, cap) && RegionSorted(Rows(plan.batches))
    && multiset(Rows(plan.batches)) == multiset(EligibleUpTo(cs, selected, |cs|))
    && plan.candidateCount == |Rows(plan.batches)|
    && plan.exclusions == ExcludedUpTo(cs, selected, |cs|)
  }

  lemma {:induction false} InRows(batches: seq<Batch>, n: nat, c: Candidate)
    requires n <= |batches|
    ensures c in RowsUpTo(batches, n) <==> exists i :: 0 <= i < n && c in batches[i].rows
  {
    if n > 0 { InRows(batches, n - 1, c); }
  }

  /** Rows that occur once in all are in one batch only. */
  lemma {:induction false} OnceInRows(batches: seq<Batch>, n: nat, c: Candidate)
    requires n <= |batches| && multiset(RowsUpTo(batches, n))[c] <= 1
    ensures forall i, j | 0 <= i < j < n :: !(c in batches[i].rows && c in batches[j].rows)
  {
    if n > 0 {
      var front, last := RowsUpTo(batches, n - 1), batches[n - 1].rows;
      assert multiset(front + last)[c] == multiset(front)[c] + multiset(last)[c];
      OnceInRows(batches, n - 1, c);
      InRows(batches, n - 1, c);
      assert c in last <==> c in multiset(last);
      assert c in front <==> c in multiset(front);
    }
  }

  lemma NotAgain(cs: seq<Candidate>, selected: set<string>, i: nat, j: nat)
    requires i < j < |cs| && DistinctUpTo(cs, |cs|) && Eligible(cs[i], selected)
    ensures cs[i] != cs[j]
  {
    EligibleHasRegion(cs[i], selected);
    hide Exclusion, KeyOf;
  }

  lemma EligibleAt(cs: seq<Candidate>, selected: set<string>, n: nat, c: Candidate) returns (i: nat)
    requires n <= |cs| && c in EligibleUpTo(cs, selected, n)
    ensures i < n && cs[i] == c && Eligible(c, selected)
  {
    hide Eligible, EligibleUpTo;
    EligibleMembers(cs, selected, n);
    i :| 0 <= i < n && cs[i] == c;
  }

  lemma CountOrNone(q: seq<Candidate>, c: Candidate)
    ensures c !in q ==> multiset(q)[c] == 0
  {
    assert c in q <==> c in multiset(q);
  }

  lemma StillOnce(front: seq<Candidate>, x: Candidate, c: Candidate)
    requires multiset(front)[c] <= 1 && (c in front ==> x != c)
    ensures multiset(front + [x])[c] <= 1
  {
    OneMore(front, x, c);
    CountOrNone(front, c);
  }

  lemma {:induction false} EligibleOnce(cs: seq<Candidate>, selected: set<string>, n: nat, c: Candidate)
    requires n <= |cs| && DistinctUpTo(cs, |cs|)
    ensures multiset(EligibleUpTo(cs, selected, n))[c] <= 1
  {
    hide *;
    EligibleStep(cs, selected, "", n);
    if n > 0 {
      EligibleOnce(cs, selected, n - 1, c);
      if c in EligibleUpTo(cs, selected, n - 1) {
        var i := EligibleAt(cs, selected, n - 1, c);
        NotAgain(cs, selected, i, n - 1);
      }
      StillOnce(EligibleUpTo(cs, selected, n - 1), cs[n - 1], c);
    }
  }

  /** The plan is a partition: an entry is in exactly one batch if it is eligible, in none and among
      the exclusions with its reason otherwise, and nothing else is batched or excluded. */
  lemma PlanIsPartition(plan: Plan, cs: seq<Candidate>, selected: set<string>, cap: nat, c: Candidate)
    requires IsPlan(plan, cs, selected, cap) && DistinctUpTo(cs, |cs|)
    ensures |Rows(plan.batches)| + |plan.exclusions| == |cs|
    ensures forall i, j | 0 <= i < j < |plan.batches| :: !(c in plan.batches[i].rows && c in plan.batches[j].rows)
    ensures c in cs && Eligible(c, selected) <==> exists i :: 0 <= i < |plan.batches| && c in plan.batches[i].rows
    ensures c in cs && !Eligible(c, selected) ==>
              Excluded(KeyOf(c), Exclusion(c, selected).value) in plan.exclusions
  {
    hide Exclusion, KeyOf, DistinctUpTo, WellCut, RegionSorted;
    var rows, eligible := Rows(plan.batches), EligibleUpTo(cs, selected, |cs|);
    NothingIsDropped(cs, selected, |cs|);
    assert |rows| == |multiset(rows)| && |eligible| == |multiset(eligible)|;
    EligibleOnce(cs, selected, |cs|, c);
    OnceInRows(plan.batches, |plan.batches|, c);
    EligibleMembers(cs, selected, |cs|);
    InRows(plan.batches, |plan.batches|, c);
    assert c in rows <==> c in multiset(rows);
    assert c in eligible <==> c in multiset(eligible);
    if c in cs { var i :| 0 <= i < |cs| && cs[i] == c; }
  }
}
