/** Runner occurrences and the merge of their source observations, as shared by the builder and
    the merger of stable-ID ledgers (runtime/research/build_target_runner_stable_id_ledger.py and
    merge_target_runner_stable_id_ledgers.py). */
module RunnerOccurrences {
  import opened Wrappers
  import opened TextOrder
  import opened CanonicalText

  datatype Observation = Observation(seed: string, run: string, payload: string)

  /** Canonical JSON of an observation: its keys in sorted order. */
  function ObservationText(o: Observation): string {
    "{\"source_materialized_run_manifest_sha256\":" + (Quote(o.run)
    + (",\"source_runner_payload_sha256\":" + (Quote(o.payload)
    + (",\"source_targeted_seed_id\":" + (Quote(o.seed) + "}")))))
  }

  lemma DropPrefix(p: string, x: string, y: string)
    requires p + x == p + y
    ensures x == y
  {
    assert x == (p + x)[|p|..] && y == (p + y)[|p|..];
  }

  lemma ObservationTextInjective(a: Observation, b: Observation)
    requires ObservationText(a) == ObservationText(b)
    ensures a == b
  {
    var a3, b3 := Quote(a.seed) + "}", Quote(b.seed) + "}";
    var a2 := Quote(a.payload) + (",\"source_targeted_seed_id\":" + a3);
    var b2 := Quote(b.payload) + (",\"source_targeted_seed_id\":" + b3);
    var a1 := Quote(a.run) + (",\"source_runner_payload_sha256\":" + a2);
    var b1 := Quote(b.run) + (",\"source_runner_payload_sha256\":" + b2);
    DropPrefix("{\"source_materialized_run_manifest_sha256\":", a1, b1);
    QuoteIsCode(a.run, b.run, ",\"source_runner_payload_sha256\":" + a2,
                ",\"source_runner_payload_sha256\":" + b2);
    DropPrefix(",\"source_runner_payload_sha256\":", a2, b2);
    QuoteIsCode(a.payload, b.payload, ",\"source_targeted_seed_id\":" + a3,
                ",\"source_targeted_seed_id\":" + b3);
    DropPrefix(",\"source_targeted_seed_id\":", a3, b3);
    QuoteIsCode(a.seed, b.seed, "}", "}");
  }

  lemma TextsAreInjective(s: set<Observation>)
    ensures Injective(s, ObservationText)
  {
    forall a, b | a in s && b in s && ObservationText(a) == ObservationText(b) ensures a == b {
      ObservationTextInjective(a, b);
    }
  }

  /** The observations of `s` in canonical order. */
  ghost function Listing(s: set<Observation>): (q: seq<Observation>)
    ensures forall x :: x in q <==> x in s
  {
    TextsAreInjective(s);
    SortedIsAscending(s, ObservationText);
    Sorted(s, ObservationText)
  }

  lemma ListingIsAscending(s: set<Observation>)
    ensures Ascending(Listing(s), ObservationText)
  {
    TextsAreInjective(s);
    SortedIsAscending(s, ObservationText);
  }

  /** The resolved target of a race; its fields never differ for equal race payloads. */
  type Target = map<string, string>

  datatype Semantics = Semantics(
    race: string, racePayload: string, target: Target, name: string, position: string)

  /** `primary` holds the three flat source fields; legacy rows carry no observation list. */
  datatype Occurrence = Occurrence(
    sem: Semantics, primary: Observation, observations: Option<seq<Observation>>)

  function ListOf(o: Occurrence): seq<Observation> {
    if o.observations.None? then [] else o.observations.value
  }

  ghost function UnionOf(g: seq<Occurrence>): set<Observation> {
    set o, x | o in g && x in ListOf(o) :: x
  }

  predicate Aware(o: Occurrence) {
    o.observations.Some? && o.observations.value != []
  }

  ghost predicate OnePayload(s: set<Observation>) {
    forall x, y | x in s && y in s :: x.payload == y.payload
  }

  /** Occurrences of one horse in one race can be merged: a single one always, several only if
      all list their observations, agree in every other field and saw the same runner payload. */
  ghost predicate GroupOk(g: seq<Occurrence>) {
    |g| >= 2 ==>
      && (forall o | o in g :: Aware(o) && o.sem == g[0].sem)
      && OnePayload(UnionOf(g))
  }

  /** The merged occurrence of a group. */
  ghost function Combine(g: seq<Occurrence>): Occurrence
    requires g != []
  {
    var list := Listing(UnionOf(g));
    if |g| == 1 || list == [] then g[0] else Occurrence(g[0].sem, list[0], Some(list))
  }

  lemma ListingNonEmpty(g: seq<Occurrence>)
    requires g != [] && Aware(g[0])
    ensures Listing(UnionOf(g)) != []
  {
    var x := ListOf(g[0])[0];
    assert g[0] in g && x in ListOf(g[0]);
    assert x in Listing(UnionOf(g));
  }

  /** Group and result only depend on which occurrences there are, not on their order. */
  lemma OrderIsIrrelevant(g: seq<Occurrence>, h: seq<Occurrence>)
    requires multiset(g) == multiset(h) && g != []
    ensures h != [] && GroupOk(g) == GroupOk(h)
    ensures GroupOk(g) ==> Combine(g) == Combine(h)
  {
    assert |g| == |multiset(g)| && |h| == |multiset(h)|;
    forall o ensures o in g <==> o in h {
      assert o in g <==> o in multiset(g);
      assert o in h <==> o in multiset(h);
    }
    assert g[0] in h && h[0] in g;
    assert UnionOf(g) == UnionOf(h);
    if GroupOk(g) && |g| >= 2 {
      ListingNonEmpty(g);
      ListingNonEmpty(h);
    }
  }

  lemma CombineObservations(g: seq<Occurrence>)
    requires g != [] && GroupOk(g)
    ensures forall x :: x in ListOf(Combine(g)) <==> x in UnionOf(g)
    ensures Combine(g).sem == g[0].sem
    ensures |g| >= 2 ==> Aware(Combine(g))
  {
    if |g| == 1 {
      assert g[0] in g;
    } else {
      assert g[0] in g;
      ListingNonEmpty(g);
    }
  }

  lemma UnionOfAppend(g: seq<Occurrence>, h: seq<Occurrence>)
    ensures UnionOf(g + h) == UnionOf(g) + UnionOf(h)
  {
    forall o ensures o in g + h <==> o in g || o in h {}
  }

  lemma UnionOfNested(g: seq<Occurrence>, h: seq<Occurrence>)
    requires g != [] && GroupOk(g)
    ensures UnionOf([Combine(g)] + h) == UnionOf(g + h)
  {
    UnionOfAppend(g, h);
    UnionOfAppend([Combine(g)], h);
    CombineObservations(g);
    var c := Combine(g);
    assert forall x :: x in UnionOf([c]) <==> x in ListOf(c);
  }

  /** Merging an already merged group with more occurrences equals merging all of them at once. */
  lemma CombineIsAssociative(g: seq<Occurrence>, h: seq<Occurrence>)
    requires g != [] && GroupOk(g)
    ensures GroupOk([Combine(g)] + h) == GroupOk(g + h)
    ensures GroupOk(g + h) ==> Combine([Combine(g)] + h) == Combine(g + h)
  {
    CombineObservations(g);
    UnionOfNested(g, h);
    var c, n, a := Combine(g), [Combine(g)] + h, g + h;
    if h == [] {
      assert n == [c] && a == g;
    } else {
      assert forall o :: o in a <==> o in g || o in h;
      assert forall o :: o in n <==> o == c || o in h;
      assert |g| == 1 ==> c == g[0];
      assert g[0] in a && c in n;
    }
  }

  /** Collect observations into an ascending listing, as the dictionary and `sorted` do. */
  function InsertAll(xs: seq<Observation>, q: seq<Observation>): seq<Observation> {
    if xs == [] then q else InsertAll(xs[1..], Insert(xs[0], q, ObservationText))
  }

  lemma {:induction false} InsertAllListing(xs: seq<Observation>, q: seq<Observation>)
    requires Ascending(q, ObservationText)
    ensures Ascending(InsertAll(xs, q), ObservationText)
    ensures forall x :: x in InsertAll(xs, q) <==> x in xs || x in q
  {
    if xs != [] {
      forall y | y in q && ObservationText(y) == ObservationText(xs[0]) ensures y == xs[0] {
        ObservationTextInjective(y, xs[0]);
      }
      InsertKeepsOrder(xs[0], q, ObservationText);
      InsertAllListing(xs[1..], Insert(xs[0], q, ObservationText));
    }
  }

  /** `_merge_observed_occurrences`, the same code in the builder and in the merger. */
  function MergeObserved(existing: Occurrence, incoming: Occurrence): Result<Occurrence, string> {
    if existing.sem != incoming.sem then Err("horse occurrence semantic conflict")
    else
      var ordered := InsertAll(ListOf(incoming), InsertAll(ListOf(existing), []));
      if ordered == [] then Err("horse occurrence observations are missing")
      else if exists i | 0 <= i < |ordered| :: ordered[i].payload != ordered[0].payload
      then Err("horse runner payload differs across observations")
      else Ok(existing.(primary := ordered[0], observations := Some(ordered)))
  }

  /** The list that a merge step collects is the canonical listing of the enlarged group. */
  lemma CollectedIsListing(g: seq<Occurrence>, x: Occurrence)
    requires g != [] && GroupOk(g)
    ensures InsertAll(ListOf(x), InsertAll(ListOf(Combine(g)), [])) == Listing(UnionOf(g + [x]))
  {
    var once := InsertAll(ListOf(Combine(g)), []);
    var ordered := InsertAll(ListOf(x), once);
    CombineObservations(g);
    InsertAllListing(ListOf(Combine(g)), []);
    InsertAllListing(ListOf(x), once);
    UnionOfAppend(g, [x]);
    assert forall y :: y in UnionOf([x]) <==> y in ListOf(x);
    forall y ensures y in ordered <==> y in Listing(UnionOf(g + [x])) {}
    ListingIsAscending(UnionOf(g + [x]));
    AscendingUnique(ordered, Listing(UnionOf(g + [x])), ObservationText);
  }

  lemma GroupOkExtend(g: seq<Occurrence>, x: Occurrence)
    requires g != [] && GroupOk(g) && Aware(x)
    requires forall o | o in g :: Aware(o)
    ensures GroupOk(g + [x]) <==> Combine(g).sem == x.sem && OnePayload(UnionOf(g + [x]))
  {
    CombineObservations(g);
    var a := g + [x];
    forall o ensures o in a <==> o in g || o == x {}
    assert g[0] in g && x in a && a[0] == g[0];
    forall o | o in g ensures o.sem == g[0].sem {
      if |g| == 1 { assert o == g[0]; }
    }
  }

  /** One merge step is exactly one more member of the group. */
  lemma MergeObservedIsCombine(g: seq<Occurrence>, x: Occurrence)
    requires g != [] && GroupOk(g) && Aware(x)
    requires forall o | o in g :: Aware(o)
    ensures MergeObserved(Combine(g), x).Ok? <==> GroupOk(g + [x])
    ensures GroupOk(g + [x]) ==> MergeObserved(Combine(g), x).value == Combine(g + [x])
  {
    var list := Listing(UnionOf(g + [x]));
    CombineObservations(g);
    CollectedIsListing(g, x);
    GroupOkExtend(g, x);
    assert g[0] in g && (g + [x])[0] == g[0];
    ListingNonEmpty(g + [x]);
    SamePayload(list, UnionOf(g + [x]));
  }

  lemma SamePayload(q: seq<Observation>, s: set<Observation>)
    requires q != [] && forall y :: y in q <==> y in s
    ensures (exists i | 0 <= i < |q| :: q[i].payload != q[0].payload) <==> !OnePayload(s)
  {
    if forall i | 0 <= i < |q| :: q[i].payload == q[0].payload {
      forall y | y in s ensures y.payload == q[0].payload {
        assert y in q;
      }
    } else {
      var i :| 0 <= i < |q| && q[i].payload != q[0].payload;
      assert q[i] in q && q[0] in q;
    }
  }
}
