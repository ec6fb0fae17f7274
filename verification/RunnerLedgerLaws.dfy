/** What merging per-batch runner ledgers promises: the order of its inputs does not matter, a
    merged ledger can be merged again, and no observation is lost or invented
    (runtime/research/merge_target_runner_stable_id_ledgers.py). */
module RunnerLedgerLaws {
  import opened TextOrder
  import opened CanonicalText
  import opened RunnerOccurrences
  import opened RunnerLedgerMerge

  // ---------------------------------------------------------------- order of the inputs

  /** Two lists of rows that say the same: only the order of anything in them may differ. */
  ghost predicate SameEvidence(rows: seq<SeedRow>, rows': seq<SeedRow>) {
    && ((forall row | row in rows :: RowOk(row)) <==> (forall row | row in rows' :: RowOk(row)))
    && Horses(rows) == Horses(rows')
    && (forall horse :: NamesOf(rows, horse) == NamesOf(rows', horse))
    && (forall horse :: BatchesOf(rows, horse) == BatchesOf(rows', horse))
    && multiset(Contribs(rows)) == multiset(Contribs(rows'))
  }

  lemma {:induction false} GroupCounts(cs: seq<Contribution>, horse: string, key: string, o: Occurrence)
    ensures multiset(Group(cs, horse, key))[o] == multiset(cs)[Contribution(horse, key, o)]
  {
    if cs != [] {
      GroupCounts(cs[..|cs| - 1], horse, key, o);
      assert cs == cs[..|cs| - 1] + [cs[|cs| - 1]];
    }
  }

  lemma GroupsPermuted(cs: seq<Contribution>, ds: seq<Contribution>, horse: string, key: string)
    requires multiset(cs) == multiset(ds)
    ensures multiset(Group(cs, horse, key)) == multiset(Group(ds, horse, key))
  {
    forall o ensures multiset(Group(cs, horse, key))[o] == multiset(Group(ds, horse, key))[o] {
      GroupCounts(cs, horse, key, o);
      GroupCounts(ds, horse, key, o);
    }
  }

  lemma SameMembers<T>(p: seq<T>, q: seq<T>)
    requires multiset(p) == multiset(q)
    ensures forall x :: x in p <==> x in q
  {
    forall x ensures x in p <==> x in q {
      assert x in p <==> x in multiset(p);
      assert x in q <==> x in multiset(q);
    }
  }

  lemma RemoveOne<T>(front: seq<T>, a: seq<T>, b: seq<T>, x: T)
    requires multiset(front + [x]) == multiset(a + [x] + b)
    ensures multiset(front) == multiset(a + b)
  {
    assert multiset(front) == multiset(front + [x]) - multiset{x};
    assert multiset(a + b) == multiset(a + [x] + b) - multiset{x};
  }

  lemma PermutedContribsOk(cs: seq<Contribution>, ds: seq<Contribution>)
    requires multiset(cs) == multiset(ds) && ContribsOk(cs)
    ensures ContribsOk(ds)
  {
    hide OccurrenceOk, IdentityOf, KeyOf, Group, GroupOk;
    SameMembers(cs, ds);
    forall horse, key ensures GroupOk(Group(ds, horse, key)) {
      GroupsPermuted(cs, ds, horse, key);
      EmptyIsOk(Group(cs, horse, key), Group(ds, horse, key));
      if Group(cs, horse, key) != [] {
        OrderIsIrrelevant(Group(cs, horse, key), Group(ds, horse, key));
      }
    }
  }

  lemma EmptyIsOk(g: seq<Occurrence>, h: seq<Occurrence>)
    requires multiset(g) == multiset(h)
    ensures g == [] ==> h == [] && GroupOk(h)
  {
    assert |g| == |multiset(g)| && |h| == |multiset(h)|;
  }

  lemma PermutedOccurrences(cs: seq<Contribution>, ds: seq<Contribution>, horse: string)
    requires multiset(cs) == multiset(ds) && ContribsOk(cs)
    ensures OccurrencesOf(cs, horse) == OccurrencesOf(ds, horse)
  {
    hide OccurrenceOk, IdentityOf, KeyOf, Group, GroupOk, Combine;
    forall key
      ensures key in KeysOf(cs, horse) <==> key in KeysOf(ds, horse)
      ensures Group(cs, horse, key) != [] ==>
                && Group(ds, horse, key) != []
                && Combine(Group(cs, horse, key)) == Combine(Group(ds, horse, key))
    {
      GroupsPermuted(cs, ds, horse, key);
      KeysOfGroup(cs, horse, key);
      KeysOfGroup(ds, horse, key);
      EmptyIsOk(Group(cs, horse, key), Group(ds, horse, key));
      EmptyIsOk(Group(ds, horse, key), Group(cs, horse, key));
      if Group(cs, horse, key) != [] {
        OrderIsIrrelevant(Group(cs, horse, key), Group(ds, horse, key));
      }
    }
    forall key | key in KeysOf(cs, horse) ensures Group(cs, horse, key) != [] {
      KeysOfGroup(cs, horse, key);
    }
  }

  /** Rows that say the same are accepted or refused together, and merge to the same ledger. */
  lemma MergeIsConfluent(rows: seq<SeedRow>, rows': seq<SeedRow>)
    requires SameEvidence(rows, rows')
    ensures Accepts(rows) <==> Accepts(rows')
    ensures Accepts(rows) ==> Merged(rows) == Merged(rows')
  {
    hide ContribsOk, RowOk, Contribs;
    var cs, ds := Contribs(rows), Contribs(rows');
    if ContribsOk(cs) { PermutedContribsOk(cs, ds); }
    if ContribsOk(ds) { PermutedContribsOk(ds, cs); }
    if Accepts(rows) {
      forall horse | horse in Horses(rows) ensures Merged(rows)[horse] == Merged(rows')[horse] {
        PermutedOccurrences(cs, ds, horse);
      }
    }
  }

  lemma RowContribsCount(row: SeedRow, c: Contribution)
    ensures multiset(RowContribs(row))[c]
            == if c.horse == row.horse && c.key == KeyOf(c.occ) then multiset(row.occurrences)[c.occ] else 0
    decreases |row.occurrences|
  {
    if row.occurrences != [] {
      var front, last := row.occurrences[..|row.occurrences| - 1], row.occurrences[|row.occurrences| - 1];
      RowContribsCount(row.(occurrences := front), c);
      assert row.occurrences == front + [last];
      assert RowContribs(row)
          == RowContribs(row.(occurrences := front)) + [Contribution(row.horse, KeyOf(last), last)];
    }
  }

  lemma {:induction false} RowsPermuted(rows: seq<SeedRow>, rows': seq<SeedRow>)
    requires multiset(rows) == multiset(rows')
    ensures multiset(Contribs(rows)) == multiset(Contribs(rows'))
  {
    hide RowContribs;
    assert |rows| == |multiset(rows)| && |rows'| == |multiset(rows')|;
    if rows != [] {
      var front, last := rows[..|rows| - 1], rows[|rows| - 1];
      SameMembers(rows, rows');
      assert last in rows;
      var j :| 0 <= j < |rows'| && rows'[j] == last;
      var a, b := rows'[..j], rows'[j + 1..];
      assert rows == front + [last] && rows' == a + [last] + b;
      RemoveOne(front, a, b, last);
      RowsPermuted(front, a + b);
      ContribsAppend(a + [last], b);
      ContribsSnoc(a, last);
      ContribsAppend(a, b);
    }
  }

  /** Reordering rows, or the source ledgers that hold them, leaves the evidence the same. */
  lemma RowOrderIsIrrelevant(rows: seq<SeedRow>, rows': seq<SeedRow>)
    requires multiset(rows) == multiset(rows')
    ensures SameEvidence(rows, rows')
  {
    hide RowOk, Contribs;
    SameMembers(rows, rows');
    RowsPermuted(rows, rows');
  }

  /** Two rows that differ only in the order of their names and occurrences. */
  ghost predicate SameRow(row: SeedRow, row': SeedRow) {
    && row.horse == row'.horse && row.batches == row'.batches
    && multiset(row.names) == multiset(row'.names)
    && multiset(row.occurrences) == multiset(row'.occurrences)
  }

  lemma SameRowFacts(row: SeedRow, row': SeedRow)
    requires SameRow(row, row')
    ensures RowOk(row) == RowOk(row') && CleanNames(row.names) == CleanNames(row'.names)
    ensures multiset(RowContribs(row)) == multiset(RowContribs(row'))
  {
    SameMembers(row.names, row'.names);
    assert |row.occurrences| == |multiset(row.occurrences)|;
    assert |row'.occurrences| == |multiset(row'.occurrences)|;
    forall c ensures multiset(RowContribs(row))[c] == multiset(RowContribs(row'))[c] {
      RowContribsCount(row, c);
      RowContribsCount(row', c);
    }
  }

  lemma {:induction false} OccurrencesPermuted(rows: seq<SeedRow>, rows': seq<SeedRow>)
    requires |rows| == |rows'| && forall i | 0 <= i < |rows| :: SameRow(rows[i], rows'[i])
    ensures multiset(Contribs(rows)) == multiset(Contribs(rows'))
  {
    hide RowContribs;
    if rows != [] {
      OccurrencesPermuted(rows[..|rows| - 1], rows'[..|rows| - 1]);
      SameRowFacts(rows[|rows| - 1], rows'[|rows| - 1]);
    }
  }

  /** Reordering names and occurrences inside rows leaves the evidence the same. */
  lemma OccurrenceOrderIsIrrelevant(rows: seq<SeedRow>, rows': seq<SeedRow>)
    requires |rows| == |rows'| && forall i | 0 <= i < |rows| :: SameRow(rows[i], rows'[i])
    ensures SameEvidence(rows, rows')
  {
    OccurrencesPermuted(rows, rows');
    hide RowOk, Contribs, CleanNames, RowContribs;
    forall i | 0 <= i < |rows|
      ensures RowOk(rows[i]) == RowOk(rows'[i]) && CleanNames(rows[i].names) == CleanNames(rows'[i].names)
    {
      SameRowFacts(rows[i], rows'[i]);
    }
    Mirrored(rows, rows');
    Mirrored(rows', rows);
  }

  /** Every row of one list has a counterpart in the other. */
  lemma Mirrored(rows: seq<SeedRow>, rows': seq<SeedRow>)
    requires |rows| == |rows'|
    requires forall i | 0 <= i < |rows| ::
               && rows[i].horse == rows'[i].horse && rows[i].batches == rows'[i].batches
               && RowOk(rows[i]) == RowOk(rows'[i])
               && CleanNames(rows[i].names) == CleanNames(rows'[i].names)
    ensures Horses(rows) <= Horses(rows')
    ensures forall horse :: NamesOf(rows, horse) <= NamesOf(rows', horse)
    ensures forall horse :: BatchesOf(rows, horse) <= BatchesOf(rows', horse)
    ensures (forall row | row in rows' :: RowOk(row)) ==> (forall row | row in rows :: RowOk(row))
  {
    hide RowOk, CleanNames;
    forall row | row in rows
      ensures exists row' :: row' in rows' && row'.horse == row.horse && row'.batches == row.batches
                && RowOk(row) == RowOk(row') && CleanNames(row.names) == CleanNames(row'.names)
    {
      var i :| 0 <= i < |rows| && rows[i] == row;
      assert rows'[i] in rows';
    }
  }

  lemma {:induction false} RowsUpToAppend(sources: seq<Source>, more: seq<Source>, n: nat)
    requires n <= |more|
    ensures RowsUpTo(sources + more, |sources| + n) == AllRows(sources) + RowsUpTo(more, n)
  {
    if n > 0 {
      RowsUpToAppend(sources, more, n - 1);
    } else {
      PrefixRows(sources, more, |sources|);
    }
  }

  lemma {:induction false} PrefixRows(sources: seq<Source>, more: seq<Source>, n: nat)
    requires n <= |sources|
    ensures RowsUpTo(sources + more, n) == RowsUpTo(sources, n)
  {
    if n > 0 { PrefixRows(sources, more, n - 1); }
  }

  lemma AllRowsAppend(sources: seq<Source>, more: seq<Source>)
    ensures AllRows(sources + more) == AllRows(sources) + AllRows(more)
  {
    RowsUpToAppend(sources, more, |more|);
  }

  lemma {:induction false} SourcesPermuted(sources: seq<Source>, sources': seq<Source>)
    requires multiset(sources) == multiset(sources')
    ensures multiset(AllRows(sources)) == multiset(AllRows(sources'))
    decreases |sources|
  {
    assert |sources| == |multiset(sources)| && |sources'| == |multiset(sources')|;
    if sources != [] {
      var front, last := sources[..|sources| - 1], sources[|sources| - 1];
      SameMembers(sources, sources');
      assert last in sources;
      var j :| 0 <= j < |sources'| && sources'[j] == last;
      var a, b := sources'[..j], sources'[j + 1..];
      assert sources == front + [last] && sources' == a + [last] + b;
      RemoveOne(front, a, b, last);
      SourcesPermuted(front, a + b);
      AllRowsAppend(front, [last]);
      AllRowsAppend(a + [last], b);
      AllRowsAppend(a, [last]);
      AllRowsAppend(a, b);
    }
  }

  ghost function SourceKeys(sources: seq<Source>): set<(string, string)> {
    set s | s in sources :: SourceKey(s)
  }

  lemma {:induction false} DistinctKeys(sources: seq<Source>)
    ensures |SourceKeys(sources)| <= |sources|
    ensures Distinct(sources) <==> |SourceKeys(sources)| == |sources|
  {
    if sources != [] {
      var front, last := sources[..|sources| - 1], sources[|sources| - 1];
      DistinctKeys(front);
      assert sources == front + [last];
      assert SourceKeys(sources) == SourceKeys(front) + {SourceKey(last)};
      if SourceKey(last) in SourceKeys(front) {
        var s :| s in front && SourceKey(s) == SourceKey(last);
        var i :| 0 <= i < |front| && front[i] == s;
        assert SourceKey(sources[i]) == SourceKey(sources[|front|]);
      } else {
        assert forall s | s in front :: SourceKey(s) != SourceKey(last);
        assert Distinct(sources) <==> Distinct(front);
      }
    }
  }

  /** Whether a merge runs at all does not depend on the order of the sources either. */
  lemma SourceOrderIsIrrelevant(sources: seq<Source>, sources': seq<Source>)
    requires multiset(sources) == multiset(sources')
    ensures Paired(sources) <==> Paired(sources')
    ensures SameEvidence(AllRows(sources), AllRows(sources'))
  {
    assert |sources| == |multiset(sources)| && |sources'| == |multiset(sources')|;
    SameMembers(sources, sources');
    DistinctKeys(sources);
    DistinctKeys(sources');
    assert SourceKeys(sources) == SourceKeys(sources');
    SourcesPermuted(sources, sources');
    RowOrderIsIrrelevant(AllRows(sources), AllRows(sources'));
  }

  // ---------------------------------------------------------------- merging merged ledgers

  lemma ListingOfListing(q: seq<Observation>)
    requires Ascending(q, ObservationText)
    ensures InsertAll(q, []) == q
  {
    InsertAllListing(q, []);
    AscendingUnique(InsertAll(q, []), q, ObservationText);
  }

  /** A merged occurrence is a valid one, filed under the same key and the same race identity. */
  lemma CombinedIsValid(cs: seq<Contribution>, horse: string, key: string)
    requires ContribsOk(cs) && Group(cs, horse, key) != []
    ensures var g := Group(cs, horse, key);
      && OccurrenceOk(Combine(g)) && KeyOf(Combine(g)) == key
      && IdentityOf(Combine(g)) == IdentityOf(g[0]) && Contribution(horse, key, g[0]) in cs
  {
    var g := Group(cs, horse, key);
    GroupMembers(cs, horse, key);
    assert g[0] in g;
    assert Contribution(horse, key, g[0]) in cs;
    if |g| >= 2 {
      forall o | o in g ensures OccurrenceOk(o) {
        assert Contribution(horse, key, o) in cs;
      }
      assert GroupOk(g);
      CombinedListIsValid(g);
    }
  }

  lemma CombinedListIsValid(g: seq<Occurrence>)
    requires |g| >= 2 && GroupOk(g) && forall o | o in g :: OccurrenceOk(o)
    ensures OccurrenceOk(Combine(g)) && Combine(g).observations.Some?
    ensures KeyOf(Combine(g)) == KeyOf(g[0]) && IdentityOf(Combine(g)) == IdentityOf(g[0])
  {
    assert g[0] in g;
    ListingNonEmpty(g);
    var list := Listing(UnionOf(g));
    ListingIsAscending(UnionOf(g));
    ListingOfListing(list);
    forall i | 0 <= i < |list| ensures ObservationOk(list[i]) {
      assert list[i] in list;
      var o :| o in g && list[i] in ListOf(o);
      var k :| 0 <= k < |ListOf(o)| && ListOf(o)[k] == list[i];
      assert ObservationOk(o.observations.value[k]);
    }
    assert ObservationOk(list[0]);
  }

  /** `es` holds exactly one occurrence for every group of `cs`: the combined one. */
  ghost predicate Summarises(es: seq<Contribution>, cs: seq<Contribution>) {
    && (forall horse, key :: Group(es, horse, key)
          == if Group(cs, horse, key) == [] then [] else [Combine(Group(cs, horse, key))])
    && (forall c | c in es :: Group(cs, c.horse, c.key) != [] && c.occ == Combine(Group(cs, c.horse, c.key)))
  }

  lemma SummaryGroups(es: seq<Contribution>, cs: seq<Contribution>, ds: seq<Contribution>, horse: string, key: string)
    requires Summarises(es, cs) && ContribsOk(cs)
    ensures GroupOk(Group(es + ds, horse, key)) <==> GroupOk(Group(cs + ds, horse, key))
    ensures Group(es + ds, horse, key) == [] <==> Group(cs + ds, horse, key) == []
    ensures Group(cs + ds, horse, key) != [] && GroupOk(Group(cs + ds, horse, key)) ==>
              Combine(Group(es + ds, horse, key)) == Combine(Group(cs + ds, horse, key))
  {
    hide OccurrenceOk, IdentityOf, KeyOf, Group, GroupOk, Combine;
    GroupAppend(es, ds, horse, key);
    GroupAppend(cs, ds, horse, key);
    if Group(cs, horse, key) != [] {
      assert GroupOk(Group(cs, horse, key));
      CombineIsAssociative(Group(cs, horse, key), Group(ds, horse, key));
    }
  }

  ghost predicate SingleOk(c: Contribution) {
    OccurrenceOk(c.occ) && c.key == KeyOf(c.occ)
  }

  ghost predicate Echoed(c: Contribution, cs: seq<Contribution>) {
    exists d :: d in cs && d.key == c.key && IdentityOf(d.occ) == IdentityOf(c.occ)
  }

  /** A merged contribution is valid and shares key and identity with the ones it came from. */
  lemma SummaryIdentities(es: seq<Contribution>, cs: seq<Contribution>, c: Contribution)
    requires Summarises(es, cs) && ContribsOk(cs)
    ensures c in es ==> SingleOk(c) && Echoed(c, cs)
    ensures c in cs ==> SingleOk(c) && Echoed(c, es)
  {
    hide OccurrenceOk, IdentityOf, KeyOf, Group, GroupOk, Combine;
    var g := Group(cs, c.horse, c.key);
    GroupMembers(cs, c.horse, c.key);
    GroupMembers(es, c.horse, c.key);
    if c in es || c in cs {
      if c in cs { assert c == Contribution(c.horse, c.key, c.occ) && c.occ in g; }
      assert g != [];
      CombinedIsValid(cs, c.horse, c.key);
      var d, e := Contribution(c.horse, c.key, g[0]), Contribution(c.horse, c.key, Combine(g));
      assert Combine(g) in Group(es, c.horse, c.key);
      assert d in cs && e in es;
    }
  }

  lemma SummaryIsEquivalent(es: seq<Contribution>, cs: seq<Contribution>, ds: seq<Contribution>)
    requires Summarises(es, cs) && ContribsOk(cs)
    ensures ContribsOk(es + ds) <==> ContribsOk(cs + ds)
  {
    hide *;
    forall horse, key ensures GroupOk(Group(es + ds, horse, key)) <==> GroupOk(Group(cs + ds, horse, key)) {
      SummaryGroups(es, cs, ds, horse, key);
    }
    forall c
      ensures c in es ==> SingleOk(c) && Echoed(c, cs)
      ensures c in cs ==> SingleOk(c) && Echoed(c, es)
    {
      SummaryIdentities(es, cs, c);
    }
    IdentitiesTransfer(es, cs, ds);
    IdentitiesTransfer(cs, es, ds);
  }

  /** Checks that only look at keys and identities transfer to contributions with the same ones. */
  lemma IdentitiesTransfer(es: seq<Contribution>, cs: seq<Contribution>, ds: seq<Contribution>)
    requires forall c | c in es :: SingleOk(c) && Echoed(c, cs)
    requires forall horse, key :: GroupOk(Group(es + ds, horse, key)) <==> GroupOk(Group(cs + ds, horse, key))
    ensures ContribsOk(cs + ds) ==> ContribsOk(es + ds)
  {
    hide OccurrenceOk, IdentityOf, KeyOf, Group, GroupOk;
    if ContribsOk(cs + ds) {
      forall c | c in es + ds ensures SingleOk(c) && Echoed(c, cs + ds) {
        if c in es {
          var d :| d in cs && d.key == c.key && IdentityOf(d.occ) == IdentityOf(c.occ);
          assert d in cs + ds;
        } else {
          assert c in cs + ds;
        }
      }
    }
  }

  lemma SummaryOccurrences(es: seq<Contribution>, cs: seq<Contribution>, ds: seq<Contribution>, horse: string)
    requires Summarises(es, cs) && ContribsOk(cs) && ContribsOk(cs + ds)
    ensures OccurrencesOf(es + ds, horse) == OccurrencesOf(cs + ds, horse)
  {
    hide OccurrenceOk, IdentityOf, KeyOf, Group, GroupOk, Combine, Summarises;
    forall key
      ensures key in KeysOf(es + ds, horse) <==> key in KeysOf(cs + ds, horse)
      ensures Group(cs + ds, horse, key) != [] ==>
                && Group(es + ds, horse, key) != []
                && Combine(Group(es + ds, horse, key)) == Combine(Group(cs + ds, horse, key))
    {
      SummaryGroups(es, cs, ds, horse, key);
      KeysOfGroup(es + ds, horse, key);
      KeysOfGroup(cs + ds, horse, key);
    }
    forall key | key in KeysOf(cs + ds, horse) ensures Group(cs + ds, horse, key) != [] {
      KeysOfGroup(cs + ds, horse, key);
    }
  }

  lemma AscendingFront(q: seq<string>)
    requires q != [] && Ascending(q, Same)
    ensures Ascending(q[..|q| - 1], Same) && q[|q| - 1] !in q[..|q| - 1]
    ensures forall x :: x in q <==> x in q[..|q| - 1] || x == q[|q| - 1]
  {
    var front, last := q[..|q| - 1], q[|q| - 1];
    assert q == front + [last];
    forall i | 0 <= i < |front| ensures front[i] != last {
      Trichotomy(last, last);
      assert Less(Same(q[i]), Same(q[|front|]));
    }
  }

  lemma RowContribsSnoc(row: SeedRow, front: seq<Occurrence>, o: Occurrence)
    requires row.occurrences == front + [o]
    ensures RowContribs(row)
            == RowContribs(row.(occurrences := front)) + [Contribution(row.horse, KeyOf(o), o)]
  {
    hide KeyOf;
  }

  lemma NoContribs(row: SeedRow, horse: string, key: string)
    requires row.occurrences == []
    ensures Group(RowContribs(row), horse, key) == []
  {}

  /** What an emitted row contributes. */
  lemma {:induction false} InOrderGroup(row: SeedRow, occs: map<string, Occurrence>, keys: seq<string>,
                                        horse: string, key: string)
    requires Ascending(keys, Same)
    requires forall k | k in keys :: k in occs && KeyOf(occs[k]) == k
    requires row.occurrences == InOrder(occs, keys)
    ensures Group(RowContribs(row), horse, key)
            == if horse == row.horse && key in keys then [occs[key]] else []
    decreases keys
  {
    hide KeyOf, Less, RowContribs, Group;
    if keys == [] {
      NoContribs(row, horse, key);
    } else {
      var front, last := keys[..|keys| - 1], keys[|keys| - 1];
      AscendingFront(keys);
      var row' := row.(occurrences := InOrder(occs, front));
      InOrderGroup(row', occs, front, horse, key);
      RowContribsSnoc(row, row'.occurrences, occs[last]);
      var c := Contribution(row.horse, last, occs[last]);
      GroupSnoc(RowContribs(row'), c, horse, key);
    }
  }

  /** Every occurrence of a merged ledger is filed under its own key. */
  ghost predicate WellFiled(merged: map<string, Entry>) {
    forall horse, key | horse in merged && key in merged[horse].occurrences ::
      KeyOf(merged[horse].occurrences[key]) == key
  }

  lemma {:induction false} EmitRowsGroup(merged: map<string, Entry>, horses: seq<string>,
                                         horse: string, key: string)
    requires Ascending(horses, Same) && WellFiled(merged)
    requires forall h | h in horses :: h in merged
    ensures Group(Contribs(EmitRows(merged, horses)), horse, key)
            == if horse in horses && key in merged[horse].occurrences
               then [merged[horse].occurrences[key]] else []
  {
    hide KeyOf, Less, RowContribs;
    if horses != [] {
      var front, last := horses[..|horses| - 1], horses[|horses| - 1];
      AscendingFront(horses);
      EmitRowsGroup(merged, front, horse, key);
      var row := EmitRow(last, merged[last]);
      ContribsSnoc(EmitRows(merged, front), row);
      GroupAppend(Contribs(EmitRows(merged, front)), RowContribs(row), horse, key);
      var occs := merged[last].occurrences;
      SortedKeys(occs.Keys);
      InOrderGroup(row, occs, SortedStrings(occs.Keys), horse, key);
    }
  }

  lemma MergedIsWellFiled(rows: seq<SeedRow>)
    requires Accepts(rows)
    ensures WellFiled(Merged(rows))
  {
    hide KeyOf, Combine, Group, OccurrenceOk, RowOk, Contribs;
    var cs := Contribs(rows);
    forall horse, key | horse in Merged(rows) && key in Merged(rows)[horse].occurrences
      ensures KeyOf(Merged(rows)[horse].occurrences[key]) == key
    {
      KeysOfGroup(cs, horse, key);
      CombinedIsValid(cs, horse, key);
    }
  }

  /** The rows of a merged ledger summarise the rows that it was merged from. */
  lemma EmittedSummarises(rows: seq<SeedRow>)
    requires Accepts(rows)
    ensures Summarises(Contribs(Emit(Merged(rows))), Contribs(rows))
  {
    hide KeyOf, Combine, Group, OccurrenceOk, RowOk, Contribs, EmitRows;
    var m, cs, es := Merged(rows), Contribs(rows), Contribs(Emit(Merged(rows)));
    MergedIsWellFiled(rows);
    SortedKeys(m.Keys);
    forall horse, key ensures Group(es, horse, key)
                        == if Group(cs, horse, key) == [] then [] else [Combine(Group(cs, horse, key))]
    {
      EmitRowsGroup(m, SortedStrings(m.Keys), horse, key);
      KeysOfGroup(cs, horse, key);
      ContribHorses(rows);
      if horse !in m { ForeignGroup(cs, horse, key); }
    }
    forall c | c in es ensures Group(cs, c.horse, c.key) != [] && c.occ == Combine(Group(cs, c.horse, c.key)) {
      GroupMembers(es, c.horse, c.key);
      assert c == Contribution(c.horse, c.key, c.occ);
      assert c.occ in Group(es, c.horse, c.key);
    }
  }

  lemma NamesAreClean(rows: seq<SeedRow>, horse: string)
    ensures CleanNames(SortedStrings(NamesOf(rows, horse))) == NamesOf(rows, horse)
  {
    hide Strip;
    SortedKeys(NamesOf(rows, horse));
    forall n | n in NamesOf(rows, horse) ensures Strip(n) == n && n != "" {
      var row, x :| row in rows && x in row.names && Strip(x) != "" && n == Strip(x);
      StripIsIdempotent(x);
    }
  }

  /** Names, batches and horses of a merged ledger are those of the rows it was merged from. */
  lemma EmittedFacts(rows: seq<SeedRow>, horse: string)
    ensures var e := Emit(Merged(rows));
      && Horses(e) == Horses(rows)
      && NamesOf(e, horse) == NamesOf(rows, horse) && BatchesOf(e, horse) == BatchesOf(rows, horse)
  {
    hide Emit, Less, Contribs, CleanNames, OccurrencesOf;
    var m, e := Merged(rows), Emit(Merged(rows));
    forall row ensures row in e <==> row.horse in m && row == EmitRow(row.horse, m[row.horse]) {
      EmitMembers(m, row);
    }
    forall h | h in m ensures EmitRow(h, m[h]) in e {
      assert EmitRow(h, m[h]).horse == h;
    }
    if horse in m {
      SortedKeys(BatchesOf(rows, horse));
      NamesAreClean(rows, horse);
      assert EmitRow(horse, m[horse]) in e;
    }
  }

  /** Merged rows satisfy everything the merge asks of a source row. */
  lemma EmittedRowIsOk(rows: seq<SeedRow>, horse: string)
    requires Accepts(rows) && horse in Horses(rows)
    ensures RowOk(EmitRow(horse, Merged(rows)[horse]))
  {
    hide OccurrenceOk, IdentityOf, KeyOf, Combine, Less, ContribsOk;
    var entry, cs := Merged(rows)[horse], Contribs(rows);
    var source :| source in rows && source.horse == horse;
    assert RowOk(source);
    RowContribsIn(rows, source);
    var o := source.occurrences[0];
    GroupMembers(cs, horse, KeyOf(o));
    assert o in Group(cs, horse, KeyOf(o));
    KeysOfGroup(cs, horse, KeyOf(o));
    SortedKeys(entry.occurrences.Keys);
    assert KeyOf(o) in SortedStrings(entry.occurrences.Keys);
    InOrderLength(entry.occurrences, SortedStrings(entry.occurrences.Keys));
    SortedKeys(entry.batches);
    assert source.batches[0] in source.batches;
    assert source.batches[0] in SortedStrings(entry.batches);
    BatchesAreShas(rows, horse);
  }

  lemma BatchesAreShas(rows: seq<SeedRow>, horse: string)
    requires forall row | row in rows :: RowOk(row)
    ensures forall b | b in BatchesOf(rows, horse) :: IsSha(b)
  {
    hide IsSha, Ascending;
    forall b | b in BatchesOf(rows, horse) ensures IsSha(b) {
      var row :| row in rows && row.horse == horse && b in row.batches;
      assert RowOk(row);
      var i :| 0 <= i < |row.batches| && row.batches[i] == b;
    }
  }

  lemma FactsAppend(rows: seq<SeedRow>, more: seq<SeedRow>, horse: string)
    ensures Horses(rows + more) == Horses(rows) + Horses(more)
    ensures NamesOf(rows + more, horse) == NamesOf(rows, horse) + NamesOf(more, horse)
    ensures BatchesOf(rows + more, horse) == BatchesOf(rows, horse) + BatchesOf(more, horse)
  {
    hide CleanNames;
    assert forall row :: row in rows + more <==> row in rows || row in more;
  }

  lemma EmittedRowsOk(rows: seq<SeedRow>)
    requires Accepts(rows)
    ensures forall row | row in Emit(Merged(rows)) :: RowOk(row)
  {
    hide RowOk, Emit, EmitRow, ContribsOk;
    forall row | row in Emit(Merged(rows)) ensures RowOk(row) {
      EmitMembers(Merged(rows), row);
      EmittedRowIsOk(rows, row.horse);
    }
  }

  /** Merging a merged ledger with further rows accepts exactly what merging all rows at once
      accepts, and gives the same ledger. */
  lemma MergeIsAssociative(rows: seq<SeedRow>, more: seq<SeedRow>)
    requires Accepts(rows)
    ensures Accepts(Emit(Merged(rows)) + more) <==> Accepts(rows + more)
    ensures Accepts(rows + more) ==> Merged(Emit(Merged(rows)) + more) == Merged(rows + more)
  {
    hide RowOk, Emit, ContribsOk, Contribs, Summarises, OccurrencesOf, NamesOf, BatchesOf, Horses;
    var e := Emit(Merged(rows));
    var cs, es, ds := Contribs(rows), Contribs(e), Contribs(more);
    EmittedSummarises(rows);
    EmittedRowsOk(rows);
    ContribsAppend(e, more);
    ContribsAppend(rows, more);
    SummaryIsEquivalent(es, cs, ds);
    assert forall row :: row in rows + more <==> row in rows || row in more;
    assert forall row :: row in e + more <==> row in e || row in more;
    if Accepts(rows + more) {
      forall horse
        ensures Horses(e + more) == Horses(rows + more)
        ensures NamesOf(e + more, horse) == NamesOf(rows + more, horse)
        ensures BatchesOf(e + more, horse) == BatchesOf(rows + more, horse)
        ensures OccurrencesOf(es + ds, horse) == OccurrencesOf(cs + ds, horse)
      {
        EmittedFacts(rows, horse);
        FactsAppend(e, more, horse);
        FactsAppend(rows, more, horse);
        SummaryOccurrences(es, cs, ds, horse);
      }
    }
  }

  /** A merged ledger is accepted again and merging it alone changes nothing. */
  lemma MergedIsStable(rows: seq<SeedRow>)
    requires Accepts(rows)
    ensures Accepts(Emit(Merged(rows))) && Merged(Emit(Merged(rows))) == Merged(rows)
  {
    hide Accepts, Emit, Merged;
    MergeIsAssociative(rows, []);
    assert Emit(Merged(rows)) + [] == Emit(Merged(rows)) && rows + [] == rows;
  }

  // ---------------------------------------------------------------- conservation

  /** What an occurrence says was observed: its listed observations, or its flat source fields. */
  ghost function Seen(o: Occurrence): set<Observation> {
    if o.observations.None? then {o.primary} else set x | x in o.observations.value
  }

  ghost function Facts(rows: seq<SeedRow>): set<(string, string, Observation)> {
    set c, x | c in Contribs(rows) && x in Seen(c.occ) :: (c.horse, c.occ.sem.race, x)
  }

  lemma CombinedSees(g: seq<Occurrence>)
    requires g != [] && GroupOk(g)
    ensures forall o | o in g :: o.sem.race == Combine(g).sem.race && Seen(o) <= Seen(Combine(g))
    ensures forall x | x in Seen(Combine(g)) :: exists o :: o in g && x in Seen(o)
  {
    CombineObservations(g);
    if |g| == 1 {
      assert g == [g[0]];
    } else {
      hide Combine;
      assert forall o | o in g :: Seen(o) == set x | x in ListOf(o);
      assert forall x :: x in Seen(Combine(g)) <==> x in UnionOf(g);
    }
  }

  /** The merge neither loses nor invents an observation of a horse in a race. */
  lemma ObservationsAreConserved(rows: seq<SeedRow>)
    requires Accepts(rows)
    ensures Facts(Emit(Merged(rows))) == Facts(rows)
  {
    hide OccurrenceOk, Contribs, Combine, Group, GroupOk, Seen, Emit, RowOk, KeyOf, IdentityOf;
    EmittedSummarises(rows);
    var cs, es := Contribs(rows), Contribs(Emit(Merged(rows)));
    forall c, x | c in cs && x in Seen(c.occ)
      ensures (c.horse, c.occ.sem.race, x) in Facts(Emit(Merged(rows)))
    {
      GroupMembers(cs, c.horse, c.key);
      GroupMembers(es, c.horse, c.key);
      var g := Group(cs, c.horse, c.key);
      assert c == Contribution(c.horse, c.key, c.occ) && c.occ in g;
      assert GroupOk(g);
      CombinedSees(g);
      assert Combine(g) in Group(es, c.horse, c.key);
      assert Contribution(c.horse, c.key, Combine(g)) in es;
    }
    forall e, x | e in es && x in Seen(e.occ) ensures (e.horse, e.occ.sem.race, x) in Facts(rows) {
      var g := Group(cs, e.horse, e.key);
      assert GroupOk(g);
      CombinedSees(g);
      var o :| o in g && x in Seen(o);
      GroupMembers(cs, e.horse, e.key);
      assert Contribution(e.horse, e.key, o) in cs;
    }
  }
}
