/** A batch plan and the ledger that executes it, together: a ledger that verifies has put every
    eligible candidate through exactly one verified batch. */
module ParticipantExecution {
  import opened ParticipantBatches
  import L = ParticipantLedger

  function Decimal(n: nat): string {
    if n < 10 then ['0' + n as char] else Decimal(n / 10) + ['0' + (n % 10) as char]
  }

  /** `{n:04d}`. */
  function Padded(n: nat): string {
    (if n < 10 then "000" else if n < 100 then "00" else if n < 1000 then "0" else "") + Decimal(n)
  }

  function PathOf(b: Batch): string {
    "batch-" + Padded(b.ordinal) + "-" + b.region + "-" + Padded(b.part)
  }

  /** The frozen index that the builder publishes. */
  function IndexOf(plan: Plan, sha: string): L.Index {
    L.Index(sha, |plan.batches|, plan.candidateCount,
            seq(|plan.batches|, i requires 0 <= i < |plan.batches| =>
              L.IndexRow(PathOf(plan.batches[i]), |plan.batches[i].rows|)))
  }

  lemma {:induction false} RowTotals(batches: seq<Batch>, rows: seq<L.IndexRow>, n: nat)
    requires n <= |batches| == |rows|
    requires forall i | 0 <= i < |rows| :: rows[i].rowCount == |batches[i].rows|
    ensures L.TotalUpTo(rows, n) == |RowsUpTo(batches, n)|
  {
    if n > 0 { RowTotals(batches, rows, n - 1); }
  }

  /** Every built index passes the ledger's check of its index. */
  lemma PlannedIndexLoads(plan: Plan, cs: seq<Candidate>, selected: set<string>, cap: nat, sha: string)
    requires IsPlan(plan, cs, selected, cap)
    ensures L.IndexOk(IndexOf(plan, sha))
  {
    hide IsPlan, PathOf;
    assert plan.candidateCount == |Rows(plan.batches)| by { PlanCounts(plan, cs, selected, cap); }
    RowTotals(plan.batches, IndexOf(plan, sha).rows, |plan.batches|);
  }

  lemma PlanCounts(plan: Plan, cs: seq<Candidate>, selected: set<string>, cap: nat)
    requires IsPlan(plan, cs, selected, cap)
    ensures plan.candidateCount == |Rows(plan.batches)|
  {}

  /** The one batch of a candidate, and the completed ledger entry that went through the whole
      chain of transitions for it. */
  ghost predicate ThroughOneBatch(plan: Plan, index: L.Index, d: L.Digests, log: seq<L.Event>,
                                  completed: seq<L.Done>, c: Candidate, i: nat)
  {
    && i < |plan.batches| == |completed| && c in plan.batches[i].rows
    && (forall j | 0 <= j < |plan.batches| && c in plan.batches[j].rows :: j == i)
    && completed[i].path == PathOf(plan.batches[i]) && completed[i].ordinal == plan.batches[i].ordinal
    && exists ch, v: nat :: L.Completed(index, d, log, completed[i], ch, v)
                            && L.Witnessed(index, d, log, completed[i], ch, v)
  }

  lemma VerifiedMeansDone(plan: Plan, cs: seq<Candidate>, selected: set<string>, cap: nat, sha: string,
                          d: L.Digests, log: seq<L.Event>, c: Candidate)
    requires IsPlan(plan, cs, selected, cap) && DistinctUpTo(cs, |cs|)
    requires L.DigestsOk(d) && L.Legal(IndexOf(plan, sha), d, log)
    requires |L.At(IndexOf(plan, sha), d, log, |log|).completed| == |plan.batches|
    requires c in cs && Eligible(c, selected)
    ensures exists i: nat ::
              ThroughOneBatch(plan, IndexOf(plan, sha), d, log, L.At(IndexOf(plan, sha), d, log, |log|).completed, c, i)
  {
    hide IsPlan, DistinctUpTo, Eligible, PathOf, L.Completed, L.Witnessed;
    var index := IndexOf(plan, sha);
    var completed := L.At(index, d, log, |log|).completed;
    PlanIsPartition(plan, cs, selected, cap, c);
    var i: nat :| i < |plan.batches| && c in plan.batches[i].rows;
    L.HistoryIsSound(index, d, log, |log|);
    assert L.DoneOk(index, i, completed[i]);
    Ordinals(plan, cs, selected, cap, i);
    L.EveryCompletion(index, d, log, |log|, i);
    assert ThroughOneBatch(plan, index, d, log, completed, c, i);
  }

  lemma Ordinals(plan: Plan, cs: seq<Candidate>, selected: set<string>, cap: nat, i: nat)
    requires IsPlan(plan, cs, selected, cap) && i < |plan.batches|
    ensures plan.batches[i].ordinal == i + 1
  {}
}
