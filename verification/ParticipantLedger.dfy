/** The execution ledger of participant batches
    (runtime/research/p0_participant_execution_ledger.py).

    The ledger file is replaced atomically under a lock; a call may crash in front of the write.
    A ghost history of the accepted transitions explains every ledger that is ever written. */
module ParticipantLedger {
  import opened Wrappers
  import opened CanonicalText

  datatype IndexRow = IndexRow(path: string, rowCount: nat)

  /** The frozen batch plan, with the digest of its file. */
  datatype Index = Index(sha: string, batchCount: nat, candidateCount: nat, rows: seq<IndexRow>)

  function TotalUpTo(rows: seq<IndexRow>, n: nat): nat
    requires n <= |rows|
  {
    if n == 0 then 0 else TotalUpTo(rows, n - 1) + rows[n - 1].rowCount
  }

  predicate IndexOk(index: Index) {
    index.batchCount == |index.rows| && index.candidateCount == TotalUpTo(index.rows, |index.rows|)
  }

  /** `_load_index`. */
  method LoadIndex(index: Index) returns (ok: bool)
    ensures ok <==> IndexOk(index)
  {
    var total := 0;
    for n := 0 to |index.rows|
      invariant total == TotalUpTo(index.rows, n)
    {
      total := total + index.rows[n].rowCount;
    }
    return index.batchCount == |index.rows| && index.candidateCount == total;
  }

  /** A completion manifest, reduced to what the ledger reads; `typed` covers its artifact type and
      its claim of no database writes. */
  datatype Completion = Completion(
    typed: bool, path: string, ordinal: int, indexSha: string, review: string,
    processed: int, complete: int, blocked: int, rest: string)

  datatype Kind = Release | Apply | Verify

  datatype Evidence = Evidence(
    typed: bool, kind: Kind, indexSha: string, path: string, ordinal: int, review: string,
    previous: string, mapping: string, production: string, g3: string, applyReceipt: string,
    writes: Option<int>, passed: bool, nothingRemains: bool, verifierReceipt: string, rest: string)

  /** SHA-256 of the files' contents. */
  datatype Digests = Digests(completion: Completion -> string, evidence: Evidence -> string)

  ghost predicate DigestsOk(d: Digests) {
    (forall c :: IsSha(d.completion(c))) && (forall e :: IsSha(d.evidence(e)))
  }

  datatype Phase =
    | Claimed
    | Prepared(completion: string)
    | Released(completion: string, release: string, production: string, g3: string)
    | Applied(completion: string, release: string, production: string, g3: string,
              apply: string, receipt: string)

  datatype Active = Active(path: string, ordinal: nat, review: string, attempts: seq<string>, phase: Phase)

  datatype Done = Done(
    path: string, ordinal: nat, review: string, attempts: seq<string>, completion: string,
    release: string, apply: string, verifier: string, production: string, receipt: string,
    verifierReceipt: string)

  datatype Ledger = Ledger(
    indexSha: string, batchCount: nat, candidateCount: nat, completed: seq<Done>, active: Option<Active>)

  function EmptyLedger(index: Index): Ledger {
    Ledger(index.sha, index.batchCount, index.candidateCount, [], None)
  }

  predicate DoneOk(index: Index, k: nat, done: Done)
    requires k < |index.rows|
  {
    && done.path == index.rows[k].path && done.ordinal == k + 1
    && IsSha(done.review) && IsSha(done.completion) && IsSha(done.release)
    && IsSha(done.apply) && IsSha(done.verifier)
    && forall i | 0 <= i < |done.attempts| :: IsSha(done.attempts[i])
  }

  /** What is checked of a ledger whenever it is loaded. */
  predicate LoadOk(index: Index, ledger: Ledger)
    requires IndexOk(index)
  {
    && ledger.indexSha == index.sha && ledger.batchCount == index.batchCount
    && ledger.candidateCount == index.candidateCount
    && |ledger.completed| <= index.batchCount
    && forall k | 0 <= k < |ledger.completed| :: DoneOk(index, k, ledger.completed[k])
  }

  // ---------------------------------------------------------------- accepted transitions

  datatype Event =
    | Claim(review: string)
    | Prepare(completion: Completion)
    | Retry(completion: Completion)
    | Stage(evidence: Evidence)

  /** A completion manifest that binds the active batch. */
  predicate Binds(index: Index, a: Active, c: Completion) {
    && c.typed && c.path == a.path && c.ordinal == a.ordinal && c.indexSha == index.sha
    && c.review == a.review
    && 1 <= a.ordinal <= |index.rows| && c.processed == index.rows[a.ordinal - 1].rowCount
  }

  /** An all-blocked read-only attempt that may be retried. */
  predicate AllBlocked(index: Index, a: Active, c: Completion) {
    && c.typed && c.complete == 0
    && 1 <= a.ordinal <= |index.rows| && c.processed == index.rows[a.ordinal - 1].rowCount
    && c.blocked == index.rows[a.ordinal - 1].rowCount
  }

  predicate EvidenceBinds(index: Index, a: Active, e: Evidence, previous: string) {
    && e.typed && e.indexSha == index.sha && e.path == a.path && e.ordinal == a.ordinal
    && e.review == a.review && e.previous == previous
  }

  predicate ReleaseOk(e: Evidence) {
    IsSha(e.mapping) && IsSha(e.production) && IsSha(e.g3)
  }

  predicate ApplyOk(e: Evidence, p: Phase)
    requires p.Released?
  {
    && e.production == p.production && e.g3 == p.g3 && IsSha(e.applyReceipt)
    && e.writes.Some? && e.writes.value >= 0
  }

  predicate VerifyOk(e: Evidence, p: Phase)
    requires p.Applied?
  {
    && e.production == p.production && e.applyReceipt == p.receipt && e.passed && e.nothingRemains
    && IsSha(e.verifierReceipt)
  }

  datatype State = Illegal | State(completed: seq<Done>, active: Option<Active>)

  function StageStep(index: Index, d: Digests, s: State, e: Evidence): State
    requires s.State? && s.active.Some?
  {
    var a, sha := s.active.value, d.evidence(e);
    match a.phase
    case Claimed => Illegal
    case Prepared(completion) =>
      if e.kind == Release && EvidenceBinds(index, a, e, completion) && ReleaseOk(e)
      then s.(active := Some(a.(phase := Released(completion, sha, e.production, e.g3)))) else Illegal
    case Released(completion, release, production, g3) =>
      if e.kind == Apply && EvidenceBinds(index, a, e, release) && ApplyOk(e, a.phase)
      then s.(active := Some(a.(phase := Applied(completion, release, production, g3, sha, e.applyReceipt))))
      else Illegal
    case Applied(completion, release, production, _, apply, receipt) =>
      if e.kind == Verify && EvidenceBinds(index, a, e, apply) && VerifyOk(e, a.phase)
      then State(s.completed + [Done(a.path, a.ordinal, a.review, a.attempts, completion, release, apply, sha,
                                     production, receipt, e.verifierReceipt)], None)
      else Illegal
  }

  /** The rules of the ledger. */
  function Step(index: Index, d: Digests, s: State, e: Event): State {
    if s.Illegal? then Illegal
    else
      match e
      case Claim(review) =>
        if s.active.None? && |s.completed| < |index.rows| && IsSha(review)
        then s.(active := Some(Active(index.rows[|s.completed|].path, |s.completed| + 1, review, [], Claimed)))
        else Illegal
      case Prepare(c) =>
        if s.active.Some? && s.active.value.phase in {Claimed, Prepared(d.completion(c))}
           && Binds(index, s.active.value, c)
        then s.(active := Some(s.active.value.(phase := Prepared(d.completion(c))))) else Illegal
      case Retry(c) =>
        if s.active.Some? && s.active.value.phase == Prepared(d.completion(c))
           && AllBlocked(index, s.active.value, c)
        then s.(active := Some(s.active.value.(
                                 attempts := s.active.value.attempts + [d.completion(c)], phase := Claimed)))
        else Illegal
      case Stage(evidence) => if s.active.Some? then StageStep(index, d, s, evidence) else Illegal
  }

  function At(index: Index, d: Digests, log: seq<Event>, n: nat): State
    requires n <= |log|
  {
    if n == 0 then State([], None) else Step(index, d, At(index, d, log, n - 1), log[n - 1])
  }

  predicate Legal(index: Index, d: Digests, log: seq<Event>) {
    At(index, d, log, |log|).State?
  }

  lemma {:induction false} AtPrefix(index: Index, d: Digests, log: seq<Event>, e: Event, n: nat)
    requires n <= |log|
    ensures At(index, d, log + [e], n) == At(index, d, log, n)
  {
    if n > 0 { AtPrefix(index, d, log, e, n - 1); }
  }

  lemma AtExtend(index: Index, d: Digests, log: seq<Event>, e: Event)
    ensures At(index, d, log + [e], |log| + 1) == Step(index, d, At(index, d, log, |log|), e)
  {
    AtPrefix(index, d, log, e, |log|);
  }

  lemma {:induction false} PrefixLegal(index: Index, d: Digests, log: seq<Event>, k: nat, n: nat)
    requires k <= n <= |log| && At(index, d, log, n).State?
    ensures At(index, d, log, k).State?
    decreases n
  {
    if k < n { PrefixLegal(index, d, log, k, n - 1); }
  }

  // ---------------------------------------------------------------- what legal histories promise

  /** The active batch is the next one of the index. */
  ghost predicate ActiveIsNext(index: Index, s: State) {
    s.State? && s.active.Some? ==>
      && s.active.value.ordinal == |s.completed| + 1 <= |index.rows|
      && s.active.value.path == index.rows[|s.completed|].path
      && IsSha(s.active.value.review)
  }

  ghost predicate ShasOk(a: Active) {
    && (forall i | 0 <= i < |a.attempts| :: IsSha(a.attempts[i]))
    && (!a.phase.Claimed? ==> IsSha(a.phase.completion))
    && (a.phase.Released? || a.phase.Applied? ==> IsSha(a.phase.release))
    && (a.phase.Applied? ==> IsSha(a.phase.apply))
  }

  /** Every ledger of a legal history has completed an exact prefix of the index. */
  ghost predicate Sound(index: Index, s: State) {
    s.State? ==>
      && |s.completed| <= |index.rows|
      && (forall k | 0 <= k < |s.completed| :: DoneOk(index, k, s.completed[k]))
      && ActiveIsNext(index, s)
      && (s.active.Some? ==> ShasOk(s.active.value))
  }

  lemma StepIsSound(index: Index, d: Digests, s: State, e: Event)
    requires DigestsOk(d) && Sound(index, s)
    ensures Sound(index, Step(index, d, s, e))
  {
    hide IsSha, Binds, AllBlocked, EvidenceBinds, ReleaseOk, ApplyOk, VerifyOk;
  }

  lemma {:induction false} HistoryIsSound(index: Index, d: Digests, log: seq<Event>, n: nat)
    requires DigestsOk(d) && n <= |log|
    ensures Sound(index, At(index, d, log, n))
  {
    if n > 0 {
      HistoryIsSound(index, d, log, n - 1);
      StepIsSound(index, d, At(index, d, log, n - 1), log[n - 1]);
    }
  }

  /** Where the transitions of one batch stand in a history. */
  datatype Chain = Chain(claim: nat, prepare: nat, release: nat, apply: nat)

  /** Position `i` happened while this batch was the next one to complete. */
  ghost predicate During(index: Index, d: Digests, log: seq<Event>, i: nat, ordinal: nat) {
    i < |log| && At(index, d, log, i).State? && |At(index, d, log, i).completed| + 1 == ordinal
  }

  ghost predicate ClaimAt(index: Index, d: Digests, log: seq<Event>, i: nat, a: Active) {
    During(index, d, log, i, a.ordinal) && log[i] == Claim(a.review)
  }

  ghost predicate PrepareAt(index: Index, d: Digests, log: seq<Event>, i: nat, a: Active, sha: string) {
    && During(index, d, log, i, a.ordinal) && log[i].Prepare?
    && Binds(index, a, log[i].completion) && d.completion(log[i].completion) == sha
  }

  /** Evidence with digest `sha` that names its predecessor was accepted. */
  ghost predicate EvidenceAt(index: Index, d: Digests, log: seq<Event>, i: nat, a: Active, kind: Kind,
                             previous: string, sha: string)
  {
    && During(index, d, log, i, a.ordinal) && log[i].Stage? && log[i].evidence.kind == kind
    && EvidenceBinds(index, a, log[i].evidence, previous) && d.evidence(log[i].evidence) == sha
  }

  /** The release evidence that a phase remembers. */
  predicate ReleasedWith(p: Phase, e: Evidence)
    requires p.Released? || p.Applied?
  {
    && IsSha(e.mapping) && IsSha(e.production) && IsSha(e.g3)
    && p.production == e.production && p.g3 == e.g3
  }

  /** The apply evidence that a phase remembers: of the release `r`, with a receipt and its writes. */
  predicate AppliedWith(p: Phase, r: Evidence, e: Evidence)
    requires p.Applied?
  {
    && e.production == r.production && e.g3 == r.g3 && IsSha(e.applyReceipt) && p.receipt == e.applyReceipt
    && e.writes.Some? && e.writes.value >= 0
  }

  /** The chain of transitions that led the active batch to its phase. */
  ghost predicate Explains(index: Index, d: Digests, log: seq<Event>, n: nat, a: Active, ch: Chain) {
    && ch.claim < n && ClaimAt(index, d, log, ch.claim, a)
    && (!a.phase.Claimed? ==>
          ch.claim < ch.prepare < n && PrepareAt(index, d, log, ch.prepare, a, a.phase.completion))
    && (a.phase.Released? || a.phase.Applied? ==>
          && ch.prepare < ch.release < n
          && EvidenceAt(index, d, log, ch.release, a, Release, a.phase.completion, a.phase.release)
          && ReleasedWith(a.phase, log[ch.release].evidence))
    && (a.phase.Applied? ==>
          && ch.release < ch.apply < n
          && EvidenceAt(index, d, log, ch.apply, a, Apply, a.phase.release, a.phase.apply)
          && AppliedWith(a.phase, log[ch.release].evidence, log[ch.apply].evidence))
  }

  /** Extend the chain of the active batch by the transition at position `n`. */
  lemma ChainStep(index: Index, d: Digests, log: seq<Event>, n: nat, ch: Chain) returns (ch': Chain)
    requires n < |log| && Sound(index, At(index, d, log, n))
    requires At(index, d, log, n).State? && At(index, d, log, n).active.Some?
    requires Explains(index, d, log, n, At(index, d, log, n).active.value, ch)
    requires At(index, d, log, n + 1).State? && At(index, d, log, n + 1).active.Some?
    ensures Explains(index, d, log, n + 1, At(index, d, log, n + 1).active.value, ch')
  {
    hide IsSha, AllBlocked, VerifyOk, DoneOk, ShasOk;
    var a := At(index, d, log, n).active.value;
    match log[n]
    case Claim(_) => ch' := ch;
    case Prepare(_) => ch' := if a.phase.Claimed? then ch.(prepare := n) else ch;
    case Retry(_) => ch' := ch;
    case Stage(_) => ch' := if a.phase.Prepared? then ch.(release := n) else ch.(apply := n);
  }

  lemma {:induction false} ActiveIsExplained(index: Index, d: Digests, log: seq<Event>, n: nat) returns (ch: Chain)
    requires DigestsOk(d) && n <= |log|
    requires At(index, d, log, n).State? && At(index, d, log, n).active.Some?
    ensures Explains(index, d, log, n, At(index, d, log, n).active.value, ch)
  {
    hide IsSha, AllBlocked, ReleaseOk, ApplyOk, VerifyOk, DoneOk, ShasOk, Binds, EvidenceBinds;
    HistoryIsSound(index, d, log, n - 1);
    if At(index, d, log, n - 1).active.Some? {
      var before := ActiveIsExplained(index, d, log, n - 1);
      ch := ChainStep(index, d, log, n - 1, before);
    } else {
      ch := Chain(n - 1, 0, 0, 0);
    }
  }

  function Identity(done: Done): Active {
    Active(done.path, done.ordinal, done.review, done.attempts,
           Applied(done.completion, done.release, done.production, "", done.apply, done.receipt))
  }

  /** The whole chain of a completed batch, ending in the verification at position `v`. */
  ghost predicate Completed(index: Index, d: Digests, log: seq<Event>, done: Done, ch: Chain, v: nat) {
    && ch.claim < ch.prepare < ch.release < ch.apply < v
    && ClaimAt(index, d, log, ch.claim, Identity(done))
    && PrepareAt(index, d, log, ch.prepare, Identity(done), done.completion)
    && EvidenceAt(index, d, log, ch.release, Identity(done), Release, done.completion, done.release)
    && EvidenceAt(index, d, log, ch.apply, Identity(done), Apply, done.release, done.apply)
    && EvidenceAt(index, d, log, v, Identity(done), Verify, done.apply, done.verifier)
  }

  /** A piece of evidence about this batch of this index, naming the digest of its predecessor. */
  predicate About(index: Index, done: Done, e: Evidence, kind: Kind, previous: string) {
    && e.kind == kind && e.typed && e.indexSha == index.sha && e.path == done.path && e.ordinal == done.ordinal
    && e.review == done.review && e.previous == previous
  }

  /** What the manifest and the evidence of a completed batch said: every row was processed, it was
      released and applied to one production state, and the verification of exactly this application
      passed with nothing left to do. */
  ghost predicate Witnessed(index: Index, d: Digests, log: seq<Event>, done: Done, ch: Chain, v: nat) {
    && ch.claim < ch.prepare < ch.release < ch.apply < v < |log|
    && log[ch.claim] == Claim(done.review)
    && log[ch.prepare].Prepare? && log[ch.release].Stage? && log[ch.apply].Stage? && log[v].Stage?
    && 1 <= done.ordinal <= |index.rows| && done.path == index.rows[done.ordinal - 1].path
    && var c, r, a, e := log[ch.prepare].completion, log[ch.release].evidence, log[ch.apply].evidence, log[v].evidence;
    && c.typed && c.path == done.path && c.ordinal == done.ordinal && c.indexSha == index.sha
    && c.review == done.review && c.processed == index.rows[done.ordinal - 1].rowCount
    && About(index, done, r, Release, d.completion(c)) && About(index, done, a, Apply, d.evidence(r))
    && About(index, done, e, Verify, d.evidence(a))
    && IsSha(r.mapping) && IsSha(r.production) && IsSha(r.g3)
    && a.production == r.production && a.g3 == r.g3 && IsSha(a.applyReceipt)
    && a.writes.Some? && a.writes.value >= 0
    && e.production == r.production && e.applyReceipt == a.applyReceipt && e.passed && e.nothingRemains
    && IsSha(e.verifierReceipt)
    && done.completion == d.completion(c) && done.release == d.evidence(r) && done.apply == d.evidence(a)
    && done.verifier == d.evidence(e) && done.production == r.production && done.receipt == a.applyReceipt
    && done.verifierReceipt == e.verifierReceipt
  }

  /** Every completed batch went through claim, prepare, release, apply and verify in this order,
      while it was the next batch, each piece of evidence naming the digest of its predecessor. */
  lemma {:induction false} EveryCompletion(index: Index, d: Digests, log: seq<Event>, n: nat, k: nat)
    requires DigestsOk(d) && n <= |log| && At(index, d, log, n).State?
    requires k < |At(index, d, log, n).completed|
    ensures exists ch, v: nat :: v < n && Completed(index, d, log, At(index, d, log, n).completed[k], ch, v)
                                 && Witnessed(index, d, log, At(index, d, log, n).completed[k], ch, v)
    decreases n
  {
    hide Step, Completed, Witnessed, Sound, Explains;
    assert n > 0;
    var before, after := At(index, d, log, n - 1), At(index, d, log, n);
    PrefixLegal(index, d, log, n - 1, n);
    CompletedGrows(index, d, before, log[n - 1]);
    if k < |before.completed| {
      EveryCompletion(index, d, log, n - 1, k);
      var ch, v: nat :| v < n - 1 && Completed(index, d, log, before.completed[k], ch, v)
                        && Witnessed(index, d, log, before.completed[k], ch, v);
    } else {
      HistoryIsSound(index, d, log, n - 1);
      var ch := ActiveIsExplained(index, d, log, n - 1);
      VerifiedStep(index, d, log, n - 1, ch);
      assert Completed(index, d, log, after.completed[k], ch, n - 1)
        && Witnessed(index, d, log, after.completed[k], ch, n - 1);
    }
  }

  lemma CompletedGrows(index: Index, d: Digests, s: State, e: Event)
    requires s.State? && Step(index, d, s, e).State?
    ensures var s' := Step(index, d, s, e);
      s'.completed == s.completed
      || (s.active.Some? && |s'.completed| == |s.completed| + 1
          && s'.completed[..|s.completed|] == s.completed)
  {
    hide IsSha, AllBlocked, ReleaseOk, ApplyOk, VerifyOk, Binds, EvidenceBinds;
  }

  /** A verification completes exactly the active batch. */
  lemma VerifiedStep(index: Index, d: Digests, log: seq<Event>, n: nat, ch: Chain)
    requires n < |log| && At(index, d, log, n).State? && At(index, d, log, n + 1).State?
    requires |At(index, d, log, n + 1).completed| > |At(index, d, log, n).completed|
    requires Sound(index, At(index, d, log, n)) && At(index, d, log, n).active.Some?
    requires Explains(index, d, log, n, At(index, d, log, n).active.value, ch)
    ensures var before, after := At(index, d, log, n), At(index, d, log, n + 1);
      && |after.completed| == |before.completed| + 1
      && Completed(index, d, log, after.completed[|before.completed|], ch, n)
      && Witnessed(index, d, log, after.completed[|before.completed|], ch, n)
  {
    hide IsSha, AllBlocked, ReleaseOk, ApplyOk, DoneOk, ShasOk;
  }

  /** Evidence about the active batch, as a stage has to find it. */
  predicate AboutActive(index: Index, a: Active, e: Evidence, kind: Kind, previous: string) {
    && e.kind == kind && e.typed && e.indexSha == index.sha && e.path == a.path && e.ordinal == a.ordinal
    && e.review == a.review && e.previous == previous
  }

  /** Exactly which evidence moves the active batch on, from each phase. */
  lemma StageAccepts(index: Index, d: Digests, s: State, e: Evidence)
    requires s.State? && s.active.Some?
    ensures var a, p := s.active.value, s.active.value.phase;
      StageStep(index, d, s, e).State? <==>
        || (p.Prepared? && AboutActive(index, a, e, Release, p.completion)
            && IsSha(e.mapping) && IsSha(e.production) && IsSha(e.g3))
        || (p.Released? && AboutActive(index, a, e, Apply, p.release)
            && e.production == p.production && e.g3 == p.g3 && IsSha(e.applyReceipt)
            && e.writes.Some? && e.writes.value >= 0)
        || (p.Applied? && AboutActive(index, a, e, Verify, p.apply)
            && e.production == p.production && e.applyReceipt == p.receipt && e.passed && e.nothingRemains
            && IsSha(e.verifierReceipt))
  {
    hide IsSha;
  }

  /** A loaded ledger belongs to the index and holds an exact prefix of it, all digests well formed. */
  lemma LoadedLedger(index: Index, ledger: Ledger)
    requires IndexOk(index)
    ensures LoadOk(index, ledger) <==>
              && ledger == Ledger(index.sha, |index.rows|, index.candidateCount, ledger.completed, ledger.active)
              && |ledger.completed| <= |index.rows|
              && forall k | 0 <= k < |ledger.completed| ::
                   var done := ledger.completed[k];
                   && done.path == index.rows[k].path && done.ordinal == k + 1
                   && forall sha | sha in done.attempts + [done.review, done.completion, done.release, done.apply,
                                                           done.verifier] :: IsSha(sha)
  {
    hide IsSha;
    forall k | 0 <= k < |ledger.completed| && |ledger.completed| <= |index.rows|
      ensures DoneOk(index, k, ledger.completed[k]) <==>
                var done := ledger.completed[k];
                && done.path == index.rows[k].path && done.ordinal == k + 1
                && forall sha | sha in done.attempts + [done.review, done.completion, done.release, done.apply,
                                                        done.verifier] :: IsSha(sha)
    {
      ShasOfDone(ledger.completed[k]);
    }
  }

  lemma ShasOfDone(done: Done)
    ensures (forall sha | sha in done.attempts + [done.review, done.completion, done.release, done.apply,
                                                  done.verifier] :: IsSha(sha))
            <==>
            && IsSha(done.review) && IsSha(done.completion) && IsSha(done.release) && IsSha(done.apply)
            && IsSha(done.verifier) && forall i | 0 <= i < |done.attempts| :: IsSha(done.attempts[i])
  {
    hide IsSha;
    var rest := [done.review, done.completion, done.release, done.apply, done.verifier];
    assert forall sha :: sha in done.attempts + rest <==> sha in done.attempts || sha in rest;
    assert rest[0] in rest && rest[1] in rest && rest[2] in rest && rest[3] in rest && rest[4] in rest;
    assert forall i | 0 <= i < |done.attempts| :: done.attempts[i] in done.attempts;
  }

  // ---------------------------------------------------------------- the ledger file

  datatype Action =
    | DoClaim
    | DoRetry(authorized: bool, completion: Option<Completion>)
    | DoPrepare(completion: Option<Completion>)
    | DoStage(kind: Kind, evidence: Option<Evidence>)
    | DoVerify
    | Unsupported

  class LedgerFile {
    const index: Index
    const digests: Digests
    var file: Option<Ledger>
    ghost var log: seq<Event>

    ghost predicate Valid()
      reads this
    {
      && IndexOk(index) && DigestsOk(digests) && Legal(index, digests, log)
      && (file.None? ==> log == [])
      && (file.Some? ==>
            && file.value.indexSha == index.sha && file.value.batchCount == index.batchCount
            && file.value.candidateCount == index.candidateCount
            && At(index, digests, log, |log|) == State(file.value.completed, file.value.active))
    }

    /** The ledger that a call starts from. */
    function Current(): Ledger
      reads `file
    {
      if file.None? then EmptyLedger(index) else file.value
    }

    constructor (index: Index, digests: Digests)
      requires IndexOk(index) && DigestsOk(digests)
      ensures Valid() && file.None? && this.index == index && this.digests == digests
    {
      this.index, this.digests, file, log := index, digests, None, [];
    }

    /** Every ledger that is ever written passes its own load-time validation. */
    lemma WrittenLedgersLoad()
      requires Valid()
      ensures LoadOk(index, Current())
      ensures Current().active.Some? ==> Current().active.value.ordinal == |Current().completed| + 1
    {
      HistoryIsSound(index, digests, log, |log|);
    }

    /** Replace the file by the result of one transition, unless the call crashes first. */
    method Write(ledger: Ledger, ghost e: Event, crash: bool)
      requires Valid()
      requires ledger == Current().(completed := ledger.completed, active := ledger.active)
      requires Step(index, digests, At(index, digests, log, |log|), e) == State(ledger.completed, ledger.active)
      modifies `file, `log
      ensures Valid()
      ensures crash ==> file == old(file) && log == old(log)
      ensures !crash ==> file == Some(ledger) && log == old(log) + [e]
    {
      hide At, Step;
      if !crash {
        file := Some(ledger);
        log := log + [e];
        AtExtend(index, digests, old(log), e);
      }
    }

    /** A repeated claim writes the ledger as it is. */
    method Rewrite(ledger: Ledger, crash: bool)
      requires Valid() && ledger == Current() && file.Some?
      modifies `file
      ensures Valid() && file == old(file)
    {
      if !crash { file := Some(ledger); }
    }

    /** The transition that an action asks for, if its inputs are there and authorised. */
    function EventFor(action: Action, review: string): Option<Event> {
      match action
      case DoClaim => Some(Claim(review))
      case DoRetry(authorized, completion) =>
        if authorized && completion.Some? then Some(Retry(completion.value)) else None
      case DoPrepare(completion) => if completion.Some? then Some(Prepare(completion.value)) else None
      case DoStage(kind, evidence) =>
        if evidence.Some? && evidence.value.kind == kind then Some(Stage(evidence.value)) else None
      case DoVerify => None
      case Unsupported => None
    }

    function StateOf(ledger: Ledger): State {
      State(ledger.completed, ledger.active)
    }

    /** Exactly which transitions are accepted: those of the next batch that the rules allow. */
    predicate Allowed(ledger: Ledger, action: Action, path: string, review: string) {
      && IsSha(review) && |ledger.completed| < |index.rows|
      && path == index.rows[|ledger.completed|].path
      && (ledger.active.None? ==> action.DoClaim?)
      && (ledger.active.Some? ==>
            && ledger.active.value.path == path && ledger.active.value.ordinal == |ledger.completed| + 1
            && ledger.active.value.review == review)
      && (!action.DoClaim? ==>
            && EventFor(action, review).Some?
            && Step(index, digests, StateOf(ledger), EventFor(action, review).value).State?)
    }

    /** `retry`: the all-blocked attempt is remembered and the batch is only claimed again. */
    method RetryBatch(a: Active, authorized: bool, completion: Option<Completion>) returns (r: Result<Active, string>)
      requires 1 <= a.ordinal <= |index.rows|
      ensures r.Ok? <==>
                && authorized && completion.Some?
                && a.phase == Prepared(digests.completion(completion.value))
                && AllBlocked(index, a, completion.value)
      ensures r.Ok? ==>
                r.value == a.(attempts := a.attempts + [digests.completion(completion.value)], phase := Claimed)
    {
      if !a.phase.Prepared? { return Err("retry requires a prepared active batch"); }
      if !authorized { return Err("retry reason is not authorized"); }
      if completion.None? { return Err("retry requires the current completion manifest"); }
      var c, sha := completion.value, digests.completion(completion.value);
      var rows := index.rows[a.ordinal - 1].rowCount;
      if sha != a.phase.completion || !c.typed || c.processed != rows || c.complete != 0 || c.blocked != rows {
        return Err("retry completion manifest is not an all-blocked read-only attempt");
      }
      return Ok(a.(attempts := a.attempts + [sha], phase := Claimed));
    }

    method PrepareBatch(a: Active, completion: Option<Completion>) returns (r: Result<Active, string>)
      requires 1 <= a.ordinal <= |index.rows|
      ensures r.Ok? <==>
                && completion.Some?
                && a.phase in {Claimed, Prepared(digests.completion(completion.value))}
                && Binds(index, a, completion.value)
      ensures r.Ok? ==> r.value == a.(phase := Prepared(digests.completion(completion.value)))
    {
      if !a.phase.Claimed? && !a.phase.Prepared? { return Err("prepare evidence is out of order"); }
      if completion.None? { return Err("prepared transition requires a completion manifest"); }
      var c, sha := completion.value, digests.completion(completion.value);
      if !c.typed || c.path != a.path || c.ordinal != a.ordinal || c.indexSha != index.sha
         || c.review != a.review || c.processed != index.rows[a.ordinal - 1].rowCount
      {
        return Err("completion manifest does not bind the active batch");
      }
      if a.phase.Prepared? && a.phase.completion != sha {
        return Err("prepared completion manifest identity drifted");
      }
      return Ok(a.(phase := Prepared(sha)));
    }

    /** `released`, `applied` and `verified`. */
    method StageBatch(ledger: Ledger, kind: Kind, evidence: Option<Evidence>) returns (r: Result<Ledger, string>)
      requires ledger.active.Some?
      ensures r.Ok? <==>
                && evidence.Some? && evidence.value.kind == kind
                && StageStep(index, digests, StateOf(ledger), evidence.value).State?
      ensures r.Ok? ==>
                && StateOf(r.value) == StageStep(index, digests, StateOf(ledger), evidence.value)
                && r.value == ledger.(completed := r.value.completed, active := r.value.active)
    {
      hide IsSha;
      if evidence.None? { return Err("unsupported ledger action"); }
      var a, e, sha := ledger.active.value, evidence.value, digests.evidence(evidence.value);
      match kind
      case Release =>
        if !a.phase.Prepared? { return Err("released evidence is out of order"); }
        if e.kind != kind || !EvidenceBinds(index, a, e, a.phase.completion) || !ReleaseOk(e) {
          return Err("released evidence does not bind the active batch");
        }
        return Ok(ledger.(active := Some(a.(phase := Released(a.phase.completion, sha, e.production, e.g3)))));
      case Apply =>
        if !a.phase.Released? { return Err("applied evidence is out of order"); }
        if e.kind != kind || !EvidenceBinds(index, a, e, a.phase.release) || !ApplyOk(e, a.phase) {
          return Err("applied evidence does not bind the active batch");
        }
        return Ok(ledger.(active := Some(a.(phase := Applied(
          a.phase.completion, a.phase.release, a.phase.production, a.phase.g3, sha, e.applyReceipt)))));
      case Verify =>
        if !a.phase.Applied? { return Err("verified evidence is out of order"); }
        if e.kind != kind || !EvidenceBinds(index, a, e, a.phase.apply) || !VerifyOk(e, a.phase) {
          return Err("verified evidence does not bind the active batch");
        }
        var done := Done(a.path, a.ordinal, a.review, a.attempts, a.phase.completion, a.phase.release,
                         a.phase.apply, sha, a.phase.production, a.phase.receipt, e.verifierReceipt);
        return Ok(ledger.(completed := ledger.completed + [done], active := None));
    }

    /** The new ledger of a transition other than a claim. */
    method Transition(ledger: Ledger, action: Action, review: string) returns (r: Result<Ledger, string>)
      requires ledger.active.Some? && 1 <= ledger.active.value.ordinal <= |index.rows| && !action.DoClaim?
      ensures r.Ok? <==>
                && EventFor(action, review).Some?
                && Step(index, digests, StateOf(ledger), EventFor(action, review).value).State?
      ensures r.Ok? ==>
                && StateOf(r.value) == Step(index, digests, StateOf(ledger), EventFor(action, review).value)
                && r.value == ledger.(completed := r.value.completed, active := r.value.active)
    {
      hide StageStep, Binds, AllBlocked;
      match action
      case DoRetry(authorized, completion) =>
        var active := RetryBatch(ledger.active.value, authorized, completion);
        if active.Err? { return Err(active.error); }
        return Ok(ledger.(active := Some(active.value)));
      case DoPrepare(completion) =>
        var active := PrepareBatch(ledger.active.value, completion);
        if active.Err? { return Err(active.error); }
        return Ok(ledger.(active := Some(active.value)));
      case DoStage(kind, evidence) =>
        r := StageBatch(ledger, kind, evidence);
      case DoVerify => return Err("unsupported ledger action");
      case Unsupported => return Err("unsupported ledger action");
    }

    /** `claim`: the next batch becomes the active one; repeating the claim changes nothing. */
    method ClaimBatch(ledger: Ledger, path: string, review: string, crash: bool) returns (r: Result<Ledger, string>)
      requires Valid() && ledger == Current() && IsSha(review) && |ledger.completed| < |index.rows|
      requires path == index.rows[|ledger.completed|].path
      requires At(index, digests, log, |log|) == StateOf(ledger) && (ledger.active.Some? ==> file.Some?)
      modifies `file, `log
      ensures Valid() && old(log) <= log
      ensures r.Ok? <==>
                (ledger.active.Some? ==>
                   && ledger.active.value.path == path && ledger.active.value.ordinal == |ledger.completed| + 1
                   && ledger.active.value.review == review)
      ensures r.Err? ==> file == old(file) && log == old(log)
      ensures r.Ok? && !crash ==> file == Some(r.value)
      ensures r.Ok? && !crash && ledger.active.None? ==> log == old(log) + [Claim(review)]
    {
      hide At, IsSha, Step;
      var next := |ledger.completed| + 1;
      if ledger.active.Some? {
        var a := ledger.active.value;
        if a.path != path || a.ordinal != next || a.review != review {
          return Err("another batch or manifest is already active");
        }
        Rewrite(ledger, crash);
        return Ok(ledger);
      }
      var claimed := ledger.(active := Some(Active(path, next, review, [], Claimed)));
      ClaimSteps(ledger, claimed, review);
      Write(claimed, Claim(review), crash);
      return Ok(claimed);
    }

    /** Every other action works on exactly the active batch and needs what its transition asks for. */
    method AdvanceBatch(ledger: Ledger, action: Action, path: string, review: string, crash: bool)
      returns (r: Result<Ledger, string>)
      requires Valid() && ledger == Current() && !action.DoClaim? && |ledger.completed| < |index.rows|
      requires At(index, digests, log, |log|) == StateOf(ledger)
      modifies `file, `log
      ensures Valid() && old(log) <= log
      ensures r.Ok? <==>
                && ledger.active.Some? && ledger.active.value.path == path
                && ledger.active.value.ordinal == |ledger.completed| + 1 && ledger.active.value.review == review
                && EventFor(action, review).Some?
                && Step(index, digests, StateOf(ledger), EventFor(action, review).value).State?
      ensures r.Err? ==> file == old(file) && log == old(log)
      ensures r.Ok? && !crash ==> file == Some(r.value) && log == old(log) + [EventFor(action, review).value]
    {
      hide At, IsSha, Step, LoadOk, EventFor;
      if ledger.active.None? { return Err("stage transition requires the exact active batch identity"); }
      var a := ledger.active.value;
      if a.path != path || a.ordinal != |ledger.completed| + 1 || a.review != review {
        return Err("stage transition requires the exact active batch identity");
      }
      r := Transition(ledger, action, review);
      if r.Ok? { Write(r.value, EventFor(action, review).value, crash); }
    }

    /** `update_execution_ledger`. */
    method Update(action: Action, path: string, review: string, crash: bool) returns (r: Result<Ledger, string>)
      requires Valid()
      modifies `file, `log
      ensures Valid() && old(log) <= log
      ensures action.DoVerify? ==>
                && file == old(file)
                && (r.Ok? <==> old(Current()).active.None? && |old(Current()).completed| == |index.rows|)
      ensures !action.DoVerify? ==> (r.Ok? <==> Allowed(old(Current()), action, path, review))
      ensures r.Err? ==> file == old(file) && log == old(log)
      ensures r.Ok? && !crash && !action.DoVerify? ==> file == Some(r.value)
      ensures r.Ok? && !crash && !action.DoVerify? && (action.DoClaim? ==> old(Current()).active.None?) ==>
                && EventFor(action, review).Some? && log == old(log) + [EventFor(action, review).value]
    {
      hide At, IsSha, Step, LoadOk, EventFor;
      var ledger := Current();
      WrittenLedgersLoad();
      if !LoadOk(index, ledger) { return Err("execution ledger does not match the frozen batch index"); }
      CurrentState();
      if action.DoVerify? {
        if ledger.active.Some? || |ledger.completed| != index.batchCount {
          return Err("execution ledger is incomplete");
        }
        return Ok(ledger);
      }
      var refusal := CheckNext(ledger, path, review);
      if refusal.Some? { return Err(refusal.value); }
      if action.DoClaim? {
        ClaimEvent(review);
        r := ClaimBatch(ledger, path, review, crash);
        return;
      }
      r := AdvanceBatch(ledger, action, path, review, crash);
    }

    lemma ClaimEvent(review: string)
      ensures EventFor(DoClaim, review) == Some(Claim(review))
    {}

    /** Only the next batch of the index can be worked on. */
    method CheckNext(ledger: Ledger, path: string, review: string) returns (refusal: Option<string>)
      requires IndexOk(index)
      ensures refusal.None? <==>
                && IsSha(review) && |ledger.completed| < |index.rows|
                && path == index.rows[|ledger.completed|].path
    {
      hide IsSha;
      if !IsSha(review) { return Some("review manifest SHA-256 is invalid"); }
      var next := |ledger.completed| + 1;
      if !(1 <= next <= index.batchCount) { return Some("all batches are already complete"); }
      if path != index.rows[next - 1].path { return Some("batch is not the next ordinal in the frozen index"); }
      return None;
    }

    lemma CurrentState()
      requires Valid()
      ensures At(index, digests, log, |log|) == StateOf(Current()) && |Current().completed| <= |index.rows|
      ensures Current().active.Some? ==> file.Some?
    {
      WrittenLedgersLoad();
    }

    lemma ClaimSteps(ledger: Ledger, claimed: Ledger, review: string)
      requires ledger.active.None? && |ledger.completed| < |index.rows| && IsSha(review)
      requires claimed == ledger.(active := Some(Active(
                 index.rows[|ledger.completed|].path, |ledger.completed| + 1, review, [], Claimed)))
      ensures Step(index, digests, StateOf(ledger), Claim(review)) == StateOf(claimed)
    {}
  }
}
