/** The resumable host transfer of one F02 capsule (scripts/f02_transfer.py).

    Everything a crash can leave behind is a `Disk` value: the capsule binding, the attempt
    directories, the promoted package, the transfer receipt and the delivery receipt.  Control
    files are replaced atomically, so each one is either absent or complete.  `crashAt` numbers
    the durable effects of one call; a call stops in front of the effect with that number. */
module F02Transfer {
  import opened Alphabets
  import opened Wrappers

  datatype Identity = Identity(
    container: string, image: string, release: string, exporter: string, manifest: string)

  datatype Capsule = Capsule(observation: string, identity: Identity, uid: nat, metadata: bool)

  /** A package directory: file name to file contents.  A fresh directory is the empty map. */
  type Bundle = map<string, string>

  datatype Summary = Summary(manifest: string, counts: map<string, nat>, bytes: nat)

  datatype Commitment = Commitment(capsule: Capsule, attempt: string)

  datatype Attempt = Attempt(invalid: bool, commit: Option<Commitment>, stage: Option<Bundle>)

  datatype Receipt = Receipt(capsule: Capsule, attempt: string, summary: Summary, verifiedAt: int)

  datatype Delivery = Delivery(capsule: Capsule, receivedAt: int)

  /** `copies` counts how often the adapter was asked to copy; nothing on disk records it. */
  datatype Disk = Disk(
    binding: Option<Capsule>, attempts: map<string, Attempt>, final: Option<Bundle>,
    receipt: Option<Receipt>, delivery: Option<Delivery>, copies: nat)

  const EmptyDisk := Disk(None, map[], None, None, None, 0)

  datatype Probe = Raises | SourceLost | Reported(complete: bool, identity: Identity, uid: nat)

  /** The replies of the outside world to one call: where it crashes, what the adapter answers,
      which deadlines are missed and what the copy leaves in the stage directory. */
  datatype Env = Env(
    crashAt: nat, firstProbe: Probe, firstProbeLate: bool, free: nat,
    copied: Bundle, copyRaises: bool, copyLate: bool, postProbe: Probe, postProbeLate: bool,
    alarm: bool, verifyLate: bool, now: int)

  const Uncrashed: nat := 8

  datatype State =
    | HostVerified | InvalidPackage | TransferUnknown | SourceGone | CaptureUnknown | NotTransferred

  datatype Outcome = Crashed | Outcome(state: State, code: string)

  /** `verify_bundle` for the capsule: the summary, or the code it refuses with. */
  type Verifier = Bundle -> Result<Summary, string>

  const ControlMax: nat := 64 * 1024
  const MetadataMax: nat := 128 * 1024 * 1024
  const ContentMax: nat := 30 * 1024 * 1024

  function SpaceNeeded(c: Capsule): nat {
    (if c.metadata then MetadataMax else ContentMax + 2 * ControlMax) * 2 + 4 * ControlMax
  }

  predicate AlphaNumeric(ch: char) {
    'a' <= ch <= 'z' || 'A' <= ch <= 'Z' || '0' <= ch <= '9'
  }

  /** A name starts with a letter or digit and goes on with letters, digits, `_` and `-`. */
  lemma ValidNameMeans(name: string)
    ensures ValidName(name) <==>
              && name != "" && |name| <= 80 && name[0] in Letters + Capitals + Digits
              && forall ch | ch in name :: ch in Letters + Capitals + Digits || ch in {'_', '-'}
  {
    hide Letters, Capitals, Digits;
    forall ch ensures AlphaNumeric(ch) <==> ch in Letters + Capitals + Digits {
      AlphaNumericsAre(ch);
    }
  }

  predicate ValidName(name: string) {
    && 1 <= |name| <= 80
    && AlphaNumeric(name[0])
    && forall i | 0 <= i < |name| :: AlphaNumeric(name[i]) || name[i] == '_' || name[i] == '-'
  }

  /** How `transfer` reports a refusal code. */
  function Refused(code: string): Outcome {
    if code == "source_not_complete" then Outcome(CaptureUnknown, code)
    else if code in {"busy", "copy_timeout", "probe_timeout", "verify_timeout",
                     "file_unavailable", "directory_unavailable"}
    then Outcome(TransferUnknown, code)
    else Outcome(InvalidPackage, code)
  }

  /** The refusal of `source_matches`, if any, for a probe reply that is not a lost source. */
  function SourceMismatch(c: Capsule, p: Probe): Option<string>
    requires p.Reported?
  {
    if !p.complete then Some("source_not_complete")
    else if p.identity != c.identity || p.uid != c.uid then Some("source_identity_drift")
    else None
  }

  /** `verify_bundle` under its wall-clock alarm. */
  function VerifyUnderAlarm(verify: Verifier, b: Bundle, alarm: bool): Result<Summary, string> {
    if alarm then Err("verify_timeout") else verify(b)
  }

  ghost predicate Promotable(c: Capsule, a: string, attempt: Attempt) {
    !attempt.invalid && attempt.commit == Some(Commitment(c, a))
  }

  /** A commitment is the attempt's own, and only a committed attempt has a stage. */
  ghost predicate Regular(c: Capsule, a: string, attempt: Attempt) {
    && (attempt.commit.Some? ==> attempt.commit.value == Commitment(c, a))
    && (attempt.stage.Some? ==> attempt.commit.Some?)
  }

  ghost predicate ReceiptFits(c: Capsule, verify: Verifier, d: Disk, r: Receipt) {
    && d.final.Some?
    && r.capsule == c
    && verify(d.final.value) == Ok(r.summary)
    && r.attempt in d.attempts
    && Promotable(c, r.attempt, d.attempts[r.attempt])
  }

  /** What holds of every disk that transfers of `c` can produce. */
  ghost predicate Inv(c: Capsule, verify: Verifier, d: Disk) {
    && (d.binding.Some? ==> d.binding.value == c)
    && (forall a, b | a in d.attempts && b in d.attempts :: a == b)
    && (forall a | a in d.attempts :: ValidName(a))
    && (forall a | a in d.attempts :: Regular(c, a, d.attempts[a]))
    && d.copies <= 1
    && (d.copies == 1 ==> exists a | a in d.attempts :: d.attempts[a].commit.Some?)
    && (d.final.Some? ==>
          && verify(d.final.value).Ok?
          && exists a | a in d.attempts :: Promotable(c, a, d.attempts[a]))
    && (d.receipt.Some? ==> ReceiptFits(c, verify, d, d.receipt.value) && d.binding == Some(c))
    && (d.delivery.Some? ==> d.receipt.Some? && d.delivery.value.capsule == c)
  }

  /** What one `transfer` call under the lock, crashed or not, may have done to the disk. */
  ghost predicate CallEffect(c: Capsule, verify: Verifier, attemptId: string, d: Disk, d': Disk) {
    && d'.delivery == d.delivery
    && (d'.binding == d.binding || (d.binding.None? && d'.binding == Some(c)))
    && (d'.attempts.Keys == d.attempts.Keys
        || (d.attempts == map[] && d.final.None? && ValidName(attemptId)
            && d'.attempts.Keys == {attemptId}))
    && (forall a | a in d'.attempts :: AttemptEffect(c, a, d, d'))
    && (d'.copies == d.copies || CopyEffect(c, d, d'))
    && (d.final.Some? ==> d'.final == d.final && d'.attempts == d.attempts && d'.copies == d.copies)
    && (d.final.None? && d'.final.Some? ==>
          && verify(d'.final.value).Ok?
          && exists a :: d'.attempts.Keys == {a} && Promotable(c, a, d'.attempts[a]))
    && (d.receipt.Some? ==> d'.receipt == d.receipt)
    && (d.receipt.None? && d'.receipt.Some? ==>
          ReceiptFits(c, verify, d', d'.receipt.value) && d'.binding == Some(c))
  }

  /** An attempt's invalid mark and commitment are only ever added, never changed. */
  ghost predicate AttemptEffect(c: Capsule, a: string, d: Disk, d': Disk)
    requires a in d'.attempts
  {
    var before := if a in d.attempts then d.attempts[a] else Attempt(false, None, None);
    var after := d'.attempts[a];
    && (before.invalid ==> after == before)
    && (before.commit.Some? ==> after.commit == before.commit)
    && (before.commit.None? && after.commit.Some? ==> after.commit.value == Commitment(c, a))
    && (before.stage.None? && after.stage.Some? ==> after.commit.Some? && before.commit.None?)
  }

  /** A copy starts only after the commitment of the single, so far uncommitted attempt. */
  ghost predicate CopyEffect(c: Capsule, d: Disk, d': Disk) {
    && d'.copies == d.copies + 1
    && d.final.None?
    && exists a :: d'.attempts.Keys == {a} && d'.attempts[a].commit.Some?
                   && (a in d.attempts ==> d.attempts[a].commit.None? && d.attempts[a].stage.None?
                                           && !d.attempts[a].invalid)
  }

  /** What one authenticated delivery acknowledgement may have done to the disk. */
  ghost predicate DeliveryEffect(c: Capsule, verify: Verifier, d: Disk, d': Disk) {
    || d' == d
    || (&& d.delivery.None? && Inspect(c, verify, d) == Accepted
        && d'.delivery.Some? && d'.delivery.value.capsule == c
        && d' == d.(delivery := d'.delivery))
  }

  /** A copy process that outlived a crashed call keeps writing into the stage directory. */
  ghost predicate ResidualWrite(d: Disk, d': Disk) {
    exists a, b: Bundle :: a in d.attempts && d.attempts[a].stage.Some?
      && d' == d.(attempts := d.attempts[a := d.attempts[a].(stage := Some(b))])
  }

  const Accepted := Outcome(HostVerified, "")

  /** `inspect_host`: receipt, commitment and package have to agree.  A store without the
      named attempt directory is refused like every other missing file. */
  function Inspect(c: Capsule, verify: Verifier, d: Disk): Outcome {
    if d.binding.None? then Refused("file_unavailable")
    else if d.binding.value != c then Refused("capsule_conflict")
    else if d.receipt.None? then Refused("file_unavailable")
    else
      var r := d.receipt.value;
      if !ValidName(r.attempt) then Refused("invalid_receipt_attempt")
      else if r.attempt !in d.attempts then Refused("directory_unavailable")
      else if d.attempts[r.attempt].invalid then Refused("prior_attempt_invalid")
      else if d.attempts[r.attempt].commit.None? then Refused("file_unavailable")
      else if d.attempts[r.attempt].commit.value != Commitment(c, r.attempt)
      then Refused("commitment_mismatch")
      else if d.final.None? then Refused("directory_unavailable")
      else
        match verify(d.final.value)
        case Err(code) => Refused(code)
        case Ok(summary) =>
          if r.capsule != c || r.summary != summary then Refused("transfer_receipt_conflict")
          else Accepted
  }

  /** Inspection accepts a store, whoever wrote it, exactly if a receipt of this capsule names a valid
      attempt with the capsule's own commitment and describes the package that verifies now. */
  lemma InspectionAccepts(c: Capsule, verify: Verifier, d: Disk)
    ensures Inspect(c, verify, d) == Outcome(HostVerified, "") <==>
              && d.binding == Some(c) && d.receipt.Some? && d.final.Some?
              && d.receipt.value.capsule == c && verify(d.final.value) == Ok(d.receipt.value.summary)
              && ValidName(d.receipt.value.attempt) && d.receipt.value.attempt in d.attempts
              && !d.attempts[d.receipt.value.attempt].invalid
              && d.attempts[d.receipt.value.attempt].commit == Some(Commitment(c, d.receipt.value.attempt))
  {
    hide ValidName;
    if d.binding == Some(c) && d.receipt.Some? && d.final.Some? && d.receipt.value.attempt in d.attempts {
      match verify(d.final.value)
      case Ok(summary) =>
      case Err(code) =>
    }
  }

  /** The refusal of one adapter probe, if any; a lost source is no refusal. */
  function ProbeRefusal(c: Capsule, p: Probe, late: bool): Option<Outcome> {
    if p.Raises? then Some(Outcome(TransferUnknown, "operation_outcome_unknown"))
    else if late then Some(Refused("probe_timeout"))
    else if p.SourceLost? || SourceMismatch(c, p).None? then None
    else Some(Refused(SourceMismatch(c, p).value))
  }

  /** The decision table of an uncrashed call on a reachable disk. */
  function Verdict(c: Capsule, verify: Verifier, final: Option<Bundle>, attempt: Attempt, env: Env): Outcome {
    if final.Some? then VerifiedOr(VerifyUnderAlarm(verify, final.value, env.alarm), env)
    else if attempt.invalid then Outcome(InvalidPackage, "prior_attempt_invalid")
    else if ProbeRefusal(c, env.firstProbe, env.firstProbeLate).Some?
    then ProbeRefusal(c, env.firstProbe, env.firstProbeLate).value
    else if attempt.stage.Some? then
      if VerifyUnderAlarm(verify, attempt.stage.value, env.alarm).Err?
      then Outcome(if env.firstProbe.SourceLost? then SourceGone else TransferUnknown, "stage_not_complete")
      else VerifiedOr(VerifyUnderAlarm(verify, attempt.stage.value, env.alarm), env)
    else if env.firstProbe.SourceLost? then Outcome(SourceGone, "no_verified_host_package")
    else if attempt.commit.Some? then Outcome(TransferUnknown, "committed_copy_outcome_unknown")
    else if env.free < SpaceNeeded(c) then Outcome(NotTransferred, "insufficient_space")
    else if CopyRefusal(c, verify, env).Some? then CopyRefusal(c, verify, env).value
    else Accepted
  }

  function VerifiedOr(r: Result<Summary, string>, env: Env): Outcome {
    match r
    case Err(code) => Refused(code)
    case Ok(_) => if env.verifyLate then Refused("verify_timeout") else Accepted
  }

  /** The refusal that follows a copy, if any. */
  function CopyRefusal(c: Capsule, verify: Verifier, env: Env): Option<Outcome> {
    if env.copyRaises then Some(Outcome(TransferUnknown, "operation_outcome_unknown"))
    else if env.copyLate then Some(Refused("copy_timeout"))
    else if ProbeRefusal(c, env.postProbe, env.postProbeLate).Some?
    then ProbeRefusal(c, env.postProbe, env.postProbeLate)
    else if VerifiedOr(VerifyUnderAlarm(verify, env.copied, env.alarm), env) == Accepted then None
    else Some(VerifiedOr(VerifyUnderAlarm(verify, env.copied, env.alarm), env))
  }

  /** Exactly when an uncrashed call on a reachable disk asks the adapter to copy. */
  predicate StartsCopy(c: Capsule, final: Option<Bundle>, attempt: Attempt, env: Env) {
    && final.None? && attempt == Attempt(false, None, None)
    && ProbeRefusal(c, env.firstProbe, env.firstProbeLate).None?
    && env.firstProbe.Reported?
    && env.free >= SpaceNeeded(c)
  }

  /** A drifted source or a package that fails verification after the copy marks the attempt. */
  predicate MarksInvalid(c: Capsule, verify: Verifier, env: Env) {
    && !env.copyRaises && !env.copyLate && !env.postProbe.Raises? && !env.postProbeLate
    && (|| (env.postProbe.Reported? && SourceMismatch(c, env.postProbe).Some?)
        || VerifyUnderAlarm(verify, env.copied, env.alarm).Err?)
  }

  /** The attempt directory after an uncrashed call. */
  function NextAttempt(c: Capsule, verify: Verifier, final: Option<Bundle>, a: string, attempt: Attempt,
                       env: Env): Attempt
  {
    var commit := if StartsCopy(c, final, attempt, env) then Some(Commitment(c, a)) else attempt.commit;
    if final.Some? then attempt
    else if Verdict(c, verify, final, attempt, env) == Accepted then Attempt(false, commit, None)
    else if StartsCopy(c, final, attempt, env)
    then Attempt(MarksInvalid(c, verify, env), commit, Some(env.copied))
    else attempt
  }

  /** The full effect of an uncrashed call on a reachable disk. */
  ghost predicate Settled(c: Capsule, verify: Verifier, d: Disk, attempt: Attempt, env: Env,
                          o: Outcome, d': Disk)
  {
    && o == Verdict(c, verify, d.final, attempt, env)
    && d'.copies == d.copies + (if StartsCopy(c, d.final, attempt, env) then 1 else 0)
    && (forall a | a in d'.attempts ::
          d'.attempts[a] == NextAttempt(c, verify, d.final, a, attempt, env))
    && (d'.final == if d.final.Some? || o != Accepted then d.final
                    else if StartsCopy(c, d.final, attempt, env) then Some(env.copied)
                    else attempt.stage)
  }

  // ---------------------------------------------------------------- the answers, one by one

  /** The reply of a finished capture by exactly the capsule's container. */
  predicate Own(c: Capsule, p: Probe) {
    p == Reported(true, c.identity, c.uid)
  }

  /** A reply in time that lets the call go on: the source is the capsule's own, or lost. */
  predicate Usable(c: Capsule, p: Probe, late: bool) {
    !late && (Own(c, p) || p.SourceLost?)
  }

  /** What the other replies are answered with. */
  ghost predicate ProbeAnswer(c: Capsule, p: Probe, late: bool, o: Outcome) {
    && (p.Raises? ==> o == Outcome(TransferUnknown, "operation_outcome_unknown"))
    && (late && !p.Raises? ==> o == Outcome(TransferUnknown, "probe_timeout"))
    && (p.Reported? && !late && !p.complete ==> o == Outcome(CaptureUnknown, "source_not_complete"))
    && (p.Reported? && !late && p.complete && !Own(c, p) ==> o == Outcome(InvalidPackage, "source_identity_drift"))
  }

  /** What is free on the disk before a copy of this kind of package starts. */
  function FreeNeeded(c: Capsule): nat {
    if c.metadata then 268_697_600 else 63_438_848
  }

  /** What verification of `b` comes to when it is not accepted. */
  ghost predicate VerifyAnswer(verify: Verifier, b: Bundle, env: Env, o: Outcome) {
    && (env.alarm ==> o == Outcome(TransferUnknown, "verify_timeout"))
    && (!env.alarm && verify(b).Err? ==>
          && o.Outcome? && o.code == verify(b).error
          && o.state == if o.code == "source_not_complete" then CaptureUnknown
                        else if o.code in {"busy", "copy_timeout", "probe_timeout", "verify_timeout",
                                           "file_unavailable", "directory_unavailable"}
                        then TransferUnknown else InvalidPackage)
    && (!env.alarm && verify(b).Ok? && env.verifyLate ==> o == Outcome(TransferUnknown, "verify_timeout"))
    && (!env.alarm && verify(b).Ok? && !env.verifyLate ==> o == Outcome(HostVerified, ""))
  }

  /** A call that copies: the answer, and whether the attempt is invalid for good. */
  ghost predicate CopyAnswer(c: Capsule, verify: Verifier, env: Env, o: Outcome, invalid: bool) {
    && (env.copyRaises ==> o == Outcome(TransferUnknown, "operation_outcome_unknown") && !invalid)
    && (!env.copyRaises && env.copyLate ==> o == Outcome(TransferUnknown, "copy_timeout") && !invalid)
    && (!env.copyRaises && !env.copyLate && !Usable(c, env.postProbe, env.postProbeLate) ==>
          && ProbeAnswer(c, env.postProbe, env.postProbeLate, o)
          && (invalid <==> env.postProbe.Reported? && !env.postProbeLate))
    && (!env.copyRaises && !env.copyLate && Usable(c, env.postProbe, env.postProbeLate) ==>
          && VerifyAnswer(verify, env.copied, env, o)
          && (invalid <==> env.alarm || verify(env.copied).Err?))
  }

  /** A call without a promoted package, on an attempt that is not invalid. */
  ghost predicate WorkAnswer(c: Capsule, verify: Verifier, attempt: Attempt, env: Env, o: Outcome, copied: bool,
                             invalid: bool)
  {
    var usable, lost := Usable(c, env.firstProbe, env.firstProbeLate), env.firstProbe.SourceLost?;
    && (copied <==> Own(c, env.firstProbe) && !env.firstProbeLate && attempt == Attempt(false, None, None)
                    && env.free >= FreeNeeded(c))
    && (!copied ==> !invalid)
    && (copied ==> CopyAnswer(c, verify, env, o, invalid))
    && (!usable ==> ProbeAnswer(c, env.firstProbe, env.firstProbeLate, o))
    && (usable && attempt.stage.Some? && (env.alarm || verify(attempt.stage.value).Err?) ==>
          o == Outcome(if lost then SourceGone else TransferUnknown, "stage_not_complete"))
    && (usable && attempt.stage.Some? && !env.alarm && verify(attempt.stage.value).Ok? ==>
          VerifyAnswer(verify, attempt.stage.value, env, o))
    && (usable && lost && attempt.stage.None? ==> o == Outcome(SourceGone, "no_verified_host_package"))
    && (usable && !lost && attempt.stage.None? && attempt.commit.Some? ==>
          o == Outcome(TransferUnknown, "committed_copy_outcome_unknown"))
    && (usable && !lost && attempt.stage.None? && attempt.commit.None? && !copied ==>
          o == Outcome(NotTransferred, "insufficient_space"))
  }

  /** The answer of an uncrashed call on a reachable store, and the state that it leaves. */
  ghost predicate Answers(c: Capsule, verify: Verifier, d: Disk, attempt: Attempt, env: Env, o: Outcome, d': Disk) {
    && d'.copies <= d.copies + 1
    && (d.final.Some? ==> VerifyAnswer(verify, d.final.value, env, o) && d'.final == d.final && d'.copies == d.copies)
    && (d.final.None? && attempt.invalid ==>
          o == Outcome(InvalidPackage, "prior_attempt_invalid") && d'.final.None? && d'.copies == d.copies)
    && (d.final.None? && !attempt.invalid ==>
          && d'.attempts != map[]
          && (forall a | a in d'.attempts ::
                WorkAnswer(c, verify, attempt, env, o, d'.copies > d.copies, d'.attempts[a].invalid))
          && d'.final == if o != Outcome(HostVerified, "") then None
                         else if d'.copies > d.copies then Some(env.copied) else attempt.stage)
  }

  /** What any call, crashed or not, has to show for a copy and for a promotion. */
  ghost predicate Justified(c: Capsule, verify: Verifier, env: Env, d: Disk, d': Disk) {
    && (d'.copies > d.copies ==>
          Own(c, env.firstProbe) && !env.firstProbeLate && env.free >= FreeNeeded(c))
    && (d.final.None? && d'.final.Some? ==>
          && Usable(c, env.firstProbe, env.firstProbeLate)
          && !env.alarm && !env.verifyLate && verify(d'.final.value).Ok?
          && (d'.copies > d.copies ==>
                && !env.copyRaises && !env.copyLate && Usable(c, env.postProbe, env.postProbeLate)
                && d'.final == Some(env.copied))
          && (d'.copies == d.copies ==>
                exists a :: a in d.attempts && d.attempts[a].stage == d'.final && Promotable(c, a, d.attempts[a])))
  }

  lemma ProbeRefusalAnswers(c: Capsule, p: Probe, late: bool)
    ensures ProbeRefusal(c, p, late).None? <==> Usable(c, p, late)
    ensures ProbeRefusal(c, p, late).Some? ==> ProbeAnswer(c, p, late, ProbeRefusal(c, p, late).value)
  {}

  lemma VerifiedOrAnswers(verify: Verifier, b: Bundle, env: Env)
    ensures VerifyAnswer(verify, b, env, VerifiedOr(VerifyUnderAlarm(verify, b, env.alarm), env))
    ensures VerifiedOr(VerifyUnderAlarm(verify, b, env.alarm), env) == Accepted <==>
              !env.alarm && verify(b).Ok? && !env.verifyLate
  {}

  lemma CopyRefusalAnswers(c: Capsule, verify: Verifier, env: Env)
    ensures CopyAnswer(c, verify, env, if CopyRefusal(c, verify, env).None? then Accepted
                                       else CopyRefusal(c, verify, env).value, MarksInvalid(c, verify, env))
  {
    hide VerifyAnswer;
    ProbeRefusalAnswers(c, env.postProbe, env.postProbeLate);
    VerifiedOrAnswers(verify, env.copied, env);
  }

  /** The decision table of a call, spelled out. */
  lemma SettledAnswers(c: Capsule, verify: Verifier, d: Disk, attempt: Attempt, env: Env, o: Outcome, d': Disk)
    requires Settled(c, verify, d, attempt, env, o, d') && d'.copies <= d.copies + 1
    requires d.final.None? ==> d'.attempts != map[]
    requires attempt.stage.Some? ==> attempt.commit.Some?
    ensures Answers(c, verify, d, attempt, env, o, d')
  {
    hide VerifyAnswer, CopyAnswer, ProbeAnswer;
    ProbeRefusalAnswers(c, env.firstProbe, env.firstProbeLate);
    CopyRefusalAnswers(c, verify, env);
    if d.final.Some? { VerifiedOrAnswers(verify, d.final.value, env); }
    if attempt.stage.Some? { VerifiedOrAnswers(verify, attempt.stage.value, env); }
  }

  lemma CopiesAtMostOnce(c: Capsule, verify: Verifier, attemptId: string, d: Disk, d': Disk)
    requires CallEffect(c, verify, attemptId, d, d')
    ensures d'.copies <= d.copies + 1
  {}

  /** The directory the next call works in: the only existing attempt, or a fresh one. */
  ghost function CurrentAttempt(d: Disk): Attempt
  {
    if d.attempts == map[] then Attempt(false, None, None)
    else var a :| a in d.attempts; d.attempts[a]
  }

  lemma AtMostOne<T>(s: set<T>)
    ensures (forall a, b | a in s && b in s :: a == b) ==> |s| <= 1
  {
    if s != {} {
      var a :| a in s;
      if forall b | b in s :: a == b { assert s == {a}; }
    }
  }

  /** What working on the single attempt leaves of the package and the receipt. */
  ghost predicate Promoted(c: Capsule, verify: Verifier, active: string, before: Option<Receipt>, d: Disk) {
    && (d.final.Some? ==>
          && verify(d.final.value).Ok?
          && active in d.attempts && Promotable(c, active, d.attempts[active]))
    && (before.Some? ==> d.receipt == before)
    && (before.None? && d.receipt.Some? ==> ReceiptFits(c, verify, d, d.receipt.value))
  }

  /** `d1` is `d0` with the binding written and, if there was none, a fresh attempt directory. */
  ghost predicate Opened(c: Capsule, d0: Disk, d1: Disk, active: string) {
    && d0.final.None? && d0.binding == Some(c)
    && d1.attempts.Keys == {active}
    && (d0.attempts == map[] || d1.attempts == d0.attempts)
    && (d0.attempts == map[] ==> d1.attempts[active] == Attempt(false, None, None))
    && d1 == d0.(attempts := d1.attempts)
  }

  lemma SingleAttempt(c: Capsule, verify: Verifier, d0: Disk, d1: Disk, active: string)
    requires Opened(c, d0, d1, active) && ValidName(active)
    ensures Inv(c, verify, d0) ==>
              && CurrentAttempt(d0) == d1.attempts[active] && Regular(c, active, d1.attempts[active])
              && d0.receipt.None?
  {}

  lemma BindingOnly(c: Capsule, verify: Verifier, attemptId: string, d0: Disk, d1: Disk)
    requires d0.binding.None? || d0.binding == Some(c)
    requires d1 == d0.(binding := Some(c))
    ensures Inv(c, verify, d0) ==> Inv(c, verify, d1)
    ensures forall d2 | CallEffect(c, verify, attemptId, d1, d2) && d2.binding == Some(c) ::
              CallEffect(c, verify, attemptId, d0, d2)
  {
    forall d2 | CallEffect(c, verify, attemptId, d1, d2) && d2.binding == Some(c)
      ensures CallEffect(c, verify, attemptId, d0, d2)
    {
      assert forall a | a in d2.attempts :: AttemptEffect(c, a, d1, d2);
    }
  }

  lemma NothingDone(c: Capsule, verify: Verifier, attemptId: string, env: Env, d: Disk)
    ensures CallEffect(c, verify, attemptId, d, d) && Justified(c, verify, env, d, d)
  {}

  lemma InvBinds(c: Capsule, verify: Verifier, d: Disk)
    ensures Inv(c, verify, d) && d.binding.Some? ==> d.binding.value == c
  {}

  /** A call on `d0` is the call on `d1`, which differs by the binding at most. */
  lemma BoundCall(c: Capsule, verify: Verifier, attemptId: string, env: Env, d0: Disk, d1: Disk, o: Outcome, d2: Disk)
    requires d1 == d0.(binding := Some(c)) && (d0.binding.None? || d0.binding == Some(c)) && d2.binding == Some(c)
    requires CallEffect(c, verify, attemptId, d1, d2) && Justified(c, verify, env, d1, d2)
    requires Inv(c, verify, d1) && env.crashAt >= Uncrashed ==>
               && Settled(c, verify, d1, CurrentAttempt(d1), env, o, d2)
               && (d1.final.None? ==> d2.attempts != map[])
    ensures CallEffect(c, verify, attemptId, d0, d2) && Justified(c, verify, env, d0, d2)
    ensures Inv(c, verify, d0) && env.crashAt >= Uncrashed ==>
              && Settled(c, verify, d0, CurrentAttempt(d0), env, o, d2)
              && Answers(c, verify, d0, CurrentAttempt(d0), env, o, d2)
  {
    BindingOnly(c, verify, attemptId, d0, d1);
    hide Answers, CallEffect, Verdict, NextAttempt, StartsCopy;
    CopiesAtMostOnce(c, verify, attemptId, d0, d2);
    if Inv(c, verify, d0) && env.crashAt >= Uncrashed {
      SameAttempt(d0, d1);
      RegularAttempt(c, verify, d0);
      SettledAnswers(c, verify, d0, CurrentAttempt(d0), env, o, d2);
    }
  }

  lemma SameAttempt(d0: Disk, d1: Disk)
    requires d0.attempts == d1.attempts && forall a, b | a in d0.attempts && b in d0.attempts :: a == b
    ensures CurrentAttempt(d0) == CurrentAttempt(d1)
  {}

  lemma RegularAttempt(c: Capsule, verify: Verifier, d: Disk)
    requires Inv(c, verify, d)
    ensures forall a, b | a in d.attempts && b in d.attempts :: a == b
    ensures CurrentAttempt(d).stage.Some? ==> CurrentAttempt(d).commit.Some?
  {}

  lemma WorkIsCall(c: Capsule, verify: Verifier, attemptId: string, active: string, env: Env,
                   d0: Disk, d1: Disk, o: Outcome, d2: Disk)
    requires Opened(c, d0, d1, active) && !d1.attempts[active].invalid
    requires d0.attempts == map[] ==> active == attemptId && ValidName(active)
    requires d2.binding == d1.binding && d2.delivery == d1.delivery && d2.attempts.Keys == {active}
    requires AttemptEffect(c, active, d1, d2)
    requires d2.copies == d1.copies || CopyEffect(c, d1, d2)
    requires Promoted(c, verify, active, d1.receipt, d2) && Justified(c, verify, env, d1, d2)
    requires Regular(c, active, d1.attempts[active]) && d1.receipt.None? && env.crashAt >= Uncrashed ==>
               Settled(c, verify, d1, d1.attempts[active], env, o, d2)
    ensures CallEffect(c, verify, attemptId, d0, d2) && Justified(c, verify, env, d0, d2)
    ensures Inv(c, verify, d0) && env.crashAt >= Uncrashed ==>
              Settled(c, verify, d0, CurrentAttempt(d0), env, o, d2)
  {
    hide Verdict, NextAttempt, StartsCopy, Settled;
    WorkHasEffect(c, verify, attemptId, active, d0, d1, d2);
    if Inv(c, verify, d0) && env.crashAt >= Uncrashed {
      SingleAttempt(c, verify, d0, d1, active);
      SettledFrom(c, verify, d0, d1, d1.attempts[active], env, o, d2);
    }
  }

  lemma SettledFrom(c: Capsule, verify: Verifier, d0: Disk, d1: Disk, attempt: Attempt, env: Env, o: Outcome, d2: Disk)
    requires d0.final == d1.final && d0.copies == d1.copies && Settled(c, verify, d1, attempt, env, o, d2)
    ensures Settled(c, verify, d0, attempt, env, o, d2)
  {
    hide Verdict, NextAttempt, StartsCopy;
  }

  lemma WorkHasEffect(c: Capsule, verify: Verifier, attemptId: string, active: string, d0: Disk, d1: Disk, d2: Disk)
    requires Opened(c, d0, d1, active) && !d1.attempts[active].invalid
    requires d0.attempts == map[] ==> active == attemptId && ValidName(active)
    requires d2.binding == d1.binding && d2.delivery == d1.delivery && d2.attempts.Keys == {active}
    requires AttemptEffect(c, active, d1, d2)
    requires d2.copies == d1.copies || CopyEffect(c, d1, d2)
    requires Promoted(c, verify, active, d1.receipt, d2)
    ensures CallEffect(c, verify, attemptId, d0, d2)
  {
    assert AttemptEffect(c, active, d0, d2);
    if d2.copies != d1.copies { assert CopyEffect(c, d0, d2); }
  }

  /** A call that finds the only attempt invalid changes nothing. */
  lemma PriorInvalid(c: Capsule, verify: Verifier, attemptId: string, active: string, env: Env, d0: Disk, d1: Disk)
    requires Opened(c, d0, d1, active) && d1.attempts[active].invalid && ValidName(active)
    ensures d1 == d0
    ensures CallEffect(c, verify, attemptId, d0, d1) && Justified(c, verify, env, d0, d1)
    ensures Inv(c, verify, d0) ==>
              Settled(c, verify, d0, CurrentAttempt(d0), env, Outcome(InvalidPackage, "prior_attempt_invalid"), d1)
  {
    SingleAttempt(c, verify, d0, d1, active);
  }

  class HostStore {
    const capsule: Capsule
    const verify: Verifier
    var binding: Option<Capsule>
    var attempts: map<string, Attempt>
    var final: Option<Bundle>
    var receipt: Option<Receipt>
    var delivery: Option<Delivery>
    ghost var copies: nat

    ghost function Snapshot(): Disk
      reads this
    {
      Disk(binding, attempts, final, receipt, delivery, copies)
    }

    constructor (capsule: Capsule, verify: Verifier)
      ensures this.capsule == capsule && this.verify == verify
      ensures Snapshot() == EmptyDisk
    {
      this.capsule, this.verify := capsule, verify;
      binding, attempts, final, receipt, delivery, copies := None, map[], None, None, None, 0;
    }

    /** `transfer` for a valid capsule under the artifact lock. */
    method Transfer(attemptId: string, env: Env) returns (o: Outcome)
      modifies this
      ensures CallEffect(capsule, verify, attemptId, old(Snapshot()), Snapshot())
      ensures Justified(capsule, verify, env, old(Snapshot()), Snapshot())
      ensures o == Accepted ==> final.Some? && receipt.Some?
      ensures Inv(capsule, verify, old(Snapshot())) && env.crashAt >= Uncrashed && ValidName(attemptId) ==>
                && Settled(capsule, verify, old(Snapshot()), CurrentAttempt(old(Snapshot())), env, o, Snapshot())
                && Answers(capsule, verify, old(Snapshot()), CurrentAttempt(old(Snapshot())), env, o, Snapshot())
    {
      hide CallEffect, Justified, Settled, Answers, Inv, CurrentAttempt;
      if !ValidName(attemptId) {
        NothingDone(capsule, verify, attemptId, env, Snapshot());
        return Refused("invalid_attempt");
      }
      if binding.Some? {
        if binding.value != capsule {
          NothingDone(capsule, verify, attemptId, env, Snapshot());
          InvBinds(capsule, verify, Snapshot());
          return Refused("capsule_conflict");
        }
      } else {
        if env.crashAt == 0 {
          NothingDone(capsule, verify, attemptId, env, Snapshot());
          return Crashed;
        }
        binding := Some(capsule);
      }
      ghost var bound := Snapshot();
      BindingOnly(capsule, verify, attemptId, old(Snapshot()), bound);
      o := TransferBound(attemptId, env);
      BoundCall(capsule, verify, attemptId, env, old(Snapshot()), bound, o, Snapshot());
    }

    /** The part of `transfer` that follows the capsule binding. */
    method TransferBound(attemptId: string, env: Env) returns (o: Outcome)
      requires ValidName(attemptId) && binding == Some(capsule)
      modifies `attempts, `final, `receipt, `copies
      ensures CallEffect(capsule, verify, attemptId, old(Snapshot()), Snapshot())
      ensures Justified(capsule, verify, env, old(Snapshot()), Snapshot())
      ensures o == Accepted ==> final.Some? && receipt.Some?
      ensures Inv(capsule, verify, old(Snapshot())) && env.crashAt >= Uncrashed ==>
                Settled(capsule, verify, old(Snapshot()), CurrentAttempt(old(Snapshot())), env, o, Snapshot())
      ensures Inv(capsule, verify, old(Snapshot())) && env.crashAt >= Uncrashed && old(final).None? ==>
                attempts != map[]
    {
      if final.Some? {
        o := ResumeFinal(env);
      } else {
        o := FindPackage(attemptId, env);
      }
    }

    /** The part of `transfer` that looks for a package to promote. */
    method FindPackage(attemptId: string, env: Env) returns (o: Outcome)
      requires ValidName(attemptId) && binding == Some(capsule) && final.None?
      modifies `attempts, `final, `receipt, `copies
      ensures CallEffect(capsule, verify, attemptId, old(Snapshot()), Snapshot())
      ensures Justified(capsule, verify, env, old(Snapshot()), Snapshot())
      ensures o == Accepted ==> final.Some? && receipt.Some?
      ensures Inv(capsule, verify, old(Snapshot())) && env.crashAt >= Uncrashed ==>
                Settled(capsule, verify, old(Snapshot()), CurrentAttempt(old(Snapshot())), env, o, Snapshot())
      ensures Inv(capsule, verify, old(Snapshot())) && env.crashAt >= Uncrashed && old(final).None? ==>
                attempts != map[]
    {
      hide CallEffect, Justified, Settled, Promoted;
      NothingDone(capsule, verify, attemptId, env, Snapshot());
      var current := OpenAttempt(attemptId, env);
      if current.Err? { return current.error; }
      var active := current.value;
      ghost var d0, d1 := old(Snapshot()), Snapshot();
      SingleAttempt(capsule, verify, d0, d1, active);
      if attempts[active].invalid {
        PriorInvalid(capsule, verify, attemptId, active, env, d0, d1);
        return Outcome(InvalidPackage, "prior_attempt_invalid");
      }
      hide Opened, Inv, AttemptEffect, CopyEffect;
      o := WorkOnAttempt(active, env);
      WorkIsCall(capsule, verify, attemptId, active, env, d0, d1, o, Snapshot());
    }

    /** The directory to work in: the only one there is, or a fresh one if there is none. */
    method OpenAttempt(attemptId: string, env: Env) returns (r: Result<string, Outcome>)
      requires ValidName(attemptId)
      modifies `attempts
      ensures r.Ok? ==>
                && attempts.Keys == {r.value} && ValidName(r.value)
                && (old(attempts) == map[] ==>
                      r.value == attemptId && attempts[r.value] == Attempt(false, None, None))
                && (old(attempts) != map[] ==> attempts == old(attempts))
      ensures r.Err? ==> attempts == old(attempts) && r.error != Accepted
      ensures Inv(capsule, verify, old(Snapshot())) && env.crashAt >= Uncrashed ==> r.Ok?
    {
      if Inv(capsule, verify, Snapshot()) { AtMostOne(attempts.Keys); }
      if |attempts| > 3 { return Err(Refused("attempt_budget")); }
      if |attempts| > 1 { return Err(Refused("multiple_unresolved_attempts")); }
      if attempts == map[] {
        if env.crashAt == 1 { return Err(Crashed); }
        attempts := map[attemptId := Attempt(false, None, None)];
        return Ok(attemptId);
      }
      var active :| active in attempts;
      assert |attempts.Keys - {active}| == 0;
      if !ValidName(active) { return Err(Refused("invalid_existing_attempt")); }
      return Ok(active);
    }

    /** A promoted package without a receipt needs exactly one committed, valid attempt. */
    method ResumeFinal(env: Env) returns (o: Outcome)
      requires final.Some?
      modifies `receipt
      ensures old(receipt).Some? ==> receipt == old(receipt)
      ensures old(receipt).None? && receipt.Some? ==>
                ReceiptFits(capsule, verify, Snapshot(), receipt.value)
      ensures o == Accepted ==> receipt.Some?
      ensures Inv(capsule, verify, old(Snapshot())) && env.crashAt >= Uncrashed ==>
                o == VerifiedOr(VerifyUnderAlarm(verify, final.value, env.alarm), env)
    {
      var valid := CollectValid();
      if valid.Err? { return Refused(valid.error); }
      if |valid.value| != 1 { return Refused("final_without_source_commitment"); }
      var active :| active in valid.value;
      match VerifyUnderAlarm(verify, final.value, env.alarm)
      case Err(code) => return Refused(code);
      case Ok(summary) =>
        if env.verifyLate { return Refused("verify_timeout"); }
        o := Finish(active, summary, env);
    }

    /** The committed attempts without an invalid mark, or the code of the first bad one. */
    method CollectValid() returns (valid: Result<set<string>, string>)
      ensures valid.Ok? ==> forall a :: a in valid.value <==>
                a in attempts && Promotable(capsule, a, attempts[a])
      ensures Inv(capsule, verify, Snapshot()) ==> valid.Ok?
      ensures Inv(capsule, verify, Snapshot()) && final.Some? ==> |valid.value| == 1
    {
      var pending, found := attempts.Keys, {};
      while pending != {}
        invariant pending <= attempts.Keys
        invariant forall a :: a in found <==>
                    a in attempts && a !in pending && Promotable(capsule, a, attempts[a])
        decreases |pending|
      {
        var path :| path in pending;
        pending := pending - {path};
        if !ValidName(path) { return Err("invalid_existing_attempt"); }
        if !attempts[path].invalid && attempts[path].commit.Some? {
          if attempts[path].commit.value != Commitment(capsule, path) {
            return Err("commitment_mismatch");
          }
          found := found + {path};
        }
      }
      AtMostOne(found);
      return Ok(found);
    }

    /** `finish`: an existing receipt has to agree with the package just verified. */
    method Finish(attempt: string, summary: Summary, env: Env) returns (o: Outcome)
      requires final.Some? && verify(final.value) == Ok(summary)
      requires attempt in attempts && Promotable(capsule, attempt, attempts[attempt])
      modifies `receipt
      ensures old(receipt).Some? ==> receipt == old(receipt)
      ensures old(receipt).None? && receipt.Some? ==>
                receipt.value == Receipt(capsule, attempt, summary, env.now)
      ensures o == Accepted ==> receipt.Some?
      ensures env.crashAt >= Uncrashed ==>
                o == if old(receipt).None?
                        || (old(receipt).value.capsule == capsule && old(receipt).value.summary == summary)
                     then Accepted else Refused("transfer_receipt_conflict")
    {
      if receipt.Some? {
        if receipt.value.capsule != capsule || receipt.value.summary != summary {
          return Refused("transfer_receipt_conflict");
        }
      } else {
        if env.crashAt == 7 { return Crashed; }
        receipt := Some(Receipt(capsule, attempt, summary, env.now));
      }
      return Accepted;
    }

    /** Probe the source, then verify an existing stage or make the one and only copy. */
    method WorkOnAttempt(active: string, env: Env) returns (o: Outcome)
      requires attempts.Keys == {active} && !attempts[active].invalid && final.None?
      modifies `attempts, `final, `receipt, `copies
      ensures attempts.Keys == {active} && AttemptEffect(capsule, active, old(Snapshot()), Snapshot())
      ensures copies == old(copies) || CopyEffect(capsule, old(Snapshot()), Snapshot())
      ensures Promoted(capsule, verify, active, old(receipt), Snapshot())
      ensures o == Accepted ==> final.Some? && receipt.Some?
      ensures Justified(capsule, verify, env, old(Snapshot()), Snapshot())
      ensures Regular(capsule, active, old(attempts[active])) && old(receipt).None?
              && env.crashAt >= Uncrashed ==>
                Settled(capsule, verify, old(Snapshot()), old(attempts[active]), env, o, Snapshot())
    {
      var committed := attempts[active].commit.Some?;
      if committed && attempts[active].commit.value != Commitment(capsule, active) {
        return Refused("commitment_mismatch");
      }
      if ProbeRefusal(capsule, env.firstProbe, env.firstProbeLate).Some? {
        return ProbeRefusal(capsule, env.firstProbe, env.firstProbeLate).value;
      }
      var lost := env.firstProbe.SourceLost?;
      if attempts[active].stage.Some? {
        if !committed { return Outcome(TransferUnknown, "stage_without_commitment"); }
        if VerifyUnderAlarm(verify, attempts[active].stage.value, env.alarm).Err? {
          return Outcome(if lost then SourceGone else TransferUnknown, "stage_not_complete");
        }
        if env.verifyLate { return Refused("verify_timeout"); }
        assert Promotable(capsule, active, old(attempts)[active]);
      } else {
        if lost { return Outcome(SourceGone, "no_verified_host_package"); }
        if committed { return Outcome(TransferUnknown, "committed_copy_outcome_unknown"); }
        if env.free < SpaceNeeded(capsule) { return Outcome(NotTransferred, "insufficient_space"); }
        var refusal := CopyIntoStage(active, env);
        if refusal.Some? { return refusal.value; }
      }
      ProbeRefusalAnswers(capsule, env.firstProbe, env.firstProbeLate);
      o := Promote(active, env);
      assert active in old(attempts);
      if copies == old(copies) && final.Some? {
        assert final == old(attempts)[active].stage && Promotable(capsule, active, old(attempts)[active]);
      }
    }

    /** Commitment first, then the stage directory, then the copy, then the checks. */
    method CopyIntoStage(active: string, env: Env) returns (refusal: Option<Outcome>)
      requires attempts.Keys == {active} && attempts[active] == Attempt(false, None, None)
      requires final.None?
      modifies `attempts, `copies
      ensures attempts.Keys == {active}
      ensures AttemptEffect(capsule, active, old(Snapshot()), Snapshot())
      ensures copies == old(copies) || CopyEffect(capsule, old(Snapshot()), Snapshot())
      ensures refusal.None? ==>
                && copies > old(copies)
                && attempts[active] == Attempt(false, Some(Commitment(capsule, active)), Some(env.copied))
                && verify(env.copied).Ok? && !env.alarm && !env.verifyLate
                && !env.copyRaises && !env.copyLate && Usable(capsule, env.postProbe, env.postProbeLate)
      ensures refusal.Some? ==> refusal.value != Accepted
      ensures env.crashAt >= Uncrashed ==>
                && copies == old(copies) + 1
                && attempts[active] == Attempt(MarksInvalid(capsule, verify, env),
                                               Some(Commitment(capsule, active)), Some(env.copied))
                && refusal == CopyRefusal(capsule, verify, env)
    {
      var crashed := CommitAndCopy(active, env);
      if crashed { return Some(Crashed); }
      refusal := JudgeCopy(active, env);
    }

    /** The commitment is durable before the stage directory exists, and that before the copy. */
    method CommitAndCopy(active: string, env: Env) returns (crashed: bool)
      requires attempts.Keys == {active} && attempts[active] == Attempt(false, None, None)
      requires final.None?
      modifies `attempts, `copies
      ensures attempts.Keys == {active}
      ensures AttemptEffect(capsule, active, old(Snapshot()), Snapshot())
      ensures copies == old(copies) || CopyEffect(capsule, old(Snapshot()), Snapshot())
      ensures !crashed ==>
                && copies == old(copies) + 1
                && attempts[active] == Attempt(false, Some(Commitment(capsule, active)), Some(env.copied))
      ensures env.crashAt >= Uncrashed ==> !crashed
    {
      if env.crashAt == 2 { return true; }
      var attempt := Attempt(false, Some(Commitment(capsule, active)), None);
      attempts := map[active := attempt];
      if env.crashAt == 3 { return true; }
      attempts := map[active := attempt.(stage := Some(map[]))];
      if env.crashAt == 4 { return true; }
      copies := copies + 1;
      attempts := map[active := attempt.(stage := Some(env.copied))];
      return env.crashAt == 5;
    }

    /** The checks that follow the copy; a lasting defect marks the attempt invalid. */
    method JudgeCopy(active: string, env: Env) returns (refusal: Option<Outcome>)
      requires attempts.Keys == {active}
      requires attempts[active] == Attempt(false, Some(Commitment(capsule, active)), Some(env.copied))
      modifies `attempts
      ensures attempts == map[active := Attempt(MarksInvalid(capsule, verify, env),
                                                Some(Commitment(capsule, active)), Some(env.copied))]
      ensures refusal == CopyRefusal(capsule, verify, env)
    {
      if env.copyRaises { return Some(Outcome(TransferUnknown, "operation_outcome_unknown")); }
      if env.copyLate { return Some(Refused("copy_timeout")); }
      if env.postProbe.Raises? || env.postProbeLate {
        return ProbeRefusal(capsule, env.postProbe, env.postProbeLate);
      }
      if !env.postProbe.SourceLost? && SourceMismatch(capsule, env.postProbe).Some? {
        attempts := map[active := attempts[active].(invalid := true)];
        return Some(Refused(SourceMismatch(capsule, env.postProbe).value));
      }
      match VerifyUnderAlarm(verify, env.copied, env.alarm) {
        case Err(code) =>
          attempts := map[active := attempts[active].(invalid := true)];
          return Some(Refused(code));
        case Ok(_) =>
      }
      if env.verifyLate { return Some(Refused("verify_timeout")); }
      return None;
    }

    /** Rename the verified stage to its final name and publish the receipt. */
    method Promote(active: string, env: Env) returns (o: Outcome)
      requires attempts.Keys == {active} && Promotable(capsule, active, attempts[active])
      requires attempts[active].stage.Some? && verify(attempts[active].stage.value).Ok?
      requires final.None?
      modifies `attempts, `final, `receipt
      ensures attempts.Keys == {active}
      ensures attempts[active] in
                {old(attempts[active]), old(attempts[active]).(stage := None)}
      ensures Promoted(capsule, verify, active, old(receipt), Snapshot())
      ensures o == Accepted ==> final.Some? && receipt.Some?
      ensures final.Some? ==> final == old(attempts[active]).stage
      ensures env.crashAt >= Uncrashed && old(receipt).None? ==>
                && o == Accepted && final == old(attempts[active].stage)
                && attempts[active] == old(attempts[active]).(stage := None)
    {
      var summary := verify(attempts[active].stage.value).value;
      if env.crashAt == 6 { return Crashed; }
      final := attempts[active].stage;
      attempts := map[active := attempts[active].(stage := None)];
      o := Finish(active, summary, env);
    }

    /** Whatever a call reports as verified, the inspection that follows accepts; and once a package
        has been promoted, one call that meets its deadlines reports it. */
    method TransferAndInspect(attemptId: string, env: Env) returns (o: Outcome, seen: Outcome)
      requires Inv(capsule, verify, Snapshot())
      modifies this
      ensures Inv(capsule, verify, Snapshot()) && seen == Inspect(capsule, verify, Snapshot())
      ensures o == Accepted ==> seen == Accepted
      ensures old(final).Some? && ValidName(attemptId) && env.crashAt >= Uncrashed && !env.alarm && !env.verifyLate ==>
                o == Accepted && seen == Accepted && final == old(final) && copies == old(copies)
    {
      hide Settled, Verdict, CallEffect, Inv;
      ghost var before := Snapshot();
      o := Transfer(attemptId, env);
      CallKeepsInv(capsule, verify, attemptId, before, Snapshot());
      FinalIsReported(capsule, verify, attemptId, before, env, o, Snapshot());
      ReceiptIsInspected(capsule, verify, Snapshot());
      seen := Inspect(capsule, verify, Disk(binding, attempts, final, receipt, delivery, 0));
    }

    /** `record_delivery` for an authenticated acknowledgement of this capsule. */
    method RecordDelivery(receivedAt: int, crashed: bool) returns (o: Outcome)
      modifies `delivery
      ensures DeliveryEffect(capsule, verify, old(Snapshot()), Snapshot())
      ensures o == Accepted ==> delivery == Some(Delivery(capsule, receivedAt))
      ensures o == Accepted ==> Inspect(capsule, verify, old(Snapshot())) == Accepted
    {
      o := Inspect(capsule, verify, Disk(binding, attempts, final, receipt, delivery, 0));
      if o != Accepted { return; }
      if delivery.Some? {
        if delivery.value != Delivery(capsule, receivedAt) { return Refused("R_ack_conflict"); }
      } else {
        if crashed { return Crashed; }
        delivery := Some(Delivery(capsule, receivedAt));
      }
    }
  }

  lemma CallKeepsInv(c: Capsule, verify: Verifier, attemptId: string, d: Disk, d': Disk)
    requires Inv(c, verify, d) && CallEffect(c, verify, attemptId, d, d')
    ensures Inv(c, verify, d')
  {
    assert forall a | a in d'.attempts :: AttemptEffect(c, a, d, d');
  }

  lemma FinalIsReported(c: Capsule, verify: Verifier, attemptId: string, d: Disk, env: Env, o: Outcome, d': Disk)
    requires Inv(c, verify, d) && CallEffect(c, verify, attemptId, d, d')
    ensures d.final.Some? ==> d'.final == d.final && d'.copies == d.copies
    ensures d.final.Some? && !env.alarm && !env.verifyLate && Settled(c, verify, d, CurrentAttempt(d), env, o, d') ==>
              o == Accepted
  {}

  /** A store with a receipt is accepted by every inspection. */
  lemma ReceiptIsInspected(c: Capsule, verify: Verifier, d: Disk)
    requires Inv(c, verify, d)
    ensures Inspect(c, verify, d) == Accepted <==> d.receipt.Some?
  {}

  /** One event in the life of a store: a call, a delivery or a stray write into a stage. */
  ghost predicate Event(c: Capsule, verify: Verifier, d: Disk, d': Disk) {
    || (exists attemptId :: CallEffect(c, verify, attemptId, d, d'))
    || DeliveryEffect(c, verify, d, d')
    || ResidualWrite(d, d')
  }

  /** Any sequence of events on a store that started out empty. */
  ghost predicate Run(c: Capsule, verify: Verifier, ds: seq<Disk>) {
    && |ds| > 0 && ds[0] == EmptyDisk
    && forall i | 0 < i < |ds| :: Event(c, verify, ds[i - 1], ds[i])
  }

  lemma ResidualKeepsInv(c: Capsule, verify: Verifier, d: Disk, d': Disk)
    requires Inv(c, verify, d) && ResidualWrite(d, d')
    ensures Inv(c, verify, d') && Grows(d, d')
  {
    var a, b: Bundle :| a in d.attempts && d.attempts[a].stage.Some?
      && d' == d.(attempts := d.attempts[a := d.attempts[a].(stage := Some(b))]);
    assert a in d'.attempts;
    if d.final.Some? {
      assert Promotable(c, a, d'.attempts[a]);
    }
  }

  lemma EventKeepsInv(c: Capsule, verify: Verifier, d: Disk, d': Disk)
    requires Inv(c, verify, d) && Event(c, verify, d, d')
    ensures Inv(c, verify, d')
    ensures Grows(d, d')
  {
    if attemptId :| CallEffect(c, verify, attemptId, d, d') {
      CallKeepsInv(c, verify, attemptId, d, d');
    } else if ResidualWrite(d, d') {
      ResidualKeepsInv(c, verify, d, d');
    }
  }

  /** What never changes between two disks of one run. */
  ghost predicate Grows(d: Disk, d': Disk) {
    && d.copies <= d'.copies && d.attempts.Keys <= d'.attempts.Keys
    && (d.final.Some? ==> d'.final == d.final)
    && (d.receipt.Some? ==> d'.receipt == d.receipt)
    && (d.delivery.Some? ==> d'.delivery == d.delivery)
  }

  lemma {:induction false} RunKeepsInv(c: Capsule, verify: Verifier, ds: seq<Disk>, i: nat)
    requires Run(c, verify, ds) && i < |ds|
    ensures Inv(c, verify, ds[i])
  {
    if 0 < i {
      RunKeepsInv(c, verify, ds, i - 1);
      EventKeepsInv(c, verify, ds[i - 1], ds[i]);
    }
  }

  lemma {:induction false} RunGrows(c: Capsule, verify: Verifier, ds: seq<Disk>, i: nat, j: nat)
    requires Run(c, verify, ds) && i <= j < |ds|
    ensures Grows(ds[i], ds[j])
    decreases j
  {
    hide Inv, Event;
    if i < j {
      RunGrows(c, verify, ds, i, j - 1);
      RunKeepsInv(c, verify, ds, j - 1);
      EventKeepsInv(c, verify, ds[j - 1], ds[j]);
    }
  }

  /** Over a whole run, whatever ids the callers use and wherever the calls crash: the adapter is
      asked to copy at most once, and only one attempt directory ever exists. */
  lemma AtMostOneCopyEver(c: Capsule, verify: Verifier, ds: seq<Disk>, i: nat, j: nat, a: string, b: string)
    requires Run(c, verify, ds) && i <= j < |ds|
    ensures ds[j].copies <= 1
    ensures a in ds[i].attempts && b in ds[j].attempts ==> a == b
  {
    RunKeepsInv(c, verify, ds, i);
    RunKeepsInv(c, verify, ds, j);
    RunGrows(c, verify, ds, i, j);
  }

  /** A promoted package passed verification and comes from the committed, valid attempt; a receipt
      describes exactly that package; neither ever changes afterwards. */
  lemma PromotionIsSafe(c: Capsule, verify: Verifier, ds: seq<Disk>, i: nat, j: nat)
    requires Run(c, verify, ds) && i <= j < |ds|
    ensures ds[i].final.Some? ==>
              && verify(ds[i].final.value).Ok? && ds[j].final == ds[i].final
              && exists a :: ds[i].attempts.Keys == {a} && Promotable(c, a, ds[i].attempts[a])
    ensures ds[i].receipt.Some? ==>
              ReceiptFits(c, verify, ds[i], ds[i].receipt.value) && ds[j].receipt == ds[i].receipt
    ensures ds[i].delivery.Some? ==> ds[i].receipt.Some? && ds[j].delivery == ds[i].delivery
  {
    RunKeepsInv(c, verify, ds, i);
    RunKeepsInv(c, verify, ds, j);
    RunGrows(c, verify, ds, i, j);
    if ds[i].final.Some? {
      var a :| a in ds[i].attempts && Promotable(c, a, ds[i].attempts[a]);
      assert ds[i].attempts.Keys == {a};
    }
  }

  /** Once a package has been promoted, a call that meets its deadlines reports it as verified, and
      from the receipt on every inspection accepts the store. */
  lemma PromotedIsRecoverable(c: Capsule, verify: Verifier, ds: seq<Disk>, i: nat, env: Env)
    requires Run(c, verify, ds) && i < |ds| && ds[i].final.Some?
    requires !env.alarm && !env.verifyLate
    ensures Verdict(c, verify, ds[i].final, CurrentAttempt(ds[i]), env) == Accepted
    ensures Inspect(c, verify, ds[i]) == Accepted <==> ds[i].receipt.Some?
  {
    RunKeepsInv(c, verify, ds, i);
  }

  /** After a copy was started, a package whose stage fails verification is never copied again:
      every later call ends without a copy. */
  lemma NoSecondChance(c: Capsule, verify: Verifier, ds: seq<Disk>, i: nat, env: Env)
    requires Run(c, verify, ds) && i < |ds| && ds[i].copies == 1
    ensures !StartsCopy(c, ds[i].final, CurrentAttempt(ds[i]), env)
  {
    RunKeepsInv(c, verify, ds, i);
  }
}
