/** The pending-helper protocol of the F02 Docker transport (scripts/f02_docker_adapter.py).

    Several adapter instances share one host control directory.  Every call runs under its lock,
    may crash in front of any effect (`crashAt`), and talks to helpers whose fate is only known
    from their replies.  The directory carries a ghost history of everything that was started,
    saved, acknowledged and quarantined. */
module F02DockerAdapter {
  import opened Wrappers

  datatype Event =
    | Saved(op: string)
    | ProbeStarted(op: string)
    | CheckStarted(op: string, checked: string)
    | Stopped(op: string, evidence: Evidence)
    | Quarantined
    | CopyStarted

  /** One helper invocation.  `NotStarted` is an exhausted deadline or a failed spawn. */
  datatype Helper<T> = NotStarted | Failed | Replied(reply: T)

  datatype CheckReply = CheckReply(wellFormed: bool, op: string, stopped: bool)

  datatype ProbeReply = ProbeReply(
    wellFormed: bool, ownedStopped: bool, complete: bool, bindingMatches: bool)

  /** The check of a pending helper succeeds only if the reply names it and says it stopped. */
  predicate Confirms(check: Helper<CheckReply>, op: string) {
    check.Replied? && check.reply.wellFormed && check.reply.op == op && check.reply.stopped
  }

  /** What a helper is acknowledged on: a later check, or its own reply. */
  datatype Evidence = ByCheck(check: Helper<CheckReply>) | ByReply(reply: ProbeReply)

  predicate ProvesStop(evidence: Evidence, op: string) {
    match evidence
    case ByCheck(check) => Confirms(check, op)
    case ByReply(reply) => reply.wellFormed && reply.ownedStopped
  }

  /** Where a history stands: the saved probe not yet acknowledged, and the quarantine. */
  datatype Watch = Illegal | Watch(unresolved: Option<string>, quarantined: bool)

  function Step(w: Watch, e: Event): Watch {
    if w.Illegal? then Illegal
    else
      match e
      case Saved(op) =>
        if w.unresolved.None? && !w.quarantined then w.(unresolved := Some(op)) else Illegal
      case ProbeStarted(op) =>
        if w.unresolved == Some(op) && !w.quarantined then w else Illegal
      case CheckStarted(_, checked) =>
        if w.unresolved in {None, Some(checked)} && !w.quarantined then w else Illegal
      case Stopped(op, evidence) =>
        if w.unresolved in {None, Some(op)} && ProvesStop(evidence, op) then w.(unresolved := None) else Illegal
      case Quarantined => w.(quarantined := true)
      case CopyStarted => if w.unresolved.None? && !w.quarantined then w else Illegal
  }

  function Observe(h: seq<Event>): Watch {
    if h == [] then Watch(None, false) else Step(Observe(h[..|h| - 1]), h[|h| - 1])
  }

  lemma ObserveExtend(h: seq<Event>, e: Event)
    ensures Observe(h + [e]) == Step(Observe(h), e)
  {
    assert (h + [e])[..|h + [e]| - 1] == h;
  }

  lemma {:induction false} PrefixLegal(h: seq<Event>, k: nat)
    requires Observe(h).Watch? && k <= |h|
    ensures Observe(h[..k]).Watch?
    decreases |h|
  {
    if k < |h| {
      PrefixLegal(h[..|h| - 1], k);
      assert h[..|h| - 1][..k] == h[..k];
    } else {
      assert h[..k] == h;
    }
  }

  /** The helper of `op` is acknowledged as stopped, on evidence that proves it. */
  predicate AcknowledgedAt(h: seq<Event>, j: nat, op: string) {
    j < |h| && h[j].Stopped? && h[j].op == op && ProvesStop(h[j].evidence, op)
  }

  /** A saved probe that is no longer the unresolved one has been acknowledged as stopped. */
  lemma {:induction false} ResolvedWasStopped(h: seq<Event>, i: nat)
    requires Observe(h).Watch? && i < |h| && h[i].Saved?
    ensures Observe(h).unresolved == Some(h[i].op)
            || exists j :: i < j < |h| && AcknowledgedAt(h, j, h[i].op)
  {
    var front := h[..|h| - 1];
    if i < |front| {
      PrefixLegal(h, |front|);
      ResolvedWasStopped(front, i);
      if Observe(front).unresolved != Some(h[i].op) {
        var j :| i < j < |front| && AcknowledgedAt(front, j, h[i].op);
        assert AcknowledgedAt(h, j, h[i].op);
      } else if Observe(h).unresolved != Some(h[i].op) {
        assert AcknowledgedAt(h, |front|, h[i].op);
      }
    }
  }

  lemma StepAt(h: seq<Event>, k: nat)
    requires Observe(h).Watch? && k < |h|
    ensures Observe(h[..k]).Watch? && Observe(h[..k + 1]) == Step(Observe(h[..k]), h[k])
    ensures Observe(h[..k + 1]).Watch?
  {
    PrefixLegal(h, k);
    PrefixLegal(h, k + 1);
    assert h[..k + 1][..k] == h[..k];
  }

  /** A copy, like the saving of another probe, starts only after every probe ever saved before it
      was acknowledged as stopped. */
  lemma QuietBeforeCopy(h: seq<Event>, i: nat, k: nat)
    requires Observe(h).Watch? && i < k < |h|
    requires h[i].Saved? && (h[k].CopyStarted? || h[k].Saved?)
    ensures exists j :: i < j < k && AcknowledgedAt(h, j, h[i].op)
  {
    StepAt(h, k);
    ResolvedWasStopped(h[..k], i);
    var j :| i < j < k && AcknowledgedAt(h[..k], j, h[..k][i].op);
    assert AcknowledgedAt(h, j, h[i].op);
  }

  /** A probe helper never starts before its operation id was saved. */
  lemma {:induction false} UnresolvedWasSaved(h: seq<Event>)
    requires Observe(h).Watch? && Observe(h).unresolved.Some?
    ensures Saved(Observe(h).unresolved.value) in h
  {
    PrefixLegal(h, |h| - 1);
    if !h[|h| - 1].Saved? { UnresolvedWasSaved(h[..|h| - 1]); }
  }

  lemma SavedBeforeProbe(h: seq<Event>, k: nat)
    requires Observe(h).Watch? && k < |h| && h[k].ProbeStarted?
    ensures Saved(h[k].op) in h[..k]
  {
    StepAt(h, k);
    UnresolvedWasSaved(h[..k]);
  }

  lemma {:induction false} QuarantineLasts(h: seq<Event>, i: nat)
    requires Observe(h).Watch? && i < |h| && h[i].Quarantined?
    ensures Observe(h).quarantined
  {
    PrefixLegal(h, |h| - 1);
    if i < |h| - 1 { QuarantineLasts(h[..|h| - 1], i); }
  }

  /** After the quarantine mark no helper and no copy starts and nothing is saved any more. */
  lemma NothingStartsInQuarantine(h: seq<Event>, i: nat, k: nat)
    requires Observe(h).Watch? && i < k < |h| && h[i].Quarantined?
    ensures h[k].Stopped? || h[k].Quarantined?
  {
    StepAt(h, k);
    QuarantineLasts(h[..k], i);
  }

  /** The pending record names the capsule and adapter binding it was saved for. */
  datatype Pending = Pending(op: string, owner: string)

  datatype Seen = Gone | Unclear | Drifted | Matches

  datatype Env = Env(
    crashAt: nat, checkOp: string, check: Helper<CheckReply>, container: Seen, image: Seen,
    probeOp: string, probe: Helper<ProbeReply>, recheckOp: string, recheck: Helper<CheckReply>)

  const Uncrashed: nat := 8

  datatype Reply =
    | Crashed | Refused(code: string) | Unknown | SourceLost | CaptureUnknown | Complete | Copied

  /** The host control directory shared by all adapters. */
  class ControlRoot {
    var pending: Option<Pending>
    var ambiguous: bool
    ghost var history: seq<Event>

    ghost predicate Valid()
      reads this
    {
      && Observe(history).Watch?
      && Observe(history).quarantined == ambiguous
      && (Observe(history).unresolved.Some? ==>
            pending.Some? && Observe(history).unresolved == Some(pending.value.op))
      && (pending.Some? ==> Saved(pending.value.op) in history)
    }

    constructor ()
      ensures Valid() && pending.None? && !ambiguous && history == []
    {
      pending, ambiguous, history := None, false, [];
    }

    ghost method Note(e: Event)
      requires Valid() && Step(Observe(history), e) == Observe(history)
      modifies `history
      ensures Valid() && history == old(history) + [e]
    {
      ObserveExtend(history, e);
      history := history + [e];
    }

    /** Leave the mark that stops everything but acknowledgements. */
    method Quarantine()
      requires Valid()
      modifies `ambiguous, `history
      ensures Valid() && ambiguous && history == old(history) + [Quarantined]
    {
      ObserveExtend(history, Quarantined);
      ambiguous, history := true, history + [Quarantined];
    }
  }

  predicate ConfirmsPending(check: Helper<CheckReply>, pending: Option<string>) {
    pending.None? || Confirms(check, pending.value)
  }

  /** What an uncrashed probe leaves as the pending operation. */
  function PendingAfter(pending: Option<string>, ambiguous: bool, env: Env): Option<string> {
    if ambiguous || !ConfirmsPending(env.check, pending) then pending
    else if !env.container.Matches? || !env.image.Matches? then None
    else if !env.probe.Replied? then
      if Confirms(env.recheck, env.probeOp) then None else Some(env.probeOp)
    else if env.probe.reply.wellFormed && env.probe.reply.ownedStopped then None
    else Some(env.probeOp)
  }

  /** Whether an uncrashed probe leaves the quarantine mark. */
  predicate AmbiguousAfter(pending: Option<string>, ambiguous: bool, env: Env) {
    || ambiguous
    || (pending.Some? && !env.check.Replied?)
    || (ConfirmsPending(env.check, pending) && env.container.Matches? && env.image.Matches?
        && !env.probe.Replied? && !env.recheck.Replied?)
  }

  function ProbeOutcome(pending: Option<string>, ambiguous: bool, env: Env): Reply {
    if ambiguous || !ConfirmsPending(env.check, pending) then Unknown
    else if env.container.Gone? then SourceLost
    else if env.container.Unclear? then Unknown
    else if env.container.Drifted? then Refused("source_identity_drift")
    else if env.image.Drifted? then Refused("image_revision_drift")
    else if !env.image.Matches? || !env.probe.Replied? then Unknown
    else if !env.probe.reply.wellFormed || !env.probe.reply.ownedStopped then Unknown
    else if !env.probe.reply.complete then CaptureUnknown
    else if !env.probe.reply.bindingMatches then Refused("source_binding_drift")
    else Complete
  }

  /** Nothing is quarantined, and a helper that was pending has been confirmed as stopped. */
  predicate Ready(pending: Option<Pending>, ambiguous: bool, env: Env) {
    && !ambiguous
    && (pending.Some? ==> env.check.Replied? && env.check.reply == CheckReply(true, pending.value.op, true))
  }

  /** The container and its image are still the capsule's. */
  predicate Unchanged(env: Env) {
    env.container.Matches? && env.image.Matches?
  }

  /** Exactly when an uncrashed probe gives each of its answers. */
  ghost predicate Answered(pending: Option<Pending>, ambiguous: bool, env: Env, r: Reply) {
    var ready, asked := Ready(pending, ambiguous, env), Ready(pending, ambiguous, env) && Unchanged(env);
    && (r == Complete <==> asked && env.probe == Replied(ProbeReply(true, true, true, true)))
    && (r == Refused("source_binding_drift") <==> asked && env.probe == Replied(ProbeReply(true, true, true, false)))
    && (r == CaptureUnknown <==>
          asked && env.probe in {Replied(ProbeReply(true, true, false, true)),
                                 Replied(ProbeReply(true, true, false, false))})
    && (r == SourceLost <==> ready && env.container.Gone?)
    && (r == Refused("source_identity_drift") <==> ready && env.container.Drifted?)
    && (r == Refused("image_revision_drift") <==> ready && env.container.Matches? && env.image.Drifted?)
    && (r == Unknown <==>
          || !ready || env.container.Unclear?
          || (env.container.Matches? && (env.image.Gone? || env.image.Unclear?))
          || (asked && (!env.probe.Replied? || !env.probe.reply.wellFormed || !env.probe.reply.ownedStopped)))
  }

  /** What such a probe leaves: the pending record goes away only with a confirmed stop, and the
      quarantine mark stays or comes only with a helper whose fate nobody reports. */
  ghost predicate Left(pending: Option<Pending>, ambiguous: bool, owner: string, env: Env,
                       pending': Option<Pending>, ambiguous': bool)
  {
    var ready, asked := Ready(pending, ambiguous, env), Ready(pending, ambiguous, env) && Unchanged(env);
    && (!ready ==> pending' == pending)
    && (ready && !asked ==> pending'.None?)
    && (asked ==>
          pending' == if || (env.probe.Replied? && env.probe.reply.wellFormed && env.probe.reply.ownedStopped)
                         || (!env.probe.Replied? && env.recheck == Replied(CheckReply(true, env.probeOp, true)))
                      then None else Some(Pending(env.probeOp, owner)))
    && (ambiguous' <==>
          || ambiguous || (pending.Some? && !env.check.Replied?)
          || (asked && !env.probe.Replied? && !env.recheck.Replied?))
  }

  lemma OutcomeAnswers(pending: Option<Pending>, ambiguous: bool, owner: string, env: Env)
    ensures var before := if pending.None? then None else Some(pending.value.op);
      && Answered(pending, ambiguous, env, ProbeOutcome(before, ambiguous, env))
      && ((pending.Some? ==> pending.value.owner == owner) ==>
            var op := PendingAfter(before, ambiguous, env);
            Left(pending, ambiguous, owner, env, if op.None? then None else Some(Pending(op.value, owner)),
                 AmbiguousAfter(before, ambiguous, env)))
  {
    assert "source_binding_drift"[7] != "source_identity_drift"[7];
    assert "image_revision_drift"[0] != "source_identity_drift"[0];
    assert "image_revision_drift"[0] != "source_binding_drift"[0];
  }

  class DockerAdapter {
    const root: ControlRoot
    const owner: string
    var pendingProbe: Option<string>

    constructor (root: ControlRoot, owner: string)
      ensures this.root == root && this.owner == owner
    {
      this.root, this.owner, pendingProbe := root, owner, None;
    }

    /** Reload the cached field from the file; a record of another binding is refused. */
    method LoadPending() returns (ok: bool)
      modifies `pendingProbe
      ensures ok <==> root.pending.None? || root.pending.value.owner == owner
      ensures ok ==> InStep()
    {
      if root.pending.Some? && root.pending.value.owner != owner { return false; }
      pendingProbe := if root.pending.None? then None else Some(root.pending.value.op);
      return true;
    }

    /** The cached field agrees with the pending file. */
    ghost predicate InStep()
      reads this, root
    {
      && (pendingProbe.None? <==> root.pending.None?)
      && (pendingProbe.Some? ==> root.pending.value == Pending(pendingProbe.value, owner))
    }

    /** `_recover_helper` with the effects numbered from `at`. */
    method RecoverHelper(op: string, check: Helper<CheckReply>, at: nat, crashAt: nat)
      returns (crashed: bool, ok: bool)
      requires root.Valid() && InStep() && !root.ambiguous
      modifies this`pendingProbe, root
      ensures root.Valid() && old(root.history) <= root.history
      ensures !crashed ==> InStep()
      ensures ok ==> !crashed && root.pending.None? && !root.ambiguous
      ensures crashAt >= at + 3 ==>
                && !crashed && ok == ConfirmsPending(check, old(pendingProbe))
                && pendingProbe == (if ok then None else old(pendingProbe))
                && root.ambiguous == (old(pendingProbe).Some? && !check.Replied?)
    {
      hide Observe;
      if pendingProbe.None? { return false, true; }
      var op0 := pendingProbe.value;
      if crashAt == at { return true, false; }
      if !check.NotStarted? { root.Note(CheckStarted(op, op0)); }
      if !check.Replied? {
        if crashAt == at + 1 { return true, false; }
        root.Quarantine();
        return false, false;
      }
      if !check.reply.wellFormed || check.reply.op != op0 { return false, false; }
      if !check.reply.stopped { return false, false; }
      crashed := Acknowledge(ByCheck(check), at + 2, crashAt);
      ok := !crashed;
    }

    /** The reply at hand proves that the helper stopped; then the pending file goes away. */
    method Acknowledge(ghost evidence: Evidence, at: nat, crashAt: nat) returns (crashed: bool)
      requires root.Valid() && InStep() && pendingProbe.Some? && ProvesStop(evidence, pendingProbe.value)
      modifies this`pendingProbe, root
      ensures root.Valid() && root.ambiguous == old(root.ambiguous)
      ensures root.history == old(root.history) + [Stopped(old(pendingProbe).value, evidence)]
      ensures !crashed ==> InStep() && pendingProbe.None?
      ensures crashAt != at ==> !crashed
    {
      ghost var h := root.history;
      root.history := h + [Stopped(pendingProbe.value, evidence)];
      ObserveExtend(h, Stopped(pendingProbe.value, evidence));
      if crashAt == at { return true; }
      root.pending, pendingProbe := None, None;
      return false;
    }

    /** `probe` under the control lock. */
    method Probe(env: Env) returns (r: Reply)
      requires root.Valid()
      modifies this`pendingProbe, root
      ensures root.Valid() && old(root.history) <= root.history
      ensures old(root.pending).Some? && old(root.pending).value.owner != owner ==>
                r == Refused("pending_probe_binding_conflict") && root.history == old(root.history)
      ensures env.crashAt >= Uncrashed && r != Refused("pending_probe_binding_conflict") ==>
                var before := if old(root.pending).None? then None else Some(old(root.pending).value.op);
                && InStep()
                && pendingProbe == PendingAfter(before, old(root.ambiguous), env)
                && root.ambiguous == AmbiguousAfter(before, old(root.ambiguous), env)
                && r == ProbeOutcome(before, old(root.ambiguous), env)
      ensures env.crashAt >= Uncrashed && (old(root.pending).Some? ==> old(root.pending).value.owner == owner) ==>
                && Answered(old(root.pending), old(root.ambiguous), env, r)
                && Left(old(root.pending), old(root.ambiguous), owner, env, root.pending, root.ambiguous)
    {
      OutcomeAnswers(root.pending, root.ambiguous, owner, env);
      hide Answered, Left;
      var loaded := LoadPending();
      if !loaded { return Refused("pending_probe_binding_conflict"); }
      if root.ambiguous { return Unknown; }
      var crashed, recovered := RecoverHelper(env.checkOp, env.check, 0, env.crashAt);
      if crashed { return Crashed; }
      if !recovered { return Unknown; }
      if env.container.Gone? { return SourceLost; }
      if env.container.Unclear? { return Unknown; }
      if env.container.Drifted? { return Refused("source_identity_drift"); }
      if env.image.Drifted? { return Refused("image_revision_drift"); }
      if !env.image.Matches? { return Unknown; }
      r := StartProbe(env);
    }

    /** Save the operation id, run the helper, then settle what became of it. */
    method StartProbe(env: Env) returns (r: Reply)
      requires root.Valid() && InStep() && pendingProbe.None? && !root.ambiguous
      modifies this`pendingProbe, root
      ensures root.Valid() && old(root.history) <= root.history
      ensures env.container.Matches? && env.image.Matches? && env.crashAt >= Uncrashed ==>
                && InStep()
                && pendingProbe == PendingAfter(None, false, env)
                && root.ambiguous == AmbiguousAfter(None, false, env)
                && r == ProbeOutcome(None, false, env)
    {
      hide Observe;
      if env.crashAt == 3 { return Crashed; }
      ghost var h := root.history;
      root.pending, pendingProbe := Some(Pending(env.probeOp, owner)), Some(env.probeOp);
      root.history := h + [Saved(env.probeOp)];
      ObserveExtend(h, Saved(env.probeOp));
      if env.crashAt == 4 { return Crashed; }
      if !env.probe.NotStarted? { root.Note(ProbeStarted(env.probeOp)); }
      if !env.probe.Replied? {
        var crashed, _ := RecoverHelper(env.recheckOp, env.recheck, 5, env.crashAt);
        return if crashed then Crashed else Unknown;
      }
      if !env.probe.reply.wellFormed || !env.probe.reply.ownedStopped { return Unknown; }
      var crashed := Acknowledge(ByReply(env.probe.reply), 7, env.crashAt);
      if crashed { return Crashed; }
      if !env.probe.reply.complete { return CaptureUnknown; }
      if !env.probe.reply.bindingMatches { return Refused("source_binding_drift"); }
      return Complete;
    }

    /** `copy` under the control lock; an empty private destination directory is the caller's. */
    method Copy(destinationEmpty: bool, succeeds: bool) returns (r: Reply)
      requires root.Valid()
      modifies this`pendingProbe, root`history
      ensures root.Valid()
      ensures root.history == old(root.history)
                + (if root.pending.None? && !root.ambiguous && destinationEmpty then [CopyStarted] else [])
      ensures r == Copied <==> root.pending.None? && !root.ambiguous && destinationEmpty && succeeds
    {
      var loaded := LoadPending();
      if !loaded { return Refused("pending_probe_binding_conflict"); }
      if pendingProbe.Some? || root.ambiguous { return Refused("owned_helper_outcome_unknown"); }
      if !destinationEmpty { return Refused("copy_destination_not_empty"); }
      root.Note(CopyStarted);
      if !succeeds { return Refused("copy_outcome_unknown"); }
      return Copied;
    }
  }

  datatype Call = CallProbe(owner: string, env: Env) | CallCopy(owner: string, empty: bool, succeeds: bool)

  /** Any schedule of calls by any adapter instances leaves a legal history, to which the lemmas
      above apply. */
  method RunSchedule(root: ControlRoot, calls: seq<Call>)
    requires root.Valid()
    modifies root
    ensures root.Valid() && Observe(root.history).Watch? && old(root.history) <= root.history
  {
    for i := 0 to |calls|
      invariant root.Valid() && old(root.history) <= root.history
    {
      match calls[i]
      case CallProbe(owner, env) =>
        var adapter := new DockerAdapter(root, owner);
        var _ := adapter.Probe(env);
      case CallCopy(owner, empty, succeeds) =>
        var adapter := new DockerAdapter(root, owner);
        var _ := adapter.Copy(empty, succeeds);
    }
  }
}
