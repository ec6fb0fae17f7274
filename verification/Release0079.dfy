/** The 0079 release coordinator (deploy/release_0079.py).

    A release records what runs, publishes an intent, takes the active pointer, drains the
    application services, lets the release tasks publish a schema receipt and starts again what
    it found.  A call may be interrupted in front of any durable effect: by a crash, or because a
    check of the outside world (images, backups, database, containers) fails.  `left` counts the
    effects that a call still gets to perform.  Between calls the outside world may change the
    running services and the configuration. */
module Release0079 {
  import opened Wrappers

  datatype Service = Web | Worker | Beat | RaceLiveWorker | RaceSyncWorker | Nginx

  /** What a manifest and the intent made from it hold. */
  datatype Record = Record(restore: set<Service>, config: string)

  datatype Event =
    | Recorded(id: string, record: Record)
    | Intended(id: string)
    | Activated(id: string)
    | Stopped(id: string, service: Service)
    | Started(id: string, service: Service)
    | Completed(id: string)
    | Closed(id: string)
    | Outside(running: set<Service>, config: string)

  /** Where a history of releases stands. */
  datatype Trace =
    | Illegal
    | Trace(running: set<Service>, config: string, records: map<string, Record>,
            intended: set<string>, active: Option<string>, completed: set<string>)

  /** Beat stops before anything else, web after everything else, nginx never. */
  predicate MayStop(service: Service, running: set<Service>) {
    && service != Nginx
    && (service != Beat ==> Beat !in running)
    && (service == Web ==> running <= {Web, Nginx})
  }

  /** Only recorded services start, web before the others and nginx after them. */
  predicate MayStart(service: Service, running: set<Service>, restore: set<Service>) {
    && service in restore
    && (service != Web && Web in restore ==> Web in running)
    && (service == Nginx ==> restore <= running + {Nginx})
  }

  /** The rules that the coordinator keeps. */
  function Step(t: Trace, e: Event): Trace {
    if t.Illegal? then Illegal
    else
      match e
      case Recorded(id, record) =>
        if id !in t.records && record == Record(t.running, t.config)
        then t.(records := t.records[id := record]) else Illegal
      case Intended(id) =>
        if id in t.records && id !in t.intended && t.records[id] == Record(t.running, t.config)
        then t.(intended := t.intended + {id}) else Illegal
      case Activated(id) =>
        if t.active.None? && id in t.intended && id !in t.completed && id in t.records
           && t.records[id] == Record(t.running, t.config)
        then t.(active := Some(id)) else Illegal
      case Stopped(id, service) =>
        if t.active == Some(id) && id !in t.completed && service in t.running && MayStop(service, t.running)
        then t.(running := t.running - {service}) else Illegal
      case Started(id, service) =>
        if (t.active == Some(id) || (t.active.None? && id in t.completed)) && id in t.records
           && MayStart(service, t.running, t.records[id].restore)
        then t.(running := t.running + {service}) else Illegal
      case Completed(id) =>
        if t.active == Some(id) && id in t.records && t.records[id] == Record(t.running, t.config)
        then t.(completed := t.completed + {id}) else Illegal
      case Closed(id) =>
        if t.active == Some(id) && id in t.completed then t.(active := None) else Illegal
      case Outside(running, config) => t.(running := running, config := config)
  }

  /** Where the first `n` events of a history lead. */
  function At(start: Trace, log: seq<Event>, n: nat): Trace
    requires n <= |log|
  {
    if n == 0 then start else Step(At(start, log, n - 1), log[n - 1])
  }

  predicate Legal(start: Trace, log: seq<Event>) {
    At(start, log, |log|).Trace?
  }

  /** The host before any release. */
  function Fresh(running: set<Service>, config: string): Trace {
    Trace(running, config, map[], {}, None, {})
  }

  lemma {:induction false} AtPrefix(start: Trace, log: seq<Event>, e: Event, n: nat)
    requires n <= |log|
    ensures At(start, log + [e], n) == At(start, log, n)
  {
    if n > 0 { AtPrefix(start, log, e, n - 1); }
  }

  lemma AtExtend(start: Trace, log: seq<Event>, e: Event)
    ensures At(start, log + [e], |log| + 1) == Step(At(start, log, |log|), e)
  {
    AtPrefix(start, log, e, |log|);
  }

  // ---------------------------------------------------------------- what legal histories promise

  lemma {:induction false} PrefixLegal(start: Trace, log: seq<Event>, k: nat, n: nat)
    requires k <= n <= |log| && At(start, log, n).Trace?
    ensures At(start, log, k).Trace?
    decreases n
  {
    if k < n { PrefixLegal(start, log, k, n - 1); }
  }

  lemma StepAt(start: Trace, log: seq<Event>, k: nat)
    requires Legal(start, log) && k < |log|
    ensures At(start, log, k).Trace? && At(start, log, k + 1).Trace?
    ensures At(start, log, k + 1) == Step(At(start, log, k), log[k])
  {
    PrefixLegal(start, log, k, |log|);
    PrefixLegal(start, log, k + 1, |log|);
  }

  function Now(t: Trace): Record
    requires t.Trace?
  {
    Record(t.running, t.config)
  }

  /** A record is written once, with what ran and was configured at that moment. */
  ghost predicate RecordedAt(start: Trace, log: seq<Event>, i: nat, id: string, record: Record) {
    i < |log| && log[i] == Recorded(id, record) && At(start, log, i).Trace? && record == Now(At(start, log, i))
  }

  lemma {:induction false} RecordHasOrigin(start: Trace, log: seq<Event>, k: nat, id: string)
    requires start.Trace? && start.records == map[] && Legal(start, log) && k <= |log|
    requires At(start, log, k).Trace? && id in At(start, log, k).records
    ensures exists i :: 0 <= i < k && RecordedAt(start, log, i, id, At(start, log, k).records[id])
    decreases k
  {
    StepAtBefore(start, log, k);
    if log[k - 1].Recorded? && log[k - 1].id == id {
      assert RecordedAt(start, log, k - 1, id, At(start, log, k).records[id]);
    } else {
      RecordHasOrigin(start, log, k - 1, id);
    }
  }

  /** The step that led to a position which is not the start. */
  lemma StepAtBefore(start: Trace, log: seq<Event>, k: nat)
    requires Legal(start, log) && k <= |log| && At(start, log, k) != start
    ensures k > 0 && At(start, log, k - 1).Trace?
    ensures At(start, log, k) == Step(At(start, log, k - 1), log[k - 1])
  {
    StepAt(start, log, k - 1);
  }

  /** The pointer of an active release was taken while exactly the recorded services ran. */
  ghost predicate ActivatedAt(start: Trace, log: seq<Event>, j: nat, id: string) {
    && j < |log| && log[j] == Activated(id) && At(start, log, j).Trace?
    && id in At(start, log, j).intended && id in At(start, log, j).records
    && At(start, log, j).records[id] == Now(At(start, log, j))
  }

  lemma {:induction false} ActiveHasOrigin(start: Trace, log: seq<Event>, k: nat, id: string)
    requires start.Trace? && start.active.None? && Legal(start, log) && k <= |log|
    requires At(start, log, k).Trace? && At(start, log, k).active == Some(id)
    ensures exists j :: 0 <= j < k && ActivatedAt(start, log, j, id)
    decreases k
  {
    StepAtBefore(start, log, k);
    if log[k - 1] == Activated(id) {
      assert ActivatedAt(start, log, k - 1, id);
    } else {
      ActiveHasOrigin(start, log, k - 1, id);
    }
  }

  /** No service is stopped before a durable intent holds the set that ran at preparation, nor
      before the pointer was taken with that very set still running. */
  lemma NoStopBeforeIntent(start: Trace, log: seq<Event>, k: nat)
    requires start.Trace? && start.records == map[] && start.active.None?
    requires Legal(start, log) && k < |log| && log[k].Stopped?
    ensures exists i, j, record :: 0 <= i < j < k
              && RecordedAt(start, log, i, log[k].id, record)
              && ActivatedAt(start, log, j, log[k].id)
              && record.restore == At(start, log, i).running == At(start, log, j).running
  {
    var id := log[k].id;
    StepAt(start, log, k);
    ActiveHasOrigin(start, log, k, id);
    var j :| 0 <= j < k && ActivatedAt(start, log, j, id);
    RecordHasOrigin(start, log, j, id);
  }

  /** The order of the drain: beat before everything else, web after everything else, nginx never. */
  lemma StopOrder(start: Trace, log: seq<Event>, k: nat)
    requires Legal(start, log) && k < |log| && log[k].Stopped?
    ensures var t, service := At(start, log, k), log[k].service;
      && t.Trace? && t.active == Some(log[k].id) && log[k].id !in t.completed
      && service in t.running && service != Nginx
      && (Beat in t.running ==> service == Beat)
      && (service == Web ==> forall other | other in t.running :: other == Web || other == Nginx)
  {
    StepAt(start, log, k);
  }

  /** The order of the restart: only what was recorded, web first, nginx after all the others. */
  lemma StartOrder(start: Trace, log: seq<Event>, k: nat)
    requires Legal(start, log) && k < |log| && log[k].Started?
    ensures var t, service := At(start, log, k), log[k].service;
      && t.Trace? && log[k].id in t.records && service in t.records[log[k].id].restore
      && (t.active == Some(log[k].id) || (t.active.None? && log[k].id in t.completed))
      && (Web in t.records[log[k].id].restore ==> service == Web || Web in t.running)
      && (service == Nginx ==>
            forall other | other in t.records[log[k].id].restore :: other == Nginx || other in t.running)
  {
    StepAt(start, log, k);
  }

  /** A release is intended and activated once, in the state that it recorded, and its pointer goes
      away only when it is complete. */
  lemma IntentOrder(start: Trace, log: seq<Event>, k: nat)
    requires Legal(start, log) && k < |log|
    ensures At(start, log, k).Trace?
    ensures var t := At(start, log, k);
      && (log[k].Intended? ==>
            && log[k].id in t.records && log[k].id !in t.intended
            && t.records[log[k].id] == Record(t.running, t.config))
      && (log[k].Activated? ==>
            && t.active.None? && log[k].id in t.intended && log[k].id !in t.completed
            && log[k].id in t.records && t.records[log[k].id] == Record(t.running, t.config))
      && (log[k].Closed? ==> t.active == Some(log[k].id) && log[k].id in t.completed)
  {
    StepAt(start, log, k);
  }

  /** Whenever a release completes, exactly what ran when it was prepared runs again, under the
      configuration of that moment. */
  lemma CompletionRestores(start: Trace, log: seq<Event>, k: nat)
    requires start.Trace? && start.records == map[] && start.active.None?
    requires Legal(start, log) && k < |log| && log[k].Completed?
    ensures exists i, record :: 0 <= i < k && RecordedAt(start, log, i, log[k].id, record)
              && At(start, log, k).Trace?
              && Now(At(start, log, k)) == record == Now(At(start, log, i))
  {
    StepAt(start, log, k);
    RecordHasOrigin(start, log, k, log[k].id);
  }

  /** Nobody but the coordinator acts between two positions, and the release stays open. */
  ghost predicate Undisturbed(log: seq<Event>, j: nat, k: nat) {
    k <= |log| && forall n | j < n < k :: !log[n].Outside? && !log[n].Closed?
  }

  /** While a release is active and nobody else interferes, only services that it recorded run,
      and nginx is left alone. */
  lemma {:induction false} ActiveStaysWithin(start: Trace, log: seq<Event>, j: nat, k: nat)
    requires start.Trace? && Legal(start, log) && j < k <= |log| && log[j].Activated? && Undisturbed(log, j, k)
    ensures At(start, log, j).Trace? && At(start, log, k).Trace?
    ensures At(start, log, k).active == Some(log[j].id) && log[j].id in At(start, log, k).records
    ensures At(start, log, k).running <= At(start, log, j).running == At(start, log, k).records[log[j].id].restore
    ensures Nginx in At(start, log, j).running ==> Nginx in At(start, log, k).running
    decreases k
  {
    StepAt(start, log, k - 1);
    if k > j + 1 { ActiveStaysWithin(start, log, j, k - 1); }
  }

  // ---------------------------------------------------------------- the coordinator

  datatype Outcome = Done | Interrupted | Refused(code: string)

  /** Enough effects for any call: four to prepare, five stops, the receipt, six starts and two to
      complete. */
  const Enough: nat := 18

  /** The services stopped by the first `k` turns of the drain loop. */
  function Drained(k: nat): set<Service> {
    if k == 0 then {}
    else if k == 1 then {Worker}
    else if k == 2 then {Worker, RaceLiveWorker}
    else if k == 3 then {Worker, RaceLiveWorker, RaceSyncWorker}
    else {Worker, RaceLiveWorker, RaceSyncWorker, Web}
  }

  lemma OnlyNginxIsLeft(found: set<Service>)
    ensures found - {Beat} - Drained(4) == found * {Nginx}
  {
    forall s | s in found - {Beat} - Drained(4) ensures s == Nginx {
      assert s.Web? || s.Worker? || s.Beat? || s.RaceLiveWorker? || s.RaceSyncWorker? || s.Nginx?;
    }
  }

  lemma OnlyWebIsLeft(found: set<Service>)
    ensures Beat !in found ==> found - Drained(3) <= {Web, Nginx}
  {
    forall s | s in found - Drained(3) ensures s in {Web, Nginx, Beat} {
      assert s.Web? || s.Worker? || s.Beat? || s.RaceLiveWorker? || s.RaceSyncWorker? || s.Nginx?;
    }
  }

  /** What the first call that got anything done got done, among a first one and `k` resumes. */
  function FirstProgress(first: nat, lefts: seq<nat>, k: nat): nat
    requires k <= |lefts|
  {
    if k == 0 then first
    else if FirstProgress(first, lefts, k - 1) != 0 then FirstProgress(first, lefts, k - 1)
    else lefts[k - 1]
  }

  class Coordinator {
    var backups: set<string>
    var manifests: map<string, Record>
    var intents: map<string, Record>
    var active: Option<string>
    var receipts: set<string>
    var completed: map<string, set<Service>>
    var running: set<Service>
    var config: string
    ghost const start: Trace
    ghost var log: seq<Event>

    ghost function Snapshot(): Trace
      reads this
    {
      Trace(running, config, manifests, intents.Keys, active, completed.Keys)
    }

    ghost predicate Valid()
      reads this
    {
      && At(start, log, |log|) == Snapshot()
      && (forall id | id in intents :: id in manifests && intents[id] == manifests[id])
      && manifests.Keys <= backups
      && (active.Some? ==> active.value in intents)
      && (forall id | id in completed :: id in intents && id in receipts && completed[id] == intents[id].restore)
    }

    constructor (running: set<Service>, config: string)
      ensures Valid() && start == Fresh(running, config) && log == []
    {
      backups, manifests, intents, active := {}, map[], map[], None;
      receipts, completed := {}, map[];
      this.running, this.config := running, config;
      start, log := Fresh(running, config), [];
    }

    /** Somebody else starts or stops services, or edits the configuration. */
    method Disturb(running: set<Service>, config: string)
      requires Valid()
      modifies `running, `config, `log
      ensures Valid() && log == old(log) + [Outside(running, config)]
    {
      this.running, this.config := running, config;
      log := log + [Outside(running, config)];
      AtExtend(start, old(log), Outside(running, config));
    }

    /** `guard`: no release may be in progress or prepared. */
    method Guard() returns (refusal: Option<string>)
      ensures refusal.None? <==> active.None? && intents.Keys <= completed.Keys
    {
      if active.Some? { return Some("0079 release is in progress"); }
      if id :| id in intents && id !in completed { return Some("0079 preparation is incomplete"); }
      return None;
    }

    /** What an uninterrupted preparation accepts. */
    ghost predicate Admits(id: string, resume: bool, manual: bool, manifestKnown: bool)
      reads this
    {
      if id in intents then
        && resume && (active.None? || active.value == id)
        && (active.None? && id !in completed ==> running == intents[id].restore)
        && intents[id].config == config
      else
        && (!resume ==> intents.Keys <= completed.Keys) && active.None?
        && (manual ==> running <= {Nginx})
        && (if id in manifests then resume && manifestKnown && manifests[id] == Record(running, config)
            else id !in backups)
    }

    /** Nothing but this release has touched the host since it ran `found` under `was`. */
    ghost predicate Within(id: string, found: set<Service>, was: string)
      reads this
    {
      && (id in manifests ==> manifests[id] == Record(found, was))
      && config == was && running <= found && (Nginx in found ==> Nginx in running)
      && (active.None? ==> running == found)
      && (active.None? || active.value == id)
    }

    /** `prepare` of an intent that exists already. */
    method CheckIntent(id: string, resume: bool) returns (refusal: Option<string>)
      requires id in intents
      ensures refusal.None? <==>
                && resume && (active.None? || active.value == id)
                && (active.None? && id !in completed ==> running == intents[id].restore)
                && intents[id].config == config
    {
      if !resume { return Some("0079 intent exists; use the resume entry"); }
      if active.Some? && active.value != id { return Some("0079 active pointer identity mismatch"); }
      if active.None? && id !in completed && running != intents[id].restore {
        return Some("0079 cannot prove preparation stopped before the first service action");
      }
      if intents[id].config != config { return Some("0079 configuration changed since preparation"); }
      return None;
    }

    /** How far `left` effects bring a preparation that starts from nothing: the backup is the
        first of them, the manifest the second. */
    ghost predicate Reached(id: string, left: nat)
      reads this
    {
      (id in backups <==> left >= 1) && (id in manifests <==> left >= 2)
    }

    /** A backup whose manifest was never written. */
    ghost predicate Orphaned(id: string)
      reads this
    {
      id in backups && id !in manifests
    }

    /** Back the database up, then publish the manifest that records what runs. */
    method RecordManifest(id: string, left: nat) returns (stop: Option<Outcome>, rest: nat)
      requires Valid() && id !in manifests && id !in intents
      modifies `backups, `manifests, `log
      ensures Valid() && old(log) <= log
      ensures manifests == old(manifests) || manifests == old(manifests)[id := Record(running, config)]
      ensures stop.None? ==> id in manifests
      ensures stop == Some(Refused("0079 unpublished backup exists")) <==> id in old(backups)
      ensures stop == Some(Interrupted) ==> left < 2
      ensures stop in {None, Some(Interrupted), Some(Refused("0079 unpublished backup exists"))}
      ensures id in old(backups) ==> manifests == old(manifests) && backups == old(backups) && log == old(log)
      ensures id !in old(backups) ==> Reached(id, left) && (left < 2 ==> stop == Some(Interrupted) && log == old(log))
      ensures old(backups) <= backups
      ensures left - 2 <= rest <= left
    {
      hide At;
      rest := left;
      if id in backups { return Some(Refused("0079 unpublished backup exists")), rest; }
      if rest == 0 { return Some(Interrupted), rest; }
      rest := rest - 1;
      backups := backups + {id};
      if rest == 0 { return Some(Interrupted), rest; }
      rest := rest - 1;
      manifests := manifests[id := Record(running, config)];
      log := log + [Recorded(id, Record(running, config))];
      AtExtend(start, old(log), Recorded(id, Record(running, config)));
      return None, rest;
    }

    method PublishIntent(id: string)
      requires Valid() && id in manifests && id !in intents && manifests[id] == Record(running, config)
      modifies `intents, `log
      ensures Valid() && old(log) <= log
      ensures intents == old(intents)[id := manifests[id]]
    {
      hide At;
      intents := intents[id := manifests[id]];
      log := log + [Intended(id)];
      AtExtend(start, old(log), Intended(id));
    }

    /** `prepare` of a new intent: backup, manifest, intent, in this order. */
    method RecordIntent(id: string, resume: bool, manual: bool, manifestKnown: bool, left: nat)
      returns (stop: Option<Outcome>, rest: nat)
      requires Valid() && id !in intents
      modifies `backups, `manifests, `intents, `log
      ensures Valid() && old(log) <= log
      ensures manifests == old(manifests)
              || (id !in old(manifests) && manifests == old(manifests)[id := Record(running, config)])
      ensures stop.None? ==> id in intents && intents[id] == Record(running, config) && active.None?
      ensures stop.Some? ==> intents == old(intents)
      ensures old(Orphaned(id)) ==>
                stop.Some? && stop.value.Refused?
                && manifests == old(manifests) && backups == old(backups) && log == old(log)
      ensures id !in old(backups) && active.None? && (manual ==> running <= {Nginx}) ==>
                Reached(id, left) && (left < 2 ==> stop == Some(Interrupted) && log == old(log))
      ensures old(backups) <= backups
      ensures left - 3 <= rest <= left && (stop == Some(Interrupted) ==> left < 3) && stop != Some(Done)
      ensures left >= 3 ==>
                (stop.None? <==>
                   && active.None? && (manual ==> running <= {Nginx})
                   && (if id in old(manifests)
                       then resume && manifestKnown && old(manifests)[id] == Record(running, config)
                       else id !in old(backups)))
    {
      hide At;
      rest := left;
      if active.Some? { return Some(Refused("another 0079 release owns the active pointer")), rest; }
      if manual && !(running <= {Nginx}) {
        return Some(Refused("manual 0079 release requires stopped application services")), rest;
      }
      if id in manifests {
        if !resume || !manifestKnown { return Some(Refused("0079 backup proof exists")), rest; }
        if manifests[id] != Record(running, config) {
          return Some(Refused("0079 cannot prove the original preparation boundary")), rest;
        }
      } else {
        stop, rest := RecordManifest(id, rest);
        if stop.Some? { return; }
      }
      if rest == 0 { return Some(Interrupted), rest; }
      PublishIntent(id);
      return None, rest - 1;
    }

    /** `prepare`, up to the active pointer. */
    method Prepare(id: string, resume: bool, manual: bool, manifestKnown: bool, left: nat)
      returns (stop: Option<Outcome>, rest: nat)
      requires Valid()
      modifies `backups, `manifests, `intents, `active, `log
      ensures Valid() && old(log) <= log
      ensures stop.None? ==>
                && id in intents && intents[id].config == config
                && (active == Some(id) || (active.None? && id in completed))
      ensures stop.None? ==>
                intents[id].restore == (if id in old(intents) then old(intents)[id].restore else running)
      ensures forall found, was | old(Within(id, found, was)) :: Within(id, found, was)
      ensures old(Orphaned(id)) ==>
                stop.Some? && stop.value.Refused?
                && manifests == old(manifests) && backups == old(backups) && log == old(log)
      ensures old(Admits(id, resume, manual, manifestKnown)) && id !in old(backups) ==>
                Reached(id, left) && (left < 2 ==> stop == Some(Interrupted) && log == old(log))
      ensures old(backups) <= backups && old(manifests).Keys <= manifests.Keys
      ensures rest <= left && (left >= 4 ==> rest >= left - 4 && stop != Some(Interrupted)) && stop != Some(Done)
      ensures left >= 4 ==> (stop.None? <==> old(Admits(id, resume, manual, manifestKnown)))
    {
      hide At;
      rest := left;
      if !resume {
        var refusal := Guard();
        if refusal.Some? { return Some(Refused(refusal.value)), rest; }
      }
      if id in intents {
        var refusal := CheckIntent(id, resume);
        if refusal.Some? { return Some(Refused(refusal.value)), rest; }
      } else {
        stop, rest := RecordIntent(id, resume, manual, manifestKnown, left);
        if stop.Some? { return; }
      }
      if id !in completed && active.None? {
        if rest == 0 { return Some(Interrupted), rest; }
        rest := rest - 1;
        ghost var before := log;
        active := Some(id);
        log := before + [Activated(id)];
        AtExtend(start, before, Activated(id));
      }
      return None, rest;
    }

    method StopService(id: string, service: Service, left: nat) returns (stop: Option<Outcome>, rest: nat)
      requires Valid() && active == Some(id) && id !in completed && MayStop(service, running)
      modifies `running, `log
      ensures Valid() && old(log) <= log
      ensures running == old(running) || running == old(running) - {service}
      ensures stop.None? ==> running == old(running) - {service}
      ensures stop.Some? ==> stop == Some(Interrupted) && left == 0
      ensures left - 1 <= rest <= left
    {
      hide At;
      rest := left;
      if service in running {
        if rest == 0 { return Some(Interrupted), rest; }
        rest := rest - 1;
        ghost var before := log;
        running := running - {service};
        log := before + [Stopped(id, service)];
        AtExtend(start, before, Stopped(id, service));
      }
      return None, rest;
    }

    /** Stop beat first, then, once the workers are drained, everything but nginx. */
    method Drain(id: string, left: nat) returns (stop: Option<Outcome>, rest: nat)
      requires Valid() && active == Some(id) && id !in completed
      modifies `running, `log
      ensures Valid() && old(log) <= log
      ensures running <= old(running) && (Nginx in old(running) ==> Nginx in running)
      ensures stop.None? ==> running == old(running) * {Nginx}
      ensures stop.Some? ==> stop == Some(Interrupted)
      ensures rest <= left && (left >= 5 ==> rest >= left - 5 && stop.None?)
    {
      hide At;
      stop, rest := StopService(id, Beat, left);
      if stop.Some? { return; }
      var order := [Worker, RaceLiveWorker, RaceSyncWorker, Web];
      ghost var was := running;
      for k := 0 to |order|
        invariant Valid() && old(log) <= log
        invariant running == was - Drained(k)
        invariant left - 1 - k <= rest <= left
      {
        OnlyWebIsLeft(was);
        stop, rest := StopService(id, order[k], rest);
        if stop.Some? { return; }
      }
      OnlyNginxIsLeft(old(running));
      return None, rest;
    }

    method StartService(id: string, service: Service, left: nat) returns (stop: Option<Outcome>, rest: nat)
      requires Valid() && id in intents && MayStart(service, running, intents[id].restore)
      requires active == Some(id) || (active.None? && id in completed)
      modifies `running, `log
      ensures Valid() && old(log) <= log
      ensures running == old(running) || running == old(running) + {service}
      ensures stop.None? ==> running == old(running) + {service}
      ensures stop.Some? ==> stop == Some(Interrupted) && left == 0
      ensures left - 1 <= rest <= left
    {
      hide At;
      rest := left;
      if service !in running {
        if rest == 0 { return Some(Interrupted), rest; }
        rest := rest - 1;
        ghost var before := log;
        running := running + {service};
        log := before + [Started(id, service)];
        AtExtend(start, before, Started(id, service));
      }
      return None, rest;
    }

    /** The restore loop of `finish`: start what was recorded, refuse what was not. */
    method Restore(id: string, left: nat) returns (stop: Option<Outcome>, rest: nat)
      requires Valid() && id in intents
      requires active == Some(id) || (active.None? && id in completed)
      modifies `running, `log
      ensures Valid() && old(log) <= log
      ensures old(running) <= running <= old(running) + intents[id].restore
      ensures stop.None? ==> running == intents[id].restore
      ensures stop == Some(Interrupted) ==> left < 6
      ensures left - 6 <= rest <= left
      ensures left >= 6 ==> (stop.None? <==> old(running) <= intents[id].restore)
      ensures stop != Some(Done)
    {
      hide At;
      var order := [Web, Worker, RaceSyncWorker, RaceLiveWorker, Beat, Nginx];
      ghost var restore := intents[id].restore;
      rest := left;
      for k := 0 to |order|
        invariant Valid() && old(log) <= log
        invariant old(running) <= running <= old(running) + restore
        invariant forall i | 0 <= i < k :: order[i] in running <==> order[i] in restore
        invariant forall i | 0 <= i < k :: order[i] in old(running) ==> order[i] in restore
        invariant left - k <= rest <= left
      {
        if order[k] !in intents[id].restore {
          if order[k] in running {
            return Some(Refused("0079 service is running outside the original restore intent")), rest;
          }
        } else {
          StartsInOrder(order, k, running, restore);
          stop, rest := StartService(id, order[k], rest);
          if stop.Some? { return; }
        }
      }
      forall service ensures service in running <==> service in restore {
        OrderIsComplete(order, service);
      }
      return None, rest;
    }

    /** `finish`: restore, compare, publish the completion, drop the pointer. */
    method Finish(id: string, left: nat) returns (o: Outcome)
      requires Valid() && id in intents && id in receipts
      requires active == Some(id) || (active.None? && id in completed)
      modifies `running, `completed, `active, `log
      ensures Valid() && old(log) <= log
      ensures o == Done ==>
                && running == intents[id].restore && config == intents[id].config
                && id in completed && active.None?
      ensures left >= 8 ==>
                o != Interrupted
                && (o == Done <==> old(running) <= intents[id].restore && config == intents[id].config)
      ensures forall found, was | old(Within(id, found, was)) :: Within(id, found, was)
    {
      hide At;
      var stop, rest := Restore(id, left);
      if stop.Some? { return stop.value; }
      if running != intents[id].restore || config != intents[id].config {
        return Refused("0079 final service/config state differs from original intent");
      }
      o := Complete(id, rest);
    }

    /** Publish the completion, then drop the pointer. */
    method Complete(id: string, left: nat) returns (o: Outcome)
      requires Valid() && id in intents && id in receipts
      requires active == Some(id) || (active.None? && id in completed)
      requires running == intents[id].restore && config == intents[id].config
      modifies `completed, `active, `log
      ensures Valid() && old(log) <= log
      ensures o == Done ==> id in completed && active.None?
      ensures o != Done ==> o == Interrupted && left < 2
      ensures active == old(active) || active.None?
    {
      hide At;
      var rest := left;
      if id !in completed {
        if rest == 0 { return Interrupted; }
        rest := rest - 1;
        ghost var before := log;
        completed := completed[id := running];
        log := before + [Completed(id)];
        AtExtend(start, before, Completed(id));
      }
      if active.Some? {
        if rest == 0 { return Interrupted; }
        ghost var before := log;
        active := None;
        log := before + [Closed(id)];
        AtExtend(start, before, Closed(id));
      }
      return Done;
    }

    /** Drain the services and let the release tasks publish their receipt, unless there is one. */
    method RunTasks(id: string, left: nat) returns (stop: Option<Outcome>, rest: nat)
      requires Valid() && (active == Some(id) || (active.None? && id in completed))
      modifies `running, `receipts, `log
      ensures Valid() && old(log) <= log
      ensures stop.None? ==>
                id in receipts && running == if id in old(receipts) then old(running) else old(running) * {Nginx}
      ensures stop.Some? ==> stop == Some(Interrupted)
      ensures rest <= left && (left >= 6 ==> rest >= left - 6 && stop.None?)
      ensures forall found, was | old(Within(id, found, was)) :: Within(id, found, was)
    {
      hide At;
      rest := left;
      if id in receipts { return None, rest; }
      stop, rest := Drain(id, rest);
      if stop.Some? { return; }
      if rest == 0 { return Some(Interrupted), rest; }
      receipts := receipts + {id};
      return None, rest - 1;
    }

    /** When an uninterrupted release ends well, by how far it has come before: nothing yet, its
        manifest, or its intent. */
    ghost predicate Completes(id: string, resume: bool, manual: bool, manifestKnown: bool)
      reads this
    {
      if id in intents then
        && resume && active in {None, Some(id)} && config == intents[id].config
        && (active.None? && id !in completed ==> running == intents[id].restore)
        && (forall service | service in running && (id in receipts || service == Nginx) ::
              service in intents[id].restore)
      else
        && active.None? && (manual ==> forall service | service in running :: service == Nginx)
        && (if id in manifests then resume && manifestKnown && running == manifests[id].restore
                                    && config == manifests[id].config
            else id !in backups && (resume || forall other | other in intents :: other in completed))
    }

    lemma CompletesMeans(id: string, resume: bool, manual: bool, manifestKnown: bool)
      requires Valid()
      ensures Completes(id, resume, manual, manifestKnown) <==>
                Admits(id, resume, manual, manifestKnown) && Restorable(id)
    {
      hide At;
      if id in manifests { assert manifests[id] == Record(manifests[id].restore, manifests[id].config); }
    }

    lemma FreshCompletes(id: string, resume: bool, manual: bool, manifestKnown: bool)
      requires Valid()
      ensures id !in backups ==>
                (Completes(id, resume, manual, manifestKnown) <==>
                   && active.None? && (resume || intents.Keys <= completed.Keys) && (manual ==> running <= {Nginx}))
    {
      hide At;
    }

    /** `release` and its resume entry. */
    method Release(id: string, resume: bool, manual: bool, manifestKnown: bool, left: nat)
      returns (o: Outcome)
      requires Valid()
      modifies this
      ensures Valid() && old(log) <= log
      ensures o == Done ==>
                && id in intents && running == intents[id].restore && config == intents[id].config
                && id in completed && active.None?
      ensures left >= Enough ==>
                (o == Done <==> old(Admits(id, resume, manual, manifestKnown)) && old(Restorable(id)))
      ensures left >= Enough ==> o != Interrupted
      ensures left >= Enough ==> (o == Done <==> old(Completes(id, resume, manual, manifestKnown)))
      ensures left >= Enough && id !in old(backups) ==>
                (o == Done <==>
                   && old(active).None? && (resume || old(intents).Keys <= old(completed).Keys)
                   && (manual ==> old(running) <= {Nginx}))
      ensures old(Orphaned(id)) ==>
                o.Refused? && Orphaned(id) && running == old(running) && log == old(log)
      ensures old(Admits(id, resume, manual, manifestKnown)) && id !in old(backups) ==>
                Reached(id, left) && (left < 2 ==> o == Interrupted && log == old(log))
      ensures old(backups) <= backups && old(manifests).Keys <= manifests.Keys
      ensures forall found, was | old(Within(id, found, was)) :: Within(id, found, was)
    {
      CompletesMeans(id, resume, manual, manifestKnown);
      FreshCompletes(id, resume, manual, manifestKnown);
      hide At;
      var stop, rest := Prepare(id, resume, manual, manifestKnown, left);
      if stop.Some? { return stop.value; }
      hide Admits, Within, Orphaned, Reached, Completes;
      stop, rest := RunTasks(id, rest);
      if stop.Some? { return stop.value; }
      o := Finish(id, rest);
    }

    /** A release that is admitted, interrupted any number of times anywhere and resumed ends with
        exactly the services and the configuration that it found, provided nobody else interferes.
        It completes unless the first call that got anything done got exactly the backup done: the
        backup then has no manifest, and the decision is left to the operator. */
    method ReleaseDespiteInterruptions(id: string, manual: bool, first: nat, lefts: seq<nat>)
      returns (o: Outcome)
      requires Valid() && Admits(id, false, manual, false)
      modifies this
      ensures Valid() && running == old(running) && config == old(config)
      ensures o == Done <==> FirstProgress(first, lefts, |lefts|) != 1
      ensures o == Done ==> id in completed && active.None?
      ensures o != Done ==> o.Refused? && Orphaned(id) && log == old(log)
    {
      hide At;
      o := Release(id, false, manual, false, first);
      for k := 0 to |lefts|
        invariant Valid() && Within(id, old(running), old(config))
        invariant id in backups <==> FirstProgress(first, lefts, k) >= 1
        invariant id in manifests <==> FirstProgress(first, lefts, k) >= 2
        invariant id !in manifests ==> log == old(log)
      {
        o := Release(id, true, manual, true, lefts[k]);
      }
      ghost var orphaned := Orphaned(id);
      o := Release(id, true, manual, true, Enough);
      assert !orphaned ==> o == Done;
    }

    /** The call that ends between the backup and its manifest strands the release: every later
        resume refuses, whatever it could have got done, and no service is ever touched. */
    method StrandedByBackup(id: string, manual: bool, lefts: seq<nat>) returns (outcomes: seq<Outcome>)
      requires Valid() && Admits(id, false, manual, false)
      modifies this
      ensures Valid() && Orphaned(id) && running == old(running) && log == old(log)
      ensures |outcomes| == |lefts| + 1 && outcomes[0] == Interrupted
      ensures forall k | 1 <= k < |outcomes| :: outcomes[k].Refused?
    {
      hide At;
      var o := Release(id, false, manual, false, 1);
      outcomes := [o];
      for k := 0 to |lefts|
        invariant Valid() && Orphaned(id) && running == old(running) && log == old(log)
        invariant |outcomes| == k + 1 && outcomes[0] == Interrupted
        invariant forall i | 1 <= i < |outcomes| :: outcomes[i].Refused?
      {
        o := Release(id, true, manual, true, lefts[k]);
        outcomes := outcomes + [o];
      }
    }

    /** What has to hold of the running services for a release to be able to end. */
    ghost predicate Restorable(id: string)
      reads this
    {
      var restore := if id in intents then intents[id].restore else running;
      (if id in receipts then running else running * {Nginx}) <= restore
    }
  }

  lemma StartsInOrder(order: seq<Service>, k: nat, running: set<Service>, restore: set<Service>)
    requires order == [Web, Worker, RaceSyncWorker, RaceLiveWorker, Beat, Nginx] && k < |order|
    requires order[k] in restore
    requires forall i | 0 <= i < k :: order[i] in running <==> order[i] in restore
    ensures MayStart(order[k], running, restore)
  {
    if k > 0 { assert order[0] in running <==> order[0] in restore; }
    if k == 5 {
      forall s | s in restore ensures s in running || s == Nginx {
        OrderIsComplete(order, s);
      }
    }
  }

  lemma OrderIsComplete(order: seq<Service>, service: Service)
    requires order == [Web, Worker, RaceSyncWorker, RaceLiveWorker, Beat, Nginx]
    ensures exists i :: 0 <= i < |order| && order[i] == service
  {
    match service
    case Web => assert order[0] == service;
    case Worker => assert order[1] == service;
    case RaceSyncWorker => assert order[2] == service;
    case RaceLiveWorker => assert order[3] == service;
    case Beat => assert order[4] == service;
    case Nginx => assert order[5] == service;
  }
}
