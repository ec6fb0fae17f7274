/** The checkpointed collector of official graded race results
    (runtime/research/collect_official_graded_race_results.py).

    The checkpoint, the response caches and the final output are durable; a run may be
    interrupted in front of any of its effects, of which it still gets `left`. */
module OfficialResults {
  import opened Wrappers

  type Body = string

  datatype Race = Race(key: string, provider: string, page: string)

  /** The cached response stands for its digest as well. */
  datatype Status = Success(body: Body) | RetryableError | DeterministicError(error: string)

  datatype Checkpoint = Checkpoint(items: map<string, Status>, counts: map<string, nat>)

  const EmptyCheckpoint := Checkpoint(map[], map[])

  datatype Reply = NetworkError | Refusal(error: string) | Response(body: Body)

  /** What one turn of the race loop meets: a time budget already spent, or a provider's reply. */
  datatype Turn = Turn(timeUp: bool, reply: Reply)

  datatype Outcome = Complete | Interrupted | Failed(error: string)

  /** Official rows of a cached page; none if the page does not parse. */
  type Parser = (Race, Body) -> Option<seq<string>>

  // ---------------------------------------------------------------- the manifest

  function RequestsUpTo(races: seq<Race>, provider: string, n: nat): nat
    requires n <= |races|
  {
    if n == 0 then 0
    else RequestsUpTo(races, provider, n - 1) + (if races[n - 1].provider == provider then 1 else 0)
  }

  function Requests(races: seq<Race>, provider: string): nat {
    RequestsUpTo(races, provider, |races|)
  }

  predicate DistinctRaces(races: seq<Race>, n: nat)
    requires n <= |races|
  {
    forall i, j | 0 <= i < j < n :: races[i].key != races[j].key
  }

  ghost predicate ManifestOk(races: seq<Race>, budgets: map<string, nat>) {
    && races != [] && DistinctRaces(races, |races|)
    && (forall race | race in races :: race.key != "" && race.provider in budgets)
    && (forall p | p in budgets :: Requests(races, p) <= budgets[p])
  }

  lemma {:induction false} RequestsMonotone(races: seq<Race>, provider: string, k: nat, n: nat)
    requires k <= n <= |races|
    ensures RequestsUpTo(races, provider, k) <= RequestsUpTo(races, provider, n)
    decreases n
  {
    if k < n { RequestsMonotone(races, provider, k, n - 1); }
  }

  /** The part of `load_manifest` that bounds the run: unique races within every request budget. */
  method LoadManifest(races: seq<Race>, budgets: map<string, nat>) returns (ok: bool)
    ensures ok <==> ManifestOk(races, budgets)
  {
    if races == [] { return false; }
    var seen: set<string> := {};
    var counts: map<string, nat> := map[];
    for n := 0 to |races|
      invariant DistinctRaces(races, n) && seen == set i | 0 <= i < n :: races[i].key
      invariant forall i | 0 <= i < n :: races[i].key != "" && races[i].provider in budgets
      invariant forall p :: RequestsUpTo(races, p, n) == if p in counts then counts[p] else 0
      invariant counts.Keys <= budgets.Keys
    {
      var race := races[n];
      assert race in races;
      if race.key == "" || race.key in seen { return false; }
      if race.provider !in budgets { return false; }
      seen := seen + {race.key};
      counts := counts[race.provider := (if race.provider in counts then counts[race.provider] else 0) + 1];
    }
    return forall p | p in counts :: counts[p] <= budgets[p];
  }

  // ---------------------------------------------------------------- checkpoint contents

  function CountOf(c: Checkpoint, provider: string): nat {
    if provider in c.counts then c.counts[provider] else 0
  }

  /** Statuses that no later run may change. */
  predicate Settled(c: Checkpoint, key: string) {
    key in c.items && !c.items[key].RetryableError?
  }

  predicate Succeeded(c: Checkpoint, key: string) {
    key in c.items && c.items[key].Success?
  }

  /** Fetches of a provider in a history of started fetches. */
  function Fetches(log: seq<Race>, provider: string): nat {
    if log == [] then 0
    else Fetches(log[..|log| - 1], provider) + (if log[|log| - 1].provider == provider then 1 else 0)
  }

  lemma FetchesSnoc(log: seq<Race>, race: Race, provider: string)
    ensures Fetches(log + [race], provider)
            == Fetches(log, provider) + (if race.provider == provider then 1 else 0)
  {
    assert (log + [race])[..|log|] == log;
  }

  /** The rows of the first `n` races, if every one of them succeeded with a page that parses. */
  function OutputUpTo(races: seq<Race>, parse: Parser, items: map<string, Status>, n: nat): Option<seq<string>>
    requires n <= |races|
  {
    if n == 0 then Some([])
    else
      var race, before := races[n - 1], OutputUpTo(races, parse, items, n - 1);
      if before.None? || race.key !in items || !items[race.key].Success? then None
      else
        var rows := parse(race, items[race.key].body);
        if rows.None? then None else Some(before.value + rows.value)
  }

  lemma {:induction false} OutputNeedsSuccess(races: seq<Race>, parse: Parser, items: map<string, Status>, n: nat)
    requires n <= |races| && OutputUpTo(races, parse, items, n).Some?
    ensures forall i | 0 <= i < n :: races[i].key in items && items[races[i].key].Success?
  {
    if n > 0 { OutputNeedsSuccess(races, parse, items, n - 1); }
  }

  /** Requests of the races that have not succeeded yet. */
  function PendingUpTo(races: seq<Race>, c: Checkpoint, provider: string, n: nat): nat
    requires n <= |races|
  {
    if n == 0 then 0
    else PendingUpTo(races, c, provider, n - 1)
         + (if races[n - 1].provider == provider && !Succeeded(c, races[n - 1].key) then 1 else 0)
  }

  class Collector {
    const races: seq<Race>
    const budgets: map<string, nat>
    /** How a fetched page parses, and how its cached file does when the output is made. */
    const parse: Parser
    const render: Parser
    var file: Option<Checkpoint>
    var caches: map<string, Body>
    var output: Option<seq<string>>
    ghost var log: seq<Race>

    ghost function Loaded(): Checkpoint
      reads `file
    {
      if file.None? then EmptyCheckpoint else file.value
    }

    function RaceKeys(): set<string> {
      set race | race in races :: race.key
    }

    function Providers(): set<string> {
      set race | race in races :: race.provider
    }

    /** What `_validate_checkpoint_state` asks of a checkpoint. */
    predicate StateOk(c: Checkpoint) {
      && c.items.Keys <= RaceKeys() && c.counts.Keys <= Providers()
      && forall p | p in c.counts :: p in budgets && c.counts[p] <= budgets[p]
    }

    ghost predicate CheckpointOk(c: Checkpoint)
      reads `caches
    {
      && StateOk(c)
      && (forall key | Succeeded(c, key) :: key in caches && caches[key] == c.items[key].body)
    }

    ghost predicate Valid()
      reads this
    {
      && ManifestOk(races, budgets) && CheckpointOk(Loaded())
      && (forall p :: Fetches(log, p) <= CountOf(Loaded(), p))
      && (output.Some? ==> output == OutputUpTo(races, render, Loaded().items, |races|))
    }

    constructor (races: seq<Race>, budgets: map<string, nat>, parse: Parser, render: Parser)
      requires ManifestOk(races, budgets)
      ensures Valid() && file.None? && output.None? && log == [] && caches == map[]
      ensures this.races == races && this.budgets == budgets && this.parse == parse && this.render == render
    {
      this.races, this.budgets, this.parse, this.render := races, budgets, parse, render;
      file, caches, output, log := None, map[], None, [];
    }

    /** Final output exists only if every race of the manifest succeeded. */
    lemma OutputIsComplete()
      requires Valid() && output.Some?
      ensures forall race | race in races :: Succeeded(Loaded(), race.key)
    {
      OutputNeedsSuccess(races, render, Loaded().items, |races|);
    }

    lemma Budgeted(race: Race)
      requires ManifestOk(races, budgets) && race in races
      ensures race.provider in budgets
    {}

    method WriteCheckpoint(c: Checkpoint)
      modifies `file
      ensures file == Some(c)
    {
      file := Some(c);
    }

    /** The request count is durable before the request starts. */
    method StartFetch(race: Race, c: Checkpoint, left: nat) returns (interrupted: bool, c': Checkpoint, rest: nat)
      requires Valid() && c == Loaded() && race in races && !Settled(c, race.key) && output.None?
      requires CountOf(c, race.provider) < budgets[race.provider]
      modifies `file, `log
      ensures Valid() && c' == c.(counts := c.counts[race.provider := CountOf(c, race.provider) + 1])
      ensures Loaded() == c || Loaded() == c'
      ensures log == old(log) || log == old(log) + [race]
      ensures !interrupted ==> Loaded() == c' && file.Some?
      ensures left - 2 <= rest <= left && (left >= 2 ==> !interrupted)
    {
      hide Fetches, OutputUpTo, DistinctRaces, Requests;
      c' := c.(counts := c.counts[race.provider := CountOf(c, race.provider) + 1]);
      if left == 0 { return true, c', 0; }
      WriteCheckpoint(c');
      if left == 1 { return true, c', 0; }
      log := log + [race];
      forall p ensures Fetches(log, p) == Fetches(old(log), p) + (if p == race.provider then 1 else 0) {
        FetchesSnoc(old(log), race, p);
      }
      return false, c', left - 2;
    }

    /** Everything but the item of this race, and counts that only grow. */
    ghost predicate Extends(c: Checkpoint, c': Checkpoint, key: string) {
      && c'.items - {key} == c.items - {key}
      && (forall p :: CountOf(c, p) <= CountOf(c', p))
    }

    /** The status that a reply gives a race, unless its cache disagrees with the body. */
    function StatusFor(race: Race, reply: Reply): Status {
      match reply
      case NetworkError => RetryableError
      case Refusal(error) => DeterministicError(error)
      case Response(body) =>
        if parse(race, body).None? then DeterministicError("deterministic parse error") else Success(body)
    }

    /** A body is kept only if no different one was kept before. */
    predicate Fits(kept: map<string, Body>, race: Race, reply: Reply) {
      reply.Response? && parse(race, reply.body).Some? && race.key in kept ==> kept[race.key] == reply.body
    }

    /** Which status each reply leads to: only a network error may be retried. */
    ghost predicate Classified(race: Race, reply: Reply, kept: map<string, Body>, c: Checkpoint,
                               o: Option<Outcome>, c': Checkpoint, kept': map<string, Body>)
    {
      && (reply.NetworkError? ==>
            && o == Some(Failed("temporary network error")) && kept' == kept
            && c' == c.(items := c.items[race.key := RetryableError]))
      && (reply.Refusal? ==>
            && o == Some(Failed(reply.error)) && kept' == kept
            && c' == c.(items := c.items[race.key := DeterministicError(reply.error)]))
      && (reply.Response? && parse(race, reply.body).None? ==>
            && o == Some(Failed("deterministic parse error")) && kept' == kept
            && c' == c.(items := c.items[race.key := DeterministicError("deterministic parse error")]))
      && (reply.Response? && parse(race, reply.body).Some? && race.key in kept && kept[race.key] != reply.body ==>
            o == Some(Failed("source cache content drift")) && kept' == kept && c' == c)
      && (reply.Response? && parse(race, reply.body).Some? && (race.key in kept ==> kept[race.key] == reply.body) ==>
            && o == None && kept' == kept[race.key := reply.body]
            && c' == c.(items := c.items[race.key := Success(reply.body)]))
    }

    /** What follows a fetch: classify the reply, keep the body, write the status. */
    method RecordReply(race: Race, reply: Reply, c: Checkpoint, left: nat)
      returns (o: Option<Outcome>, c': Checkpoint, rest: nat)
      requires Valid() && file == Some(c) && race in races && !Settled(c, race.key) && output.None?
      modifies `file, `caches
      ensures Valid() && Extends(c, Loaded(), race.key) && Loaded().counts == c.counts
      ensures o.None? ==> Succeeded(Loaded(), race.key) && c' == Loaded()
      ensures o != Some(Complete)
      ensures caches - {race.key} == old(caches) - {race.key}
      ensures left - 2 <= rest <= left
      ensures left >= 2 ==>
                && o != Some(Interrupted)
                && (o.None? <==> StatusFor(race, reply).Success? && Fits(old(caches), race, reply))
                && (Fits(old(caches), race, reply) ==>
                      Loaded().items == c.items[race.key := StatusFor(race, reply)])
                && (!Fits(old(caches), race, reply) ==> Loaded() == c)
      ensures left >= 2 ==> Classified(race, reply, old(caches), c, o, Loaded(), caches)
    {
      hide Fetches, OutputUpTo, ManifestOk;
      c', rest := c, left;
      var status := StatusFor(race, reply);
      if status.Success? {
        if race.key in caches {
          if caches[race.key] != reply.body { return Some(Failed("source cache content drift")), c', rest; }
        } else {
          if rest == 0 { return Some(Interrupted), c', rest; }
          rest := rest - 1;
          caches := caches[race.key := reply.body];
        }
      }
      if rest == 0 { return Some(Interrupted), c', rest; }
      rest := rest - 1;
      c' := c.(items := c.items[race.key := status]);
      WriteCheckpoint(c');
      match status
      case Success(_) => return None, c', rest;
      case RetryableError => return Some(Failed("temporary network error")), c', rest;
      case DeterministicError(error) => return Some(Failed(error)), c', rest;
    }

    /** One unsettled race: check the budget, count, fetch, record. */
    method Attempt(race: Race, reply: Reply, c: Checkpoint, left: nat)
      returns (o: Option<Outcome>, c': Checkpoint, rest: nat)
      requires Valid() && c == Loaded() && race in races && !Settled(c, race.key) && output.None?
      modifies `file, `caches, `log
      ensures Valid() && Extends(c, Loaded(), race.key)
      ensures log == old(log) || log == old(log) + [race]
      ensures o.None? ==> Succeeded(Loaded(), race.key) && c' == Loaded()
      ensures o != Some(Complete)
      ensures caches - {race.key} == old(caches) - {race.key}
      ensures left - 4 <= rest <= left
      ensures o.None? ==>
                Loaded().counts == c.counts[race.provider := CountOf(c, race.provider) + 1]
      ensures left >= 4 ==>
                && o != Some(Interrupted)
                && (o.None? <==>
                      && CountOf(c, race.provider) < budgets[race.provider]
                      && StatusFor(race, reply).Success? && Fits(old(caches), race, reply))
    {
      hide Fetches, OutputUpTo, ManifestOk, StatusFor, Fits, Classified;
      assert race.provider in budgets by { Budgeted(race); }
      c', rest := c, left;
      if CountOf(c, race.provider) >= budgets[race.provider] {
        if rest == 0 { return Some(Interrupted), c', rest; }
        c' := c.(items := c.items[race.key := DeterministicError("cumulative provider request budget exhausted")]);
        WriteCheckpoint(c');
        return Some(Failed("cumulative provider request budget exhausted")), c', rest - 1;
      }
      var interrupted;
      interrupted, c', rest := StartFetch(race, c, left);
      if interrupted { return Some(Interrupted), c', rest; }
      o, c', rest := RecordReply(race, reply, c', rest);
    }

    /** One turn of the race loop. */
    method TakeTurn(race: Race, turn: Turn, c: Checkpoint, left: nat)
      returns (o: Option<Outcome>, c': Checkpoint, rest: nat)
      requires Valid() && c == Loaded() && race in races
      modifies `file, `caches, `log
      ensures Valid() && Extends(c, Loaded(), race.key)
      ensures Settled(c, race.key) ==> Loaded() == c && log == old(log) && caches == old(caches)
      ensures log == old(log) || log == old(log) + [race]
      ensures o.None? ==> Succeeded(Loaded(), race.key) && c' == Loaded()
      ensures o != Some(Complete)
      ensures caches - {race.key} == old(caches) - {race.key}
      ensures left - 4 <= rest <= left
      ensures o.None? && !Succeeded(c, race.key) ==>
                Loaded().counts == c.counts[race.provider := CountOf(c, race.provider) + 1]
      ensures left >= 4 ==>
                && o != Some(Interrupted)
                && (o.None? <==>
                      || Succeeded(c, race.key)
                      || (&& !Settled(c, race.key) && !turn.timeUp
                          && CountOf(c, race.provider) < budgets[race.provider]
                          && StatusFor(race, turn.reply).Success? && Fits(old(caches), race, turn.reply)))
    {
      hide Fetches, OutputUpTo, DistinctRaces, Requests, StatusFor;
      c', rest := c, left;
      if Succeeded(c, race.key) {
        if race.key !in caches || caches[race.key] != c.items[race.key].body {
          return Some(Failed("checkpoint cache identity mismatch")), c', rest;
        }
        return None, c', rest;
      }
      if Settled(c, race.key) { return Some(Failed("checkpoint contains deterministic error")), c', rest; }
      if turn.timeUp {
        if rest == 0 { return Some(Interrupted), c', rest; }
        WriteCheckpoint(c);
        return Some(Failed("time budget reached at checkpoint boundary")), c', rest - 1;
      }
      if output.Some? { OutputIsComplete(); }
      o, c', rest := Attempt(race, turn.reply, c, left);
    }

    /** The output loop: every race has to have succeeded, with its cache intact and readable. */
    method CollectRows(c: Checkpoint) returns (rows: Option<seq<string>>)
      requires Valid() && c == Loaded()
      ensures rows == OutputUpTo(races, render, c.items, |races|)
    {
      hide ManifestOk, Fetches;
      var all := [];
      for n := 0 to |races|
        invariant OutputUpTo(races, render, c.items, n) == Some(all)
      {
        var race := races[n];
        if !Succeeded(c, race.key) || race.key !in caches || caches[race.key] != c.items[race.key].body {
          NoOutput(c, n + 1);
          return None;
        }
        var page := render(race, caches[race.key]);
        if page.None? {
          NoOutput(c, n + 1);
          return None;
        }
        all := all + page.value;
      }
      return Some(all);
    }

    lemma {:induction false} NoOutputBeyond(c: Checkpoint, k: nat, n: nat)
      requires k <= n <= |races| && OutputUpTo(races, render, c.items, k).None?
      ensures OutputUpTo(races, render, c.items, n).None?
      decreases n
    {
      if k < n { NoOutputBeyond(c, k, n - 1); }
    }

    lemma NoOutput(c: Checkpoint, k: nat)
      requires k <= |races| && OutputUpTo(races, render, c.items, k).None?
      ensures OutputUpTo(races, render, c.items, |races|).None?
    {
      NoOutputBeyond(c, k, |races|);
    }

    /** Nothing that an earlier run settled is changed or asked for again. */
    ghost predicate Keeps(c: Checkpoint, asked: seq<Race>, c': Checkpoint, asked': seq<Race>) {
      && asked <= asked'
      && (forall key | Settled(c, key) :: key in c'.items && c'.items[key] == c.items[key])
      && (forall i | |asked| <= i < |asked'| :: !Settled(c, asked'[i].key))
      && (forall p :: CountOf(c, p) <= CountOf(c', p))
    }

    lemma KeepsThen(c: Checkpoint, asked: seq<Race>, c1: Checkpoint, asked1: seq<Race>,
                    c2: Checkpoint, asked2: seq<Race>, race: Race)
      requires Keeps(c, asked, c1, asked1)
      requires Extends(c1, c2, race.key)
      requires Settled(c1, race.key) ==> c2 == c1 && asked2 == asked1
      requires asked2 == asked1 || asked2 == asked1 + [race]
      ensures Keeps(c, asked, c2, asked2)
    {
      forall key | Settled(c, key) ensures key in c2.items && c2.items[key] == c.items[key] {
        if key != race.key {
          assert key in c1.items - {race.key};
          assert key in c2.items - {race.key} && (c2.items - {race.key})[key] == (c1.items - {race.key})[key];
        }
      }
    }

    /** The races before `n` have succeeded, the others are as the run found them, and every race
        that was pending has cost one request. */
    ghost predicate Advanced(c0: Checkpoint, c: Checkpoint, n: nat)
      requires n <= |races|
    {
      && (forall i | 0 <= i < n :: Succeeded(c, races[i].key))
      && (forall i | n <= i < |races| ::
            && (races[i].key in c.items <==> races[i].key in c0.items)
            && (races[i].key in c.items ==> c.items[races[i].key] == c0.items[races[i].key]))
      && (forall p :: CountOf(c, p) == CountOf(c0, p) + PendingUpTo(races, c0, p, n))
    }

    /** The run can still pay for every race that has not succeeded, and none is settled as failed. */
    ghost predicate Affordable(c: Checkpoint) {
      && (forall race | race in races :: Settled(c, race.key) ==> Succeeded(c, race.key))
      && (forall p | p in budgets :: CountOf(c, p) + PendingUpTo(races, c, p, |races|) <= budgets[p])
    }

    /** No turn runs out of time, every reply is a page that parses and fits its cache. */
    predicate GoodTurn(kept: map<string, Body>, race: Race, turn: Turn) {
      !turn.timeUp && StatusFor(race, turn.reply).Success? && Fits(kept, race, turn.reply)
    }

    /** A good turn is one in time with a page that parses and is the one kept before, if any was. */
    lemma GoodTurnMeans(kept: map<string, Body>, race: Race, turn: Turn)
      ensures GoodTurn(kept, race, turn) <==>
                && !turn.timeUp && turn.reply.Response? && parse(race, turn.reply.body).Some?
                && (race.key in kept ==> kept[race.key] == turn.reply.body)
    {}

    ghost predicate GoodTurns(kept: map<string, Body>, world: nat -> Turn) {
      forall i | 0 <= i < |races| :: GoodTurn(kept, races[i], world(i))
    }

    /** The caches of the races from `n` on are as they were. */
    ghost predicate CachesKept(kept: map<string, Body>, now: map<string, Body>, n: nat)
      requires n <= |races|
    {
      forall i | n <= i < |races| ::
        && (races[i].key in now <==> races[i].key in kept)
        && (races[i].key in now ==> now[races[i].key] == kept[races[i].key])
    }

    lemma CachesStayKept(kept: map<string, Body>, before: map<string, Body>, now: map<string, Body>, n: nat)
      requires n < |races| && DistinctRaces(races, |races|) && CachesKept(kept, before, n)
      requires now - {races[n].key} == before - {races[n].key}
      ensures CachesKept(kept, now, n + 1)
    {
      forall i | n < i < |races|
        ensures races[i].key in now <==> races[i].key in before
        ensures races[i].key in now ==> now[races[i].key] == before[races[i].key]
      {
        var key := races[i].key;
        assert key != races[n].key;
        assert key in now - {races[n].key} <==> key in before - {races[n].key};
        assert key in now ==> (now - {races[n].key})[key] == (before - {races[n].key})[key];
      }
    }

    lemma GoodHere(kept: map<string, Body>, now: map<string, Body>, n: nat, world: nat -> Turn)
      requires n < |races| && CachesKept(kept, now, n) && GoodTurns(kept, world)
      ensures GoodTurn(now, races[n], world(n))
    {
      hide StatusFor;
      assert GoodTurn(kept, races[n], world(n));
    }

    lemma Advance(c0: Checkpoint, c: Checkpoint, c': Checkpoint, n: nat)
      requires n < |races| && DistinctRaces(races, |races|) && Advanced(c0, c, n)
      requires Extends(c, c', races[n].key) && Succeeded(c', races[n].key)
      requires if Succeeded(c, races[n].key) then c' == c
               else c'.counts == c.counts[races[n].provider := CountOf(c, races[n].provider) + 1]
      ensures Advanced(c0, c', n + 1)
    {
      forall i | 0 <= i < |races| && i != n
        ensures races[i].key in c'.items <==> races[i].key in c.items
        ensures races[i].key in c'.items ==> c'.items[races[i].key] == c.items[races[i].key]
      {
        var key := races[i].key;
        assert key != races[n].key;
        assert key in c'.items - {races[n].key} <==> key in c.items - {races[n].key};
        assert key in c.items ==> (c'.items - {races[n].key})[key] == (c.items - {races[n].key})[key];
      }
    }

    lemma {:induction false} PendingMonotone(c: Checkpoint, p: string, k: nat, n: nat)
      requires k <= n <= |races|
      ensures PendingUpTo(races, c, p, k) <= PendingUpTo(races, c, p, n)
      decreases n
    {
      if k < n { PendingMonotone(c, p, k, n - 1); }
    }

    /** In an affordable run no race meets an exhausted budget. */
    lemma TurnIsPaid(c0: Checkpoint, c: Checkpoint, n: nat)
      requires n < |races| && Advanced(c0, c, n) && races[n].provider in budgets
      requires !Succeeded(c0, races[n].key)
      ensures Affordable(c0) ==> !Settled(c, races[n].key) && CountOf(c, races[n].provider) < budgets[races[n].provider]
      ensures CountOf(c, races[n].provider) >= budgets[races[n].provider] ==> !Affordable(c0)
    {
      PendingMonotone(c0, races[n].provider, n + 1, |races|);
      assert races[n] in races;
    }

    lemma EverySucceeded(c0: Checkpoint, c: Checkpoint)
      requires Advanced(c0, c, |races|) && CheckpointOk(c)
      requires forall race | race in races :: Settled(c0, race.key) ==> Succeeded(c0, race.key)
      ensures Affordable(c0)
    {}

    lemma StartOfLoop(c: Checkpoint, kept: map<string, Body>)
      ensures Advanced(c, c, 0) && CachesKept(kept, kept, 0)
      ensures forall asked :: Keeps(c, asked, c, asked)
    {}

    /** The loop over the races. */
    method VisitRaces(world: nat -> Turn, left: nat) returns (o: Option<Outcome>, rest: nat)
      requires Valid()
      modifies `file, `caches, `log
      ensures Valid() && Keeps(old(Loaded()), old(log), Loaded(), log)
      ensures o != Some(Complete)
      ensures o.None? ==> forall race | race in races :: Succeeded(Loaded(), race.key)
      ensures left - 4 * |races| <= rest <= left
      ensures left >= 4 * |races| ==> o != Some(Interrupted)
      ensures left >= 4 * |races| && GoodTurns(old(caches), world) ==>
                (o.None? <==> Affordable(old(Loaded())))
    {
      hide Fetches, OutputUpTo, Requests, StatusFor, PendingUpTo, Fits, CachesKept, Advanced, GoodTurns, Extends,
           CheckpointOk, Keeps, Affordable, DistinctRaces;
      var c := if file.None? then EmptyCheckpoint else file.value;
      ghost var c0, kept := c, caches;
      rest := left;
      StartOfLoop(c, caches);
      for n := 0 to |races|
        invariant Valid() && c == Loaded() && Keeps(c0, old(log), c, log)
        invariant Advanced(c0, c, n) && CachesKept(kept, caches, n)
        invariant forall i | 0 <= i < n :: Settled(c0, races[i].key) ==> Succeeded(c0, races[i].key)
        invariant left - 4 * n <= rest <= left
      {
        ghost var c1, asked, before := c, log, caches;
        StillAsFound(c0, c, n);
        if !Succeeded(c0, races[n].key) { TurnIsPaid(c0, c, n); }
        if GoodTurns(kept, world) { GoodHere(kept, caches, n, world); }
        o, c, rest := TakeTurn(races[n], world(n), c, rest);
        KeepsThen(c0, old(log), c1, asked, Loaded(), log, races[n]);
        if o.Some? { return; }
        Advance(c0, c1, c, n);
        CachesStayKept(kept, before, caches, n);
      }
      AllSucceeded(c0, c);
      EverySucceeded(c0, c);
      return None, rest;
    }

    lemma StillAsFound(c0: Checkpoint, c: Checkpoint, n: nat)
      requires n < |races| && Advanced(c0, c, n)
      ensures Settled(c, races[n].key) == Settled(c0, races[n].key)
      ensures Succeeded(c, races[n].key) == Succeeded(c0, races[n].key)
      ensures Affordable(c0) && Settled(c0, races[n].key) ==> Succeeded(c0, races[n].key)
    {
      assert races[n] in races;
    }

    lemma AllSucceeded(c0: Checkpoint, c: Checkpoint)
      requires Advanced(c0, c, |races|)
      ensures forall race | race in races :: Succeeded(c, race.key)
    {}

    /** Load the checkpoint and validate its state.  Whatever earlier runs left behind, interrupted
        or not, passes; only a resume that was not asked for is refused. */
    method LoadCheckpoint(resume: bool) returns (r: Result<Checkpoint, string>)
      requires ManifestOk(races, budgets)
      ensures r.Ok? <==> file.None? || (resume && StateOk(file.value))
      ensures r.Ok? ==> r.value == Loaded()
      ensures Valid() ==> (r.Ok? <==> file.None? || resume)
    {
      if file.None? { return Ok(EmptyCheckpoint); }
      if !resume { return Err("checkpoint exists but --resume was not supplied"); }
      var c := file.value;
      if !(c.items.Keys <= RaceKeys()) { return Err("checkpoint contains race outside manifest"); }
      if !(c.counts.Keys <= Providers()) { return Err("checkpoint contains provider outside manifest"); }
      if exists p | p in c.counts :: c.counts[p] > budgets[p] {
        return Err("checkpoint provider request count is invalid");
      }
      return Ok(c);
    }

    /** `run`, after the manifest has been loaded. */
    method Run(resume: bool, world: nat -> Turn, left: nat) returns (o: Outcome)
      requires Valid()
      modifies `file, `caches, `log, `output
      ensures Valid() && Keeps(old(Loaded()), old(log), Loaded(), log)
      ensures old(file).Some? && !resume ==>
                && o.Failed? && file == old(file) && caches == old(caches)
                && log == old(log) && output == old(output)
      ensures old(output).Some? ==> output == old(output)
      ensures o == Complete ==> output.Some?
      ensures left > 4 * |races| ==> o != Interrupted
      ensures left > 4 * |races| && GoodTurns(old(caches), world) ==>
                (o == Complete <==>
                   && (old(file).None? || resume) && Affordable(old(Loaded()))
                   && OutputUpTo(races, render, Loaded().items, |races|).Some?)
    {
      hide Fetches, Requests, GoodTurns, Affordable, CheckpointOk, OutputUpTo;
      NothingIsKept(Loaded(), log);
      var loaded := LoadCheckpoint(resume);
      if loaded.Err? { return Failed(loaded.error); }
      ghost var c0, asked := Loaded(), log;
      var stopped, rest := VisitRaces(world, left);
      SameOutput(c0, asked, Loaded(), log);
      if stopped.Some? { return stopped.value; }
      var rows := CollectRows(if file.None? then EmptyCheckpoint else file.value);
      if rows.None? { return Failed("official source does not parse"); }
      if rest == 0 { return Interrupted; }
      output := rows;
      return Complete;
    }

    lemma NothingIsKept(c: Checkpoint, asked: seq<Race>)
      ensures Keeps(c, asked, c, asked)
    {}

    lemma {:induction false} OutputLasts(c: Checkpoint, c': Checkpoint, n: nat)
      requires n <= |races| && OutputUpTo(races, render, c.items, n).Some?
      requires forall key | Settled(c, key) :: key in c'.items && c'.items[key] == c.items[key]
      ensures OutputUpTo(races, render, c'.items, n) == OutputUpTo(races, render, c.items, n)
    {
      if n > 0 {
        OutputLasts(c, c', n - 1);
        assert Settled(c, races[n - 1].key);
      }
    }

    /** An output once made stays the output of every later checkpoint. */
    lemma SameOutput(c: Checkpoint, asked: seq<Race>, c': Checkpoint, asked': seq<Race>)
      requires Keeps(c, asked, c', asked')
      ensures OutputUpTo(races, render, c.items, |races|).Some? ==>
                OutputUpTo(races, render, c'.items, |races|) == OutputUpTo(races, render, c.items, |races|)
    {
      if OutputUpTo(races, render, c.items, |races|).Some? { OutputLasts(c, c', |races|); }
    }

    lemma KeepsAll(c: Checkpoint, asked: seq<Race>, c1: Checkpoint, asked1: seq<Race>,
                   c2: Checkpoint, asked2: seq<Race>)
      requires Keeps(c, asked, c1, asked1) && Keeps(c1, asked1, c2, asked2)
      ensures Keeps(c, asked, c2, asked2)
    {
      forall i | |asked| <= i < |asked2| ensures !Settled(c, asked2[i].key) {
        if i < |asked1| { assert asked2[i] == asked1[i]; }
      }
    }

    /** Any number of runs, each interrupted anywhere: the request budgets hold, whatever was
        settled stays settled and is never asked for again, and output needs every race. */
    method RunAll(calls: seq<Call>)
      requires Valid()
      modifies `file, `caches, `log, `output
      ensures Valid() && Keeps(old(Loaded()), old(log), Loaded(), log)
      ensures forall p | p in budgets :: Fetches(log, p) <= CountOf(Loaded(), p) <= budgets[p]
      ensures output.Some? ==> forall race | race in races :: Succeeded(Loaded(), race.key)
      ensures old(output).Some? ==> output == old(output)
    {
      NothingIsKept(Loaded(), log);
      for k := 0 to |calls|
        invariant Valid() && Keeps(old(Loaded()), old(log), Loaded(), log)
        invariant old(output).Some? ==> output == old(output)
      {
        ghost var c, asked := Loaded(), log;
        var _ := Run(calls[k].resume, calls[k].world, calls[k].left);
        KeepsAll(old(Loaded()), old(log), c, asked, Loaded(), log);
      }
      if output.Some? { OutputIsComplete(); }
    }

    lemma {:induction false} FreshPending(p: string, n: nat)
      requires n <= |races|
      ensures PendingUpTo(races, EmptyCheckpoint, p, n) == RequestsUpTo(races, p, n)
    {
      if n > 0 { FreshPending(p, n - 1); }
    }

    /** The manifest check is exactly what a first run without retries needs. */
    lemma FreshIsAffordable()
      requires forall race | race in races :: race.provider in budgets
      ensures Affordable(EmptyCheckpoint) <==> forall p | p in budgets :: Requests(races, p) <= budgets[p]
    {
      forall p ensures PendingUpTo(races, EmptyCheckpoint, p, |races|) == Requests(races, p) {
        FreshPending(p, |races|);
      }
    }

    lemma {:induction false} SamePending(c: Checkpoint, c': Checkpoint, p: string, n: nat)
      requires n <= |races| && forall key :: Succeeded(c, key) == Succeeded(c', key)
      ensures PendingUpTo(races, c, p, n) == PendingUpTo(races, c', p, n)
    {
      if n > 0 { SamePending(c, c', p, n - 1); }
    }

    /** A temporary failure costs a request that the manifest check did not reserve: afterwards the
        collection can only complete if the provider's budget had one to spare. */
    lemma RetryNeedsSlack(c: Checkpoint, race: Race)
      requires race in races && race.provider in budgets && Affordable(c) && !Settled(c, race.key)
      ensures var c' := Checkpoint(c.items[race.key := RetryableError],
                                   c.counts[race.provider := CountOf(c, race.provider) + 1]);
        Affordable(c') <==>
          CountOf(c, race.provider) + PendingUpTo(races, c, race.provider, |races|) < budgets[race.provider]
    {
      var c' := Checkpoint(c.items[race.key := RetryableError],
                           c.counts[race.provider := CountOf(c, race.provider) + 1]);
      forall p ensures PendingUpTo(races, c, p, |races|) == PendingUpTo(races, c', p, |races|) {
        SamePending(c, c', p, |races|);
      }
    }
  }

  datatype Call = Call(resume: bool, world: nat -> Turn, left: nat)
}
