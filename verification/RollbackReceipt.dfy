/** Completing a rollback control receipt (deploy/create_rollback_control_state.py).

    The receipt moves from its active to its completed name by link, check and unlink.  Nothing
    serialises the processes that do this, so each one is a program counter over one shared
    directory, and a schedule interleaves them with power losses.  Directory changes reach the
    disk in order; a power loss keeps some prefix of those not yet synced. */
module RollbackReceipt {

  datatype Name = Active | Completed

  type Inode = nat

  type Dir = map<Name, Inode>

  datatype Op = LinkCompleted | UnlinkActive

  function Apply(d: Dir, op: Op): Dir {
    match op
    case LinkCompleted => if Active in d && Completed !in d then d[Completed := d[Active]] else d
    case UnlinkActive => d - {Active}
  }

  function Replay(d: Dir, ops: seq<Op>): Dir {
    if ops == [] then d else Apply(Replay(d, ops[..|ops| - 1]), ops[|ops| - 1])
  }

  lemma ReplayExtend(d: Dir, ops: seq<Op>, op: Op)
    ensures Replay(d, ops + [op]) == Apply(Replay(d, ops), op)
  {
    assert (ops + [op])[..|ops + [op]| - 1] == ops;
  }

  lemma OnlyCompleted(d: Dir)
    requires Active !in d && Completed in d
    ensures d == map[Completed := d[Completed]]
  {
    forall n | n in d ensures n == Completed {
      match n
      case Active => assert false;
      case Completed =>
    }
  }

  datatype Result = AlreadyCompleted | CompletedNow | Failed

  /** Where one `complete_main` process stands and what it has read so far. */
  datatype Process =
    | Start
    | LookUpCompleted(sawActive: bool)
    | ReadCompleted(sawActive: bool)
    | CompareActive(inode: Inode)
    | UnlinkSame(inode: Inode)
    | ReadActive
    | Link(inode: Inode)
    | SyncLink(inode: Inode)
    | CheckCompleted(inode: Inode)
    | UnlinkLinked(inode: Inode)
    | SyncUnlink
    | Finished(result: Result)

  /** What a process may rely on although other processes keep running. */
  ghost predicate Knows(p: Process, d: Dir) {
    match p
    case CompareActive(inode) => Completed in d && d[Completed] == inode
    case UnlinkSame(_) | UnlinkLinked(_) =>
      && Completed in d && d[Completed] == p.inode
      && (Active in d ==> d[Active] == p.inode)
    case Link(inode) => Active in d ==> d[Active] == inode
    case SyncLink(_) | CheckCompleted(_) =>
      && Completed in d && (Active in d ==> d[Active] == p.inode)
    case SyncUnlink => Completed in d && Active !in d
    case _ => true
  }

  /** Rank of a program counter: every step of a process moves it closer to its end. */
  function Rank(p: Process): nat {
    match p
    case Start => 9
    case LookUpCompleted(_) => 8
    case ReadCompleted(_) => 4
    case CompareActive(_) => 3
    case UnlinkSame(_) => 2
    case ReadActive => 7
    case Link(_) => 6
    case SyncLink(_) => 5
    case CheckCompleted(_) => 4
    case UnlinkLinked(_) => 3
    case SyncUnlink => 1
    case Finished(_) => 0
  }

  /** The inodes that can still be reached through one of the two names. */
  ghost predicate Reachable(d: Dir, inode: Inode) {
    (Active in d && d[Active] == inode) || (Completed in d && d[Completed] == inode)
  }

  ghost predicate SameReach(d: Dir, d': Dir) {
    forall inode :: Reachable(d, inode) <==> Reachable(d', inode)
  }

  /** Changes by others never take away what a process relies on. */
  lemma KnowledgeIsStable(p: Process, d: Dir, op: Op)
    requires Knows(p, d)
    ensures Knows(p, Apply(d, op))
  {}

  /** The directory change a step makes, if any. */
  function EffectOf(p: Process, d: Dir): seq<Op> {
    match p
    case UnlinkSame(_) | UnlinkLinked(_) => if Active in d then [UnlinkActive] else []
    case Link(_) => if Active in d && Completed !in d then [LinkCompleted] else []
    case _ => []
  }

  /** Where a step leads when it finds the directory `d`; `trusted` is the receipt check. */
  function NextOf(p: Process, d: Dir, trusted: Inode -> bool): Process
    requires !p.Finished?
  {
    match p
    case Start => LookUpCompleted(Active in d)
    case LookUpCompleted(sawActive) =>
      if Completed in d then ReadCompleted(sawActive)
      else if sawActive then ReadActive else Finished(Failed)
    case ReadCompleted(sawActive) =>
      if Completed !in d || !trusted(d[Completed]) then Finished(Failed)
      else if sawActive then CompareActive(d[Completed]) else Finished(AlreadyCompleted)
    case CompareActive(inode) =>
      if Active !in d || !trusted(d[Active]) || d[Active] != inode then Finished(Failed)
      else UnlinkSame(inode)
    case UnlinkSame(_) | UnlinkLinked(_) => if Active in d then SyncUnlink else Finished(Failed)
    case ReadActive =>
      if Active !in d || !trusted(d[Active]) then Finished(Failed) else Link(d[Active])
    case Link(inode) => if Active in d && Completed !in d then SyncLink(inode) else Finished(Failed)
    case SyncLink(inode) => CheckCompleted(inode)
    case CheckCompleted(inode) =>
      if Completed !in d || !trusted(d[Completed]) || d[Completed] != inode then Finished(Failed)
      else UnlinkLinked(inode)
    case SyncUnlink => Finished(CompletedNow)
  }

  lemma StepIsSafe(p: Process, d: Dir, trusted: Inode -> bool)
    requires !p.Finished? && Knows(p, d)
    ensures Rank(NextOf(p, d, trusted)) < Rank(p)
    ensures SameReach(d, Replay(d, EffectOf(p, d)))
    ensures Knows(NextOf(p, d, trusted), Replay(d, EffectOf(p, d)))
  {
    if EffectOf(p, d) != [] { ReplayExtend(d, [], EffectOf(p, d)[0]); }
  }

  /** How a process alone ends when it starts on the directory `d`. */
  function SoloResult(d: Dir, trusted: Inode -> bool): Result {
    if Completed in d then
      if !trusted(d[Completed]) then Failed
      else if Active !in d then AlreadyCompleted
      else if d[Active] != d[Completed] then Failed
      else CompletedNow
    else if Active in d && trusted(d[Active]) then CompletedNow
    else Failed
  }

  function SoloDir(d: Dir, trusted: Inode -> bool): Dir {
    if SoloResult(d, trusted) == CompletedNow then map[Completed := d[Active]] else d
  }

  /** What a process alone has established at each program counter. */
  ghost predicate SoloAt(p: Process, d0: Dir, d: Dir, trusted: Inode -> bool) {
    var end := SoloResult(d0, trusted);
    match p
    case Start => d == d0
    case LookUpCompleted(sawActive) => d == d0 && sawActive == (Active in d0)
    case ReadCompleted(sawActive) => d == d0 && sawActive == (Active in d0) && Completed in d0
    case CompareActive(inode) =>
      d == d0 && Active in d0 && Completed in d0 && trusted(d0[Completed]) && inode == d0[Completed]
    case UnlinkSame(_) => d == d0 && Completed in d0 && end == CompletedNow
    case ReadActive => d == d0 && Active in d0 && Completed !in d0
    case Link(inode) => d == d0 && Completed !in d0 && end == CompletedNow && inode == d0[Active]
    case SyncLink(_) | CheckCompleted(_) | UnlinkLinked(_) =>
      && end == CompletedNow && Active in d0
      && trusted(p.inode) && p.inode == d0[Active] && d == d0[Completed := p.inode]
    case SyncUnlink => end == CompletedNow && d == SoloDir(d0, trusted)
    case Finished(result) => result == end && d == SoloDir(d0, trusted)
  }

  lemma SoloStep(p: Process, d0: Dir, d: Dir, trusted: Inode -> bool)
    requires !p.Finished? && SoloAt(p, d0, d, trusted)
    ensures SoloAt(NextOf(p, d, trusted), d0, Replay(d, EffectOf(p, d)), trusted)
    ensures NextOf(p, d, trusted) == Finished(CompletedNow) ==> p.SyncUnlink?
  {
    if EffectOf(p, d) != [] { ReplayExtend(d, [], EffectOf(p, d)[0]); }
    if (p.UnlinkSame? || p.UnlinkLinked?) && Active in d { OnlyCompleted(Apply(d, UnlinkActive)); }
  }

  lemma OthersKeepKnowing(procs: seq<Process>, p: Process, d: Dir)
    requires forall j | 0 <= j < |procs| :: Knows(procs[j], d)
    ensures forall j | 0 <= j < |procs| :: Knows(procs[j], Replay(d, EffectOf(p, d)))
  {
    if EffectOf(p, d) != [] {
      var op := EffectOf(p, d)[0];
      ReplayExtend(d, [], op);
      forall j | 0 <= j < |procs| ensures Knows(procs[j], Apply(d, op)) {
        KnowledgeIsStable(procs[j], d, op);
      }
    }
  }

  // ---------------------------------------------------------------- worlds and schedules

  /** A process starts, one process takes a step, or the power fails and ends them all. */
  datatype Move = Spawn | PowerFails(kept: nat) | Run(who: nat)

  /** The disk, the directory changes not yet on it, the processes, and all reports ever printed. */
  datatype World = World(synced: Dir, journal: seq<Op>, procs: seq<Process>, reports: set<Result>)

  function Seen(w: World): Dir {
    Replay(w.synced, w.journal)
  }

  function Surviving(journal: seq<Op>, kept: nat): seq<Op> {
    if kept <= |journal| then journal[..kept] else journal
  }

  function ReportOf(p: Process): set<Result> {
    if p.Finished? then {p.result} else {}
  }

  /** One process of a world takes its next step. */
  function StepOf(w: World, who: nat, trusted: Inode -> bool): World
    requires who < |w.procs| && !w.procs[who].Finished?
  {
    var p, ops := w.procs[who], w.journal + EffectOf(w.procs[who], Seen(w));
    var p' := NextOf(p, Seen(w), trusted);
    var syncs := p.SyncLink? || p.SyncUnlink?;
    World(if syncs then Replay(w.synced, ops) else w.synced, if syncs then [] else ops,
          w.procs[who := p'], w.reports + ReportOf(p'))
  }

  function Turn(w: World, move: Move, trusted: Inode -> bool): World {
    match move
    case Spawn => w.(procs := w.procs + [Start])
    case PowerFails(kept) => World(Replay(w.synced, Surviving(w.journal, kept)), [], [], w.reports)
    case Run(who) => if who < |w.procs| && !w.procs[who].Finished? then StepOf(w, who, trusted) else w
  }

  /** The world after the first `n` moves. */
  function After(w: World, schedule: seq<Move>, trusted: Inode -> bool, n: nat): World
    requires n <= |schedule|
  {
    if n == 0 then w else Turn(After(w, schedule, trusted, n - 1), schedule[n - 1], trusted)
  }

  /** Whatever prefix of the journal survives, exactly the original inodes are reachable. */
  ghost predicate Recoverable(origin: Dir, synced: Dir, journal: seq<Op>) {
    forall k | 0 <= k <= |journal| :: SameReach(origin, Replay(synced, journal[..k]))
  }

  /** What every move keeps. */
  ghost predicate Sound(origin: Dir, w: World) {
    && Recoverable(origin, w.synced, w.journal)
    && (forall j | 0 <= j < |w.procs| :: Knows(w.procs[j], Seen(w)))
    && (CompletedNow in w.reports ==> Active !in w.synced)
  }

  lemma {:induction false} ActiveStaysGone(d: Dir, ops: seq<Op>)
    requires Active !in d
    ensures Active !in Replay(d, ops)
  {
    if ops != [] { ActiveStaysGone(d, ops[..|ops| - 1]); }
  }

  lemma RecoverableExtend(origin: Dir, synced: Dir, journal: seq<Op>, op: Op)
    requires Recoverable(origin, synced, journal)
    requires SameReach(Replay(synced, journal), Apply(Replay(synced, journal), op))
    ensures Recoverable(origin, synced, journal + [op])
  {
    hide Apply;
    ReplayExtend(synced, journal, op);
    assert journal[..|journal|] == journal;
    forall k | 0 <= k <= |journal| + 1 ensures SameReach(origin, Replay(synced, (journal + [op])[..k])) {
      if k <= |journal| {
        assert (journal + [op])[..k] == journal[..k];
      } else {
        assert (journal + [op])[..k] == journal + [op];
      }
    }
  }

  lemma RecoverableSynced(origin: Dir, d: Dir)
    requires SameReach(origin, d)
    ensures Recoverable(origin, d, [])
  {}

  lemma WholeJournal(origin: Dir, synced: Dir, journal: seq<Op>)
    requires Recoverable(origin, synced, journal)
    ensures SameReach(origin, Replay(synced, journal))
  {
    assert journal[..|journal|] == journal;
  }

  lemma TurnKeepsSound(origin: Dir, w: World, move: Move, trusted: Inode -> bool)
    requires Sound(origin, w)
    ensures Sound(origin, Turn(w, move, trusted)) && w.reports <= Turn(w, move, trusted).reports
  {
    match move
    case Spawn =>
    case PowerFails(kept) =>
      var ops := Surviving(w.journal, kept);
      assert w.journal[..|ops|] == ops;
      RecoverableSynced(origin, Replay(w.synced, ops));
      if Active !in w.synced { ActiveStaysGone(w.synced, ops); }
    case Run(who) =>
      if who < |w.procs| && !w.procs[who].Finished? { StepKeepsSound(origin, w, who, trusted); }
  }

  lemma KnowsItself(origin: Dir, w: World, who: nat)
    requires Sound(origin, w) && who < |w.procs|
    ensures Knows(w.procs[who], Seen(w))
  {}

  /** What is seen after a step, whether or not the step syncs it. */
  lemma SeenAfter(w: World, who: nat)
    requires who < |w.procs|
    ensures var effect := EffectOf(w.procs[who], Seen(w));
      Replay(w.synced, w.journal + effect) == Replay(Seen(w), effect)
  {
    var effect := EffectOf(w.procs[who], Seen(w));
    if effect == [] {
      assert w.journal + effect == w.journal;
    } else {
      ReplayExtend(w.synced, w.journal, effect[0]);
      ReplayExtend(Seen(w), [], effect[0]);
    }
  }

  lemma StepIsRecoverable(origin: Dir, w: World, who: nat, trusted: Inode -> bool)
    requires Sound(origin, w) && who < |w.procs| && !w.procs[who].Finished?
    ensures var w' := StepOf(w, who, trusted); Recoverable(origin, w'.synced, w'.journal)
  {
    hide SameReach, Knows, NextOf, Recoverable;
    var p, d := w.procs[who], Seen(w);
    var ops := w.journal + EffectOf(p, d);
    StepIsSafe(p, d, trusted);
    if EffectOf(p, d) == [] {
      assert ops == w.journal;
    } else {
      ReplayExtend(d, [], EffectOf(p, d)[0]);
      RecoverableExtend(origin, w.synced, w.journal, EffectOf(p, d)[0]);
    }
    WholeJournal(origin, w.synced, ops);
    RecoverableSynced(origin, Replay(w.synced, ops));
  }

  /** After a step everybody, the process itself included, may rely on what it now relies on. */
  lemma StepKeepsKnowledge(origin: Dir, w: World, who: nat, trusted: Inode -> bool)
    requires Sound(origin, w) && who < |w.procs| && !w.procs[who].Finished?
    ensures var w' := StepOf(w, who, trusted);
      Seen(w') == Replay(Seen(w), EffectOf(w.procs[who], Seen(w)))
      && forall j | 0 <= j < |w'.procs| :: Knows(w'.procs[j], Seen(w'))
  {
    hide SameReach, Recoverable, Knows, NextOf, EffectOf;
    SeenAfter(w, who);
    StepIsSafe(w.procs[who], Seen(w), trusted);
    OthersKeepKnowing(w.procs, w.procs[who], Seen(w));
  }

  lemma StepKeepsSound(origin: Dir, w: World, who: nat, trusted: Inode -> bool)
    requires Sound(origin, w) && who < |w.procs| && !w.procs[who].Finished?
    ensures Sound(origin, StepOf(w, who, trusted))
  {
    hide Recoverable, SameReach, EffectOf;
    StepIsRecoverable(origin, w, who, trusted);
    StepKeepsKnowledge(origin, w, who, trusted);
    var ops := w.journal + EffectOf(w.procs[who], Seen(w));
    if Active !in w.synced { ActiveStaysGone(w.synced, ops); }
    if NextOf(w.procs[who], Seen(w), trusted) == Finished(CompletedNow) {
      OnlySyncReports(w.procs[who], Seen(w), trusted);
      assert ops == w.journal;
    }
  }

  /** Only the last sync leads to the report of an own completion, and then the active name is gone. */
  lemma OnlySyncReports(p: Process, d: Dir, trusted: Inode -> bool)
    requires !p.Finished? && Knows(p, d) && NextOf(p, d, trusted) == Finished(CompletedNow)
    ensures p.SyncUnlink? && Active !in d && EffectOf(p, d) == []
  {}

  /** Over any schedule nothing is lost, reports stay made, and once any process has reported the
      completion as its own, the active name is gone from the disk. */
  lemma {:induction false} RunKeepsSound(origin: Dir, w: World, schedule: seq<Move>, trusted: Inode -> bool, n: nat)
    requires Sound(origin, w) && n <= |schedule|
    ensures Sound(origin, After(w, schedule, trusted, n))
    ensures w.reports <= After(w, schedule, trusted, n).reports
  {
    hide Sound, Turn, Knows, SameReach;
    if n > 0 {
      RunKeepsSound(origin, w, schedule, trusted, n - 1);
      TurnKeepsSound(origin, After(w, schedule, trusted, n - 1), schedule[n - 1], trusted);
    }
  }

  class ReceiptDirectory {
    const trusted: Inode -> bool
    var synced: Dir
    var journal: seq<Op>
    ghost const origin: Dir

    /** The directory every process sees. */
    ghost function Cached(): Dir
      reads this
    {
      Replay(synced, journal)
    }

    ghost predicate Valid()
      reads this
    {
      Recoverable(origin, synced, journal)
    }

    constructor (d: Dir, trusted: Inode -> bool)
      ensures Valid() && Cached() == d && origin == d && this.trusted == trusted && journal == []
    {
      synced, journal, origin, this.trusted := d, [], d, trusted;
    }

    method Look() returns (d: Dir)
      ensures d == Cached()
    {
      d := synced;
      for i := 0 to |journal|
        invariant d == Replay(synced, journal[..i])
      {
        ReplayExtend(synced, journal[..i], journal[i]);
        assert journal[..i] + [journal[i]] == journal[..i + 1];
        d := Apply(d, journal[i]);
      }
      assert journal[..|journal|] == journal;
    }

    method Change(op: Op)
      requires Valid() && SameReach(Cached(), Apply(Cached(), op))
      modifies `journal
      ensures Valid() && Cached() == Apply(old(Cached()), op) && journal == old(journal) + [op]
    {
      ReplayExtend(synced, journal, op);
      RecoverableExtend(origin, synced, journal, op);
      journal := journal + [op];
    }

    method Sync()
      requires Valid()
      modifies `synced, `journal
      ensures Valid() && Cached() == old(Cached()) && journal == []
      ensures synced == old(Cached())
    {
      WholeJournal(origin, synced, journal);
      var d := Look();
      synced, journal := d, [];
    }

    /** A power loss keeps the first `kept` unsynced changes and forgets the rest. */
    method PowerLoss(kept: nat)
      requires Valid()
      modifies `synced, `journal
      ensures Valid() && journal == []
      ensures synced == Cached() == Replay(old(synced), Surviving(old(journal), kept))
    {
      journal := Surviving(journal, kept);
      ghost var survived := journal;
      assert old(journal)[..|survived|] == survived;
      assert SameReach(origin, Replay(synced, survived));
      var d := Look();
      synced, journal := d, [];
    }

    /** One atomic step of one process. */
    method Advance(p: Process) returns (p': Process)
      requires Valid() && !p.Finished? && Knows(p, Cached())
      modifies `synced, `journal
      ensures Valid() && Knows(p', Cached()) && Rank(p') < Rank(p)
      ensures p' == NextOf(p, old(Cached()), trusted)
      ensures Cached() == Replay(old(Cached()), EffectOf(p, old(Cached())))
      ensures p.SyncLink? || p.SyncUnlink? ==> journal == [] && synced == Cached()
      ensures !p.SyncLink? && !p.SyncUnlink? ==>
                synced == old(synced) && journal == old(journal) + EffectOf(p, old(Cached()))
    {
      var d := Look();
      StepIsSafe(p, d, trusted);
      var effect := EffectOf(p, d);
      if effect != [] {
        ReplayExtend(d, [], effect[0]);
        Change(effect[0]);
        assert effect == [effect[0]];
      } else {
        assert journal + effect == journal;
      }
      if p.SyncLink? || p.SyncUnlink? { Sync(); }
      return NextOf(p, d, trusted);
    }

    /** One process alone, from its first step to its end.  Only a process that reports the
        completion as its own has also synced it. */
    method CompleteAlone() returns (r: Result)
      requires Valid()
      modifies `synced, `journal
      ensures Valid()
      ensures r == SoloResult(old(Cached()), trusted) && Cached() == SoloDir(old(Cached()), trusted)
      ensures r == CompletedNow ==> journal == []
    {
      var p := Start;
      ghost var d0 := Cached();
      while !p.Finished?
        invariant Valid() && Knows(p, Cached()) && SoloAt(p, d0, Cached(), trusted)
        invariant p == Finished(CompletedNow) ==> journal == []
        decreases Rank(p)
      {
        SoloStep(p, d0, Cached(), trusted);
        p := Advance(p);
      }
      r := p.result;
    }

    /** Any number of processes, interleaved in any order and started at any time, with power
        losses that end them all. */
    method Interleave(schedule: seq<Move>) returns (procs: seq<Process>, reports: set<Result>)
      requires Valid()
      modifies `synced, `journal
      ensures Valid() && SameReach(origin, Cached())
      ensures World(synced, journal, procs, reports)
              == After(World(old(synced), old(journal), [], {}), schedule, trusted, |schedule|)
      ensures CompletedNow in reports ==> Active !in synced
    {
      procs, reports := [], {};
      ghost var begin := World(synced, journal, [], {});
      for i := 0 to |schedule|
        invariant Valid() && Sound(origin, World(synced, journal, procs, reports))
        invariant World(synced, journal, procs, reports) == After(begin, schedule, trusted, i)
      {
        hide Sound, Recoverable, Replay, NextOf, EffectOf;
        ghost var w := World(synced, journal, procs, reports);
        TurnKeepsSound(origin, w, schedule[i], trusted);
        match schedule[i]
        case Spawn => procs := procs + [Start];
        case PowerFails(kept) =>
          PowerLoss(kept);
          procs := [];
        case Run(who) =>
          if who < |procs| && !procs[who].Finished? {
            KnowsItself(origin, w, who);
            SeenAfter(w, who);
            var p' := Advance(procs[who]);
            procs, reports := procs[who := p'], reports + ReportOf(p');
          }
      }
      WholeJournal(origin, synced, journal);
    }
  }

  /** A trusted receipt that was once active is never lost, and whatever processes and power
      losses left behind, a process that runs alone ends with only the completed name. */
  lemma RerunCompletes(receipt: Inode, d: Dir, trusted: Inode -> bool)
    requires trusted(receipt) && SameReach(map[Active := receipt], d)
    ensures SoloResult(d, trusted) != Failed
    ensures SoloDir(d, trusted) == map[Completed := receipt]
  {
    assert Reachable(map[Active := receipt], receipt);
    assert Active in d ==> Reachable(d, d[Active]);
    assert Completed in d ==> Reachable(d, d[Completed]);
    assert Reachable(d, receipt);
    if Active !in d { OnlyCompleted(d); }
  }

  /** A directory that the receipt can have been left in. */
  ghost predicate LeftOf(receipt: Inode, d: Dir) {
    SameReach(map[Active := receipt], d)
  }

  /** Whatever the power loss keeps, exactly the completed name is found. */
  ghost predicate Durable(w: World, receipt: Inode) {
    forall k | 0 <= k <= |w.journal| :: Replay(w.synced, w.journal[..k]) == map[Completed := receipt]
  }

  /** No journal brings the active name back exactly if the disk no longer has it. */
  lemma CompletionIsDurableIff(receipt: Inode, w: World)
    requires LeftOf(receipt, w.synced)
    ensures Durable(w, receipt) <==> Active !in w.synced
  {
    assert w.journal[..0] == [] && Replay(w.synced, w.journal[..0]) == w.synced;
    if Active !in w.synced {
      assert Reachable(map[Active := receipt], receipt);
      assert Completed in w.synced ==> Reachable(w.synced, w.synced[Completed]);
      OnlyCompleted(w.synced);
      forall k | 0 <= k <= |w.journal| ensures Replay(w.synced, w.journal[..k]) == map[Completed := receipt] {
        CompletedStays(receipt, w.journal[..k]);
      }
    }
  }

  lemma {:induction false} CompletedStays(receipt: Inode, ops: seq<Op>)
    ensures Replay(map[Completed := receipt], ops) == map[Completed := receipt]
  {
    if ops != [] { CompletedStays(receipt, ops[..|ops| - 1]); }
  }

  function Begin(d: Dir): World {
    World(d, [], [], {})
  }

  /** From the moment that any process reports the completion as its own, no power loss and no
      other process can bring the active name back. */
  lemma OwnCompletionIsDurable(receipt: Inode, d: Dir, schedule: seq<Move>, trusted: Inode -> bool, n: nat, m: nat)
    requires LeftOf(receipt, d) && n <= m <= |schedule|
    requires CompletedNow in After(Begin(d), schedule, trusted, n).reports
    ensures Durable(After(Begin(d), schedule, trusted, m), receipt)
  {
    hide Turn, SameReach, Knows;
    RecoverableSynced(map[Active := receipt], d);
    RunKeepsSound(map[Active := receipt], Begin(d), schedule, trusted, n);
    ReportsStay(map[Active := receipt], Begin(d), schedule, trusted, n, m);
    RunKeepsSound(map[Active := receipt], Begin(d), schedule, trusted, m);
    var w := After(Begin(d), schedule, trusted, m);
    assert w.journal[..0] == [];
    assert Replay(w.synced, w.journal[..0]) == w.synced;
    CompletionIsDurableIff(receipt, w);
  }

  lemma {:induction false} ReportsStay(origin: Dir, w: World, schedule: seq<Move>, trusted: Inode -> bool,
                                       n: nat, m: nat)
    requires Sound(origin, w) && n <= m <= |schedule|
    ensures After(w, schedule, trusted, n).reports <= After(w, schedule, trusted, m).reports
    decreases m
  {
    hide Sound, Turn, Knows, SameReach;
    if n < m {
      ReportsStay(origin, w, schedule, trusted, n, m - 1);
      RunKeepsSound(origin, w, schedule, trusted, m - 1);
      TurnKeepsSound(origin, After(w, schedule, trusted, m - 1), schedule[m - 1], trusted);
    }
  }

  /** The printed report `r` promises that the completion survives, whatever the schedule was. */
  ghost predicate Guarantees(r: Result) {
    forall receipt: Inode, d: Dir, schedule: seq<Move>, trusted: Inode -> bool
      | LeftOf(receipt, d) && trusted(receipt) && r in After(Begin(d), schedule, trusted, |schedule|).reports ::
      Durable(After(Begin(d), schedule, trusted, |schedule|), receipt)
  }

  /** Exactly the report `completed` promises that the completion survives every power loss. */
  lemma OnlyOwnCompletionIsDurable(r: Result)
    ensures Guarantees(r) <==> r == CompletedNow
  {
    hide After, Durable, LeftOf;
    match r
    case CompletedNow =>
      forall receipt: Inode, d: Dir, schedule: seq<Move>, trusted: Inode -> bool
        | LeftOf(receipt, d) && trusted(receipt) && r in After(Begin(d), schedule, trusted, |schedule|).reports
        ensures Durable(After(Begin(d), schedule, trusted, |schedule|), receipt)
      {
        OwnCompletionIsDurable(receipt, d, schedule, trusted, |schedule|, |schedule|);
      }
    case AlreadyCompleted => AlreadyCompletedIsNotDurable();
    case Failed => FailedIsNotDurable();
  }

  // ---------------------------------------------------------------- one completion, and no other receipt

  /** A process goes on after its link or unlink only if that has just changed the directory, and no
      other step changes it. */
  lemma StepIsOwn(p: Process, d: Dir, trusted: Inode -> bool)
    requires !p.Finished?
    ensures p.Link? ==>
              if Active in d && Completed !in d
              then NextOf(p, d, trusted) == SyncLink(p.inode) && Replay(d, EffectOf(p, d)) == d[Completed := d[Active]]
              else NextOf(p, d, trusted) == Finished(Failed) && Replay(d, EffectOf(p, d)) == d
    ensures p.UnlinkSame? || p.UnlinkLinked? ==>
              if Active in d
              then NextOf(p, d, trusted) == SyncUnlink && Replay(d, EffectOf(p, d)) == d - {Active}
              else NextOf(p, d, trusted) == Finished(Failed) && Replay(d, EffectOf(p, d)) == d
    ensures !p.Link? && !p.UnlinkSame? && !p.UnlinkLinked? ==> Replay(d, EffectOf(p, d)) == d
  {
    if EffectOf(p, d) != [] { ReplayExtend(d, [], EffectOf(p, d)[0]); }
  }

  /** The process has unlinked the active name. */
  predicate HasUnlinked(p: Process) {
    p.SyncUnlink? || p == Finished(CompletedNow)
  }

  /** At most one process has unlinked, and if one has, the active name is gone. */
  ghost predicate OneUnlink(w: World) {
    && (forall i, j | 0 <= i < j < |w.procs| :: !HasUnlinked(w.procs[i]) || !HasUnlinked(w.procs[j]))
    && (forall i | 0 <= i < |w.procs| && HasUnlinked(w.procs[i]) :: Active !in Seen(w))
  }

  lemma StepKeepsOneUnlink(w: World, who: nat, trusted: Inode -> bool)
    requires OneUnlink(w) && who < |w.procs| && !w.procs[who].Finished?
    ensures OneUnlink(StepOf(w, who, trusted))
  {
    hide NextOf, EffectOf, Replay;
    var p, d := w.procs[who], Seen(w);
    SeenAfter(w, who);
    StepIsOwn(p, d, trusted);
    SyncedSeen(w, who, trusted);
    UnlinkedNext(p, d, trusted);
    var w' := StepOf(w, who, trusted);
    assert forall i | 0 <= i < |w.procs| && i != who :: w'.procs[i] == w.procs[i];
  }

  lemma SyncedSeen(w: World, who: nat, trusted: Inode -> bool)
    requires who < |w.procs| && !w.procs[who].Finished?
    ensures Seen(StepOf(w, who, trusted)) == Replay(w.synced, w.journal + EffectOf(w.procs[who], Seen(w)))
  {
    hide NextOf, EffectOf;
  }

  lemma UnlinkedNext(p: Process, d: Dir, trusted: Inode -> bool)
    requires !p.Finished?
    ensures HasUnlinked(NextOf(p, d, trusted)) ==>
              p.SyncUnlink? || ((p.UnlinkSame? || p.UnlinkLinked?) && Active in d)
  {}

  /** Without a power loss, at most one process ever completes the receipt. */
  lemma {:induction false} AtMostOneCompletes(d: Dir, schedule: seq<Move>, trusted: Inode -> bool, n: nat)
    requires n <= |schedule| && forall m | m in schedule :: !m.PowerFails?
    ensures OneUnlink(After(Begin(d), schedule, trusted, n))
    ensures var procs := After(Begin(d), schedule, trusted, n).procs;
      forall i, j | 0 <= i < j < |procs| :: procs[i] != Finished(CompletedNow) || procs[j] != Finished(CompletedNow)
  {
    hide StepOf;
    if n > 0 {
      AtMostOneCompletes(d, schedule, trusted, n - 1);
      var w, move := After(Begin(d), schedule, trusted, n - 1), schedule[n - 1];
      assert move in schedule;
      if move.Run? && move.who < |w.procs| && !w.procs[move.who].Finished? {
        StepKeepsOneUnlink(w, move.who, trusted);
      }
    }
  }

  /** Where processes get with a receipt that is not the expected one. */
  ghost predicate Untouched(d: Dir, w: World) {
    && w.synced == d && w.journal == [] && w.reports <= {Failed}
    && forall i | 0 <= i < |w.procs| ::
         || w.procs[i].Start? || w.procs[i].LookUpCompleted? || w.procs[i].ReadCompleted? || w.procs[i].ReadActive?
         || w.procs[i] == Finished(Failed)
  }

  /** A receipt that is not the expected one is never moved, and nobody reports it as completed. */
  lemma {:induction false} UntrustedIsUntouched(receipt: Inode, d: Dir, schedule: seq<Move>, trusted: Inode -> bool,
                                                n: nat)
    requires LeftOf(receipt, d) && !trusted(receipt) && n <= |schedule|
    ensures Untouched(d, After(Begin(d), schedule, trusted, n))
  {
    if n > 0 {
      UntrustedIsUntouched(receipt, d, schedule, trusted, n - 1);
      UntouchedTurn(receipt, d, After(Begin(d), schedule, trusted, n - 1), schedule[n - 1], trusted);
    }
  }

  lemma UntouchedTurn(receipt: Inode, d: Dir, w: World, move: Move, trusted: Inode -> bool)
    requires LeftOf(receipt, d) && !trusted(receipt) && Untouched(d, w)
    ensures Untouched(d, Turn(w, move, trusted))
  {
    assert Active in d ==> Reachable(d, d[Active]);
    assert Completed in d ==> Reachable(d, d[Completed]);
  }

  // ---------------------------------------------------------------- two schedules

  function BothNames(): Dir {
    map[Active := 7, Completed := 7]
  }

  /** One process unlinks the active name and is not yet done when a second one looks. */
  function LookBeforeSync(): seq<Move> {
    [Spawn, Run(0), Run(0), Run(0), Run(0), Run(0), Spawn, Run(1), Run(1), Run(1)]
  }

  /** Both processes find both names; the second one is faster. */
  function CompareAfterUnlink(): seq<Move> {
    [Spawn, Run(0), Run(0), Run(0), Spawn, Run(1), Run(1), Run(1), Run(1), Run(1), Run(0)]
  }

  predicate Trusting(inode: Inode) {
    true
  }

  /** A power loss that keeps nothing of the journal shows the disk again. */
  lemma PowerBringsBack(w: World, trusted: Inode -> bool)
    ensures Seen(Turn(w, PowerFails(0), trusted)) == w.synced
  {
    assert w.journal[..0] == [] && Replay(w.synced, []) == w.synced;
  }

  lemma BothNamesAreLeft()
    ensures LeftOf(7, BothNames())
  {
    forall inode ensures Reachable(map[Active := 7], inode) <==> Reachable(BothNames(), inode) {}
  }

  /** A move of a schedule that only reads. */
  lemma Reads(start: World, schedule: seq<Move>, trusted: Inode -> bool, n: nat, w: World, who: nat, p': Process)
    requires n < |schedule| && schedule[n] == Run(who) && After(start, schedule, trusted, n) == w
    requires who < |w.procs| && !w.procs[who].Finished? && EffectOf(w.procs[who], Seen(w)) == []
    requires !w.procs[who].SyncLink? && !w.procs[who].SyncUnlink?
    requires NextOf(w.procs[who], Seen(w), trusted) == p'
    ensures After(start, schedule, trusted, n + 1)
            == World(w.synced, w.journal, w.procs[who := p'], w.reports + ReportOf(p'))
  {
    assert w.journal + [] == w.journal;
  }

  /** A process that finds both names, from its start to where it has read the completed one. */
  lemma OneCompares(schedule: seq<Move>, trusted: Inode -> bool, n: nat, procs: seq<Process>)
    requires n + 4 <= |schedule| && schedule[n] == Spawn && trusted(7)
    requires forall i | n < i < n + 4 :: schedule[i] == Run(|procs|)
    requires After(Begin(BothNames()), schedule, trusted, n) == World(BothNames(), [], procs, {})
    ensures After(Begin(BothNames()), schedule, trusted, n + 4)
            == World(BothNames(), [], procs + [CompareActive(7)], {})
  {
    hide After, Turn, Replay;
    var d, start, who := BothNames(), Begin(BothNames()), |procs|;
    NothingSyncedYet();
    Spawns(start, schedule, trusted, n);
    Reads(start, schedule, trusted, n + 1, World(d, [], procs + [Start], {}), who, LookUpCompleted(true));
    assert (procs + [Start])[who := LookUpCompleted(true)] == procs + [LookUpCompleted(true)];
    Reads(start, schedule, trusted, n + 2, World(d, [], procs + [LookUpCompleted(true)], {}), who,
          ReadCompleted(true));
    assert (procs + [LookUpCompleted(true)])[who := ReadCompleted(true)] == procs + [ReadCompleted(true)];
    Reads(start, schedule, trusted, n + 3, World(d, [], procs + [ReadCompleted(true)], {}), who, CompareActive(7));
    assert (procs + [ReadCompleted(true)])[who := CompareActive(7)] == procs + [CompareActive(7)];
  }

  /** The same process, up to its unlink. */
  lemma OneUnlinks(schedule: seq<Move>, trusted: Inode -> bool, n: nat, procs: seq<Process>)
    requires n + 6 <= |schedule| && schedule[n] == Spawn && trusted(7)
    requires forall i | n < i < n + 6 :: schedule[i] == Run(|procs|)
    requires After(Begin(BothNames()), schedule, trusted, n) == World(BothNames(), [], procs, {})
    ensures After(Begin(BothNames()), schedule, trusted, n + 6)
            == World(BothNames(), [UnlinkActive], procs + [SyncUnlink], {})
  {
    hide After, Turn, Replay;
    var d, start, who := BothNames(), Begin(BothNames()), |procs|;
    OneCompares(schedule, trusted, n, procs);
    NothingSyncedYet();
    Reads(start, schedule, trusted, n + 4, World(d, [], procs + [CompareActive(7)], {}), who, UnlinkSame(7));
    assert (procs + [CompareActive(7)])[who := UnlinkSame(7)] == procs + [UnlinkSame(7)];
    Unlinks(start, schedule, trusted, n + 5, procs);
  }

  lemma Spawns(start: World, schedule: seq<Move>, trusted: Inode -> bool, n: nat)
    requires n < |schedule| && schedule[n] == Spawn
    ensures var w := After(start, schedule, trusted, n);
      After(start, schedule, trusted, n + 1) == World(w.synced, w.journal, w.procs + [Start], w.reports)
  {}

  lemma Unlinks(start: World, schedule: seq<Move>, trusted: Inode -> bool, n: nat, procs: seq<Process>)
    requires n < |schedule| && schedule[n] == Run(|procs|)
    requires After(start, schedule, trusted, n) == World(BothNames(), [], procs + [UnlinkSame(7)], {})
    ensures After(start, schedule, trusted, n + 1)
            == World(BothNames(), [UnlinkActive], procs + [SyncUnlink], {})
  {
    var w := World(BothNames(), [], procs + [UnlinkSame(7)], {});
    assert Replay(BothNames(), []) == BothNames();
    assert w.procs[|procs|] == UnlinkSame(7);
    assert w.procs[|procs| := SyncUnlink] == procs + [SyncUnlink];
  }

  lemma UnlinkedIsCompleted()
    ensures Replay(BothNames(), [UnlinkActive]) == map[Completed := 7]
  {
    ReplayExtend(BothNames(), [], UnlinkActive);
  }

  /** The second process reports `already-completed` although nothing has been synced. */
  lemma AlreadyCompletedIsNotDurable()
    ensures !Guarantees(AlreadyCompleted)
    ensures var w := After(Begin(BothNames()), LookBeforeSync(), Trusting, |LookBeforeSync()|);
      && AlreadyCompleted in w.reports && Seen(w) == map[Completed := 7]
      && Seen(Turn(w, PowerFails(0), Trusting)) == BothNames()
  {
    hide LeftOf, After, Turn, Replay, Guarantees;
    var trusted := Trusting;
    var d, start, schedule := BothNames(), Begin(BothNames()), LookBeforeSync();
    NothingYet(start, schedule, trusted);
    OneUnlinks(schedule, trusted, 0, []);
    UnlinkedIsCompleted();
    var w := World(d, [UnlinkActive], [SyncUnlink, Start], {});
    Spawns(start, schedule, trusted, 6);
    Reads(start, schedule, trusted, 7, w, 1, LookUpCompleted(false));
    Reads(start, schedule, trusted, 8, w.(procs := [SyncUnlink, LookUpCompleted(false)]), 1, ReadCompleted(false));
    Reads(start, schedule, trusted, 9, w.(procs := [SyncUnlink, ReadCompleted(false)]), 1,
          Finished(AlreadyCompleted));
    BackAgain(schedule, trusted, AlreadyCompleted);
    PowerBringsBack(After(start, schedule, trusted, 10), trusted);
  }

  lemma NothingYet(start: World, schedule: seq<Move>, trusted: Inode -> bool)
    ensures After(start, schedule, trusted, 0) == start
  {}

  /** A report made while the unlink is not synced promises nothing. */
  lemma BackAgain(schedule: seq<Move>, trusted: Inode -> bool, r: Result)
    requires trusted(7)
    requires var w := After(Begin(BothNames()), schedule, trusted, |schedule|);
      r in w.reports && w.synced == BothNames()
    ensures !Guarantees(r)
  {
    hide After, LeftOf;
    BothNamesAreLeft();
    CompletionIsDurableIff(7, After(Begin(BothNames()), schedule, trusted, |schedule|));
  }

  /** A process that compares after another one has unlinked fails; the completion that it raced
      with is not synced either. */
  lemma FailedIsNotDurable()
    ensures !Guarantees(Failed)
    ensures var w := After(Begin(BothNames()), CompareAfterUnlink(), Trusting, |CompareAfterUnlink()|);
      && Failed in w.reports && Seen(w) == map[Completed := 7]
      && Seen(Turn(w, PowerFails(0), Trusting)) == BothNames()
  {
    hide LeftOf, After, Turn, Replay, Guarantees;
    var trusted := Trusting;
    var d, start, schedule := BothNames(), Begin(BothNames()), CompareAfterUnlink();
    NothingYet(start, schedule, trusted);
    OneCompares(schedule, trusted, 0, []);
    OneUnlinks(schedule, trusted, 4, [CompareActive(7)]);
    UnlinkedIsCompleted();
    Reads(start, schedule, trusted, 10, World(d, [UnlinkActive], [CompareActive(7), SyncUnlink], {}), 0,
          Finished(Failed));
    BackAgain(schedule, trusted, Failed);
    PowerBringsBack(After(start, schedule, trusted, 11), trusted);
  }

  lemma NothingSyncedYet()
    ensures Replay(BothNames(), []) == BothNames()
  {}

  /** The unsynced unlink of a process that died: a rerun reports `already-completed`, syncs
      nothing, and a power loss then shows both names again. */
  lemma AlreadyCompletedCanBeUndone()
    ensures
      var synced: Dir := map[Active := 7, Completed := 7];
      && Replay(synced, [UnlinkActive]) == map[Completed := 7]
      && SoloResult(Replay(synced, [UnlinkActive]), inode => true) == AlreadyCompleted
      && Replay(synced, [UnlinkActive][..0]) == synced
  {
    ReplayExtend(map[Active := 7, Completed := 7], [], UnlinkActive);
  }
}
