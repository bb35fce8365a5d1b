/**
 Deadlock freedom of the node's mutexes: the controller's, each Xray's, each core's, each inbound's and each
 logger's. Any number of threads run the entry points of the node; an RWMutex may let readers pass a waiting
 writer or hold them back.
 */
module Locks {
  import opened Options

  // Locks belong to an Xray instance x; an instance has numbered inbounds and a new logger for every start.
  datatype Lock =
    | Controller | Xray(x: nat) | CoreMutex(x: nat) | LoggerMutex(x: nat, start: nat) | Inbound(x: nat, k: nat)

  // Inbounds are locked in their order in the config; no path holds one together with a core or a logger.
  function Rank(l: Lock): nat {
    match l
    case Controller => 0
    case Xray(_) => 1
    case CoreMutex(_) => 2
    case LoggerMutex(_, _) => 3
    case Inbound(_, k) => 4 + k
  }

  datatype Mode = Read | Write

  // What a path through the code does with locks; Hold is a lock held for the time of its body.
  datatype Code = Nothing | Then(first: Code, second: Code) | Hold(lock: Lock, mode: Mode, body: Code)

  datatype Op = Acquire(lock: Lock, mode: Mode) | Release(lock: Lock)

  // The lock operations of a path, followed by k.
  function Ops(code: Code, k: seq<Op>): seq<Op>
    decreases code
  {
    match code
    case Nothing => k
    case Then(a, b) => Ops(a, Ops(b, k))
    case Hold(l, m, body) => [Acquire(l, m)] + Ops(body, [Release(l)] + k)
  }

  // ---------- the entry points ----------

  function Touch(l: Lock): Code { Hold(l, Write, Nothing) }

  function Peek(l: Lock): Code { Hold(l, Read, Nothing) }

  // Config.ToBytes read-locks one inbound after another and keeps them all.
  function ToBytes(x: nat, k: nat, n: nat): Code
    requires k <= n
    decreases n - k
  {
    if k == n then Nothing else Hold(Inbound(x, k), Read, ToBytes(x, k + 1, n))
  }

  // The loops that edit one inbound at a time, whichever inbounds they do not skip.
  function Each(x: nat, ks: seq<nat>): Code {
    if ks == [] then Nothing else Then(Touch(Inbound(x, ks[0])), Each(x, ks[1..]))
  }

  // How far Core.Start gets: it finds no log config, cannot write the debug copy of the marshalled config, returns
  // from the critical section before it opens the new logger's files, or gets to that.
  datatype Reach = NoLogConfig | Marshals | Enters | Opens

  function CoreStart(x: nat, n: nat, start: nat, reach: Reach): Code {
    match reach
    case NoLogConfig => Nothing
    case Marshals => ToBytes(x, 0, n)
    case Enters => Then(ToBytes(x, 0, n), Touch(CoreMutex(x)))
    case Opens => Then(ToBytes(x, 0, n), Hold(CoreMutex(x), Write, Touch(LoggerMutex(x, start))))
  }

  function CoreStop(x: nat, start: nat, started: bool): Code {
    Hold(CoreMutex(x), Write, if started then Touch(LoggerMutex(x, start)) else Nothing)
  }

  // A restart is refused while another is under way; else it stops and starts the core, however far that gets.
  datatype Again = Refused | Goes(start: nat, started: bool, reach: Reach)

  function CoreRestart(x: nat, n: nat, again: Again): Code {
    match again
    case Refused => Touch(CoreMutex(x))
    case Goes(start, started, reach) =>
      Then(Touch(CoreMutex(x)),
           Then(CoreStop(x, start, started), Then(CoreStart(x, n, start + 1, reach), Touch(CoreMutex(x)))))
  }

  function XrayRestart(x: nat, n: nat, again: Again): Code {
    Hold(Xray(x), Write, CoreRestart(x, n, again))
  }

  function XrayShutdown(x: nat, start: nat, started: bool): Code {
    Hold(Xray(x), Write, CoreStop(x, start, started))
  }

  // Xray.Version and Xray.Logs read-lock the Xray around the core's mutex.
  function XrayRead(x: nat): Code { Hold(Xray(x), Read, Touch(CoreMutex(x))) }

  // How far NewXray gets.
  datatype Launch = NoCore | NotStarted(reach: Reach) | Rejected(started: bool) | Up

  // What follows the lists: start the core, wait for the verdict, then shut down again or ask for the version.
  function AfterLists(x: nat, n: nat, launch: Launch): Code {
    match launch
    case NoCore => Nothing
    case NotStarted(reach) => CoreStart(x, n, 0, reach)
    case Rejected(started) => Then(CoreStart(x, n, 0, Opens), Then(AwaitVerdict(x), XrayShutdown(x, 0, started)))
    case Up => Then(CoreStart(x, n, 0, Opens), Then(AwaitVerdict(x), XrayRead(x)))
  }

  // checkXrayStatus asks the core for its log channel and its version.
  function AwaitVerdict(x: nat): Code {
    Hold(Xray(x), Write, Then(Touch(CoreMutex(x)), Touch(CoreMutex(x))))
  }

  function NewXray(x: nat, n: nat, edited: seq<nat>, launch: Launch): Code {
    Then(Each(x, edited), AfterLists(x, n, launch))
  }

  // A backend that may be there: its instance, the number of its current start, and whether it is started.
  datatype Current = NoBackend | Backend(x: nat, start: nat, started: bool)

  function Disconnect(c: Current): Code {
    Hold(Controller, Write, if c.NoBackend? then Nothing else XrayShutdown(c.x, c.start, c.started))
  }

  function BaseInfo(c: Current): Code {
    Hold(Controller, Write, if c.NoBackend? then Nothing else Then(Peek(Xray(c.x)), XrayRead(c.x)))
  }

  // The driver, whether it finds a backend, and what is there when it disconnects and when it reports.
  datatype Path = Path(rpc: bool, finds: bool, prior: Current, launch: Launch, info: Current)

  function StartBackend(x: nat, n: nat, edited: seq<nat>, launch: Launch): Code {
    Hold(Controller, Write, NewXray(x, n, edited, launch))
  }

  // From StartBackend on: gRPC connects after it, REST before it.
  function StartTail(path: Path, x: nat, n: nat, edited: seq<nat>): Code {
    var start := StartBackend(x, n, edited, path.launch);
    if path.rpc then Then(start, if path.launch.Up? then Then(Touch(Controller), BaseInfo(path.info)) else Nothing)
    else Then(Touch(Controller), Then(start, if path.launch.Up? then BaseInfo(path.info) else Nothing))
  }

  datatype Entry =
    | ReadController                                  // ApiKey, Ip, Backend, SystemStats
    | WriteController                                 // Connect, NewRequest, the statistics recorder
    | Info(c: Current)
    | Start(path: Path, x: nat, n: nat, excluded: seq<nat>, edited: seq<nat>)
    | StopRequest(prior: Current)
    | KeepAliveTick(prior: Current)
    | CheckBackend(x: nat)                            // the middleware: Backend, then Started
    | SyncUser(x: nat, edited: seq<nat>)
    | SyncUsers(x: nat, edited: seq<nat>, n: nat, again: Again)
    | ReadLogs(x: nat)
    | HealthRestart(x: nat, n: nat, again: Again)
    | LogLine(x: nat, start: nat)                     // the pumps of a core

  function Body(e: Entry): Code {
    match e
    case ReadController => Peek(Controller)
    case WriteController => Touch(Controller)
    case Info(c) => BaseInfo(c)
    case Start(path, x, n, excluded, edited) =>
      // the config is decoded, and its excluded inbounds marked, before anything else
      Then(Each(x, excluded),
           Then(Peek(Controller),
                Then(if path.finds then Disconnect(path.prior) else Nothing, StartTail(path, x, n, edited))))
    case StopRequest(prior) => Disconnect(prior)
    case KeepAliveTick(prior) => Then(Peek(Controller), Disconnect(prior))
    case CheckBackend(x) => Then(Peek(Controller), Peek(Xray(x)))
    case SyncUser(x, edited) => Then(Peek(Controller), Each(x, edited))
    case SyncUsers(x, edited, n, again) =>
      Then(Peek(Controller), Then(Each(x, edited), XrayRestart(x, n, again)))
    case ReadLogs(x) => Then(Peek(Controller), XrayRead(x))
    case HealthRestart(x, n, again) => XrayRestart(x, n, again)
    case LogLine(x, start) => Peek(LoggerMutex(x, start))
  }

  // Every lock is taken while only locks of lower rank are held.
  predicate Ranked(floor: int, code: Code)
    decreases code
  {
    match code
    case Nothing => true
    case Then(a, b) => Ranked(floor, a) && Ranked(floor, b)
    case Hold(l, _, body) => floor < Rank(l) && Ranked(Rank(l), body)
  }

  lemma {:induction false} ToBytesRanked(x: nat, k: nat, n: nat, floor: int)
    requires k <= n && floor < 4 + k
    ensures Ranked(floor, ToBytes(x, k, n))
    decreases n - k
  {
    if k < n {
      ToBytesRanked(x, k + 1, n, 4 + k);
    }
  }

  lemma {:induction false} EachRanked(x: nat, ks: seq<nat>, floor: int)
    requires floor < 4
    ensures Ranked(floor, Each(x, ks))
  {
    if ks != [] {
      EachRanked(x, ks[1..], floor);
    }
  }

  lemma StartRanked(x: nat, n: nat, start: nat, reach: Reach, floor: int)
    requires floor < 2
    ensures Ranked(floor, CoreStart(x, n, start, reach))
  {
    ToBytesRanked(x, 0, n, floor);
    assert Ranked(2, Touch(LoggerMutex(x, start)));
  }

  lemma StopRanked(x: nat, start: nat, started: bool, floor: int)
    requires floor < 2
    ensures Ranked(floor, CoreStop(x, start, started))
  {
    assert Ranked(2, Touch(LoggerMutex(x, start)));
  }

  lemma CoreRestartRanked(x: nat, n: nat, again: Again)
    ensures Ranked(1, CoreRestart(x, n, again))
  {
    assert Ranked(1, Touch(CoreMutex(x)));
    if again.Goes? {
      StopRanked(x, again.start, again.started, 1);
      StartRanked(x, n, again.start + 1, again.reach, 1);
      var after := Then(CoreStart(x, n, again.start + 1, again.reach), Touch(CoreMutex(x)));
      assert Ranked(1, after);
      assert Ranked(1, Then(CoreStop(x, again.start, again.started), after));
    }
  }

  lemma XrayRestartRanked(x: nat, n: nat, again: Again, floor: int)
    requires floor < 1
    ensures Ranked(floor, XrayRestart(x, n, again))
  {
    CoreRestartRanked(x, n, again);
  }

  lemma XrayRanked(x: nat, start: nat, started: bool, floor: int)
    requires floor < 1
    ensures Ranked(floor, XrayShutdown(x, start, started)) && Ranked(floor, XrayRead(x)) && Ranked(floor, Peek(Xray(x)))
  {
    StopRanked(x, start, started, 1);
    assert Ranked(1, Touch(CoreMutex(x)));
  }

  lemma NewXrayRanked(x: nat, n: nat, edited: seq<nat>, launch: Launch)
    ensures Ranked(0, NewXray(x, n, edited, launch))
  {
    EachRanked(x, edited, 0);
    StartRanked(x, n, 0, if launch.NotStarted? then launch.reach else Opens, 0);
    var started := launch.Rejected? && launch.started;
    XrayRanked(x, 0, started, 0);
    assert Ranked(1, Touch(CoreMutex(x)));
    assert Ranked(0, AwaitVerdict(x));
    assert Ranked(0, Then(AwaitVerdict(x), XrayShutdown(x, 0, started)));
    assert Ranked(0, Then(AwaitVerdict(x), XrayRead(x)));
  }

  lemma ControllerRanked(c: Current)
    ensures Ranked(-1, Disconnect(c)) && Ranked(-1, BaseInfo(c))
    ensures Ranked(-1, Peek(Controller)) && Ranked(-1, Touch(Controller))
  {
    if c.Backend? {
      XrayRanked(c.x, c.start, c.started, 0);
    }
  }

  lemma StartTailRanked(path: Path, x: nat, n: nat, edited: seq<nat>)
    ensures Ranked(-1, StartTail(path, x, n, edited))
  {
    NewXrayRanked(x, n, edited, path.launch);
    ControllerRanked(path.info);
    var start := StartBackend(x, n, edited, path.launch);
    assert Ranked(-1, start);
    assert Ranked(-1, Then(Touch(Controller), BaseInfo(path.info)));
    assert Ranked(-1, Then(start, if path.launch.Up? then BaseInfo(path.info) else Nothing));
  }

  /** Every entry point takes its locks in ascending rank. */
  lemma EveryEntryRanked(e: Entry)
    ensures Ranked(-1, Body(e))
  {
    match e
    case Start(path, x, n, excluded, edited) =>
      EachRanked(x, excluded, -1);
      ControllerRanked(path.prior);
      StartTailRanked(path, x, n, edited);
      var rest := Then(if path.finds then Disconnect(path.prior) else Nothing, StartTail(path, x, n, edited));
      assert Ranked(-1, rest);
      assert Ranked(-1, Then(Peek(Controller), rest));
    case StopRequest(prior) => ControllerRanked(prior);
    case KeepAliveTick(prior) => ControllerRanked(prior);
    case Info(c) => ControllerRanked(c);
    case SyncUser(x, edited) => EachRanked(x, edited, -1);
    case SyncUsers(x, edited, n, again) =>
      EachRanked(x, edited, -1);
      XrayRestartRanked(x, n, again, -1);
      assert Ranked(-1, Then(Each(x, edited), XrayRestart(x, n, again)));
    case HealthRestart(x, n, again) => XrayRestartRanked(x, n, again, -1);
    case CheckBackend(x) => XrayRanked(x, 0, false, -1);
    case ReadLogs(x) => XrayRanked(x, 0, false, -1);
    case _ =>
  }

  // ---------- what is held together ----------

  // Taking the read locks of the inbounds k to n - 1 in order.
  function Acquires(x: nat, k: nat, n: nat): (ops: seq<Op>)
    requires k <= n
    ensures |ops| == n - k && forall i :: 0 <= i < |ops| ==> ops[i] == Acquire(Inbound(x, k + i), Read)
    decreases n - k
  {
    if k == n then [] else [Acquire(Inbound(x, k), Read)] + Acquires(x, k + 1, n)
  }

  // Releasing them, the last first.
  function Releases(x: nat, k: nat, n: nat): (ops: seq<Op>)
    requires k <= n
    ensures |ops| == n - k && forall i :: 0 <= i < |ops| ==> ops[i] == Release(Inbound(x, n - 1 - i))
    decreases n - k
  {
    if k == n then [] else Releases(x, k + 1, n) + [Release(Inbound(x, k))]
  }

  /** ToBytes takes the read locks of all inbounds in order before it releases any. */
  lemma {:induction false} ToBytesHoldsAll(x: nat, k: nat, n: nat, after: seq<Op>)
    requires k <= n
    ensures Ops(ToBytes(x, k, n), after) == Acquires(x, k, n) + (Releases(x, k, n) + after)
    decreases n - k
  {
    if k == n {
      assert [] + ([] + after) == after;
    } else {
      var release, acquire := [Release(Inbound(x, k))], [Acquire(Inbound(x, k), Read)];
      ToBytesHoldsAll(x, k + 1, n, release + after);
      var taken, freed := Acquires(x, k + 1, n), Releases(x, k + 1, n);
      assert acquire + (taken + (freed + (release + after))) == (acquire + taken) + ((freed + release) + after);
    }
  }

  // These locks are taken one inside the other and released again.
  function Nested(locks: seq<Lock>, mode: Mode): Code {
    if locks == [] then Nothing else Hold(locks[0], mode, Nested(locks[1..], mode))
  }

  /**
   The paths on which mutexes are held together: disconnecting a started backend holds the controller's, the Xray's,
   the core's and the logger's at once; a restart of a started core takes the core's mutex for the flag, holds it
   around the old logger's, holds all inbounds', holds it around the new logger's and takes it for the flag again, all
   inside the Xray's; and reading version or logs holds the Xray's around the core's.
   */
  lemma HeldTogether(x: nat, n: nat, start: nat)
    ensures Body(StopRequest(Backend(x, start, true))) ==
            Nested([Controller, Xray(x), CoreMutex(x), LoggerMutex(x, start)], Write)
    ensures Body(HealthRestart(x, n, Goes(start, true, Opens))) ==
            Hold(Xray(x), Write,
                 Then(Nested([CoreMutex(x)], Write),
                      Then(Nested([CoreMutex(x), LoggerMutex(x, start)], Write),
                           Then(Then(ToBytes(x, 0, n), Nested([CoreMutex(x), LoggerMutex(x, start + 1)], Write)),
                                Nested([CoreMutex(x)], Write)))))
    ensures XrayRead(x) == Hold(Xray(x), Read, Nested([CoreMutex(x)], Write))
  {
    NestedOne(CoreMutex(x));
    NestedOne(LoggerMutex(x, start));
    NestedOne(LoggerMutex(x, start + 1));
    NestedIn(CoreMutex(x), [LoggerMutex(x, start)]);
    NestedIn(CoreMutex(x), [LoggerMutex(x, start + 1)]);
    NestedIn(Xray(x), [CoreMutex(x), LoggerMutex(x, start)]);
    NestedIn(Controller, [Xray(x), CoreMutex(x), LoggerMutex(x, start)]);
    assert [Controller] + [Xray(x), CoreMutex(x), LoggerMutex(x, start)]
        == [Controller, Xray(x), CoreMutex(x), LoggerMutex(x, start)];
    assert [Xray(x)] + [CoreMutex(x), LoggerMutex(x, start)] == [Xray(x), CoreMutex(x), LoggerMutex(x, start)];
    assert [CoreMutex(x)] + [LoggerMutex(x, start)] == [CoreMutex(x), LoggerMutex(x, start)];
    assert [CoreMutex(x)] + [LoggerMutex(x, start + 1)] == [CoreMutex(x), LoggerMutex(x, start + 1)];
  }

  lemma NestedOne(l: Lock)
    ensures Nested([l], Write) == Touch(l)
  {
    assert [l][1..] == [];
  }

  lemma NestedIn(l: Lock, locks: seq<Lock>)
    ensures Nested([l] + locks, Write) == Hold(l, Write, Nested(locks, Write))
  {
    assert ([l] + locks)[1..] == locks;
  }

  // ---------- threads ----------

  datatype Thread = Thread(held: map<Lock, Mode>, rest: seq<Op>)

  // Ascending acquisition, only held locks released, nothing held at the end.
  predicate Disciplined(held: map<Lock, Mode>, rest: seq<Op>)
    decreases |rest|
  {
    if rest == [] then held == map[]
    else
      match rest[0]
      case Acquire(l, m) => (forall h :: h in held ==> Rank(h) < Rank(l)) && Disciplined(held[l := m], rest[1..])
      case Release(l) => l in held && Disciplined(held - {l}, rest[1..])
  }

  lemma {:induction false} OpsDisciplined(code: Code, floor: int, held: map<Lock, Mode>, k: seq<Op>)
    requires Ranked(floor, code) && Disciplined(held, k)
    requires forall h :: h in held ==> Rank(h) <= floor
    ensures Disciplined(held, Ops(code, k))
    decreases code
  {
    match code
    case Nothing =>
    case Then(a, b) =>
      OpsDisciplined(b, floor, held, k);
      OpsDisciplined(a, floor, held, Ops(b, k));
    case Hold(l, m, body) =>
      var inner := held[l := m];
      var after := [Release(l)] + k;
      assert l !in held && inner - {l} == held;
      assert after[0] == Release(l) && after[1..] == k;
      assert Disciplined(inner, after);
      OpsDisciplined(body, Rank(l), inner, after);
      var ops := [Acquire(l, m)] + Ops(body, after);
      assert ops[0] == Acquire(l, m) && ops[1..] == Ops(body, after);
  }

  type State = seq<Thread>

  predicate Unfinished(t: Thread) { t.rest != [] }

  predicate Wants(t: Thread, l: Lock, m: Mode) { t.rest != [] && t.rest[0] == Acquire(l, m) }

  predicate HeldBy(s: State, t: nat, l: Lock) { t < |s| && l in s[t].held }

  // The least any RWMutex asks for: a writer needs the lock free, a reader needs it free of writers.
  predicate MayGo(s: State, t: nat)
    requires t < |s| && Unfinished(s[t])
  {
    match s[t].rest[0]
    case Release(_) => true
    case Acquire(l, m) =>
      forall u: nat :: u < |s| && HeldBy(s, u, l) ==> m == Read && s[u].held[l] == Read
  }

  // The most it can ask for: a reader also waits for every writer that waits.
  predicate SurelyGoes(s: State, t: nat)
    requires t < |s| && Unfinished(s[t])
  {
    MayGo(s, t) && (s[t].rest[0].Acquire? && s[t].rest[0].mode == Read ==>
                      forall u :: 0 <= u < |s| ==> !Wants(s[u], s[t].rest[0].lock, Write))
  }

  function Advance(t: Thread): Thread
    requires Unfinished(t)
  {
    match t.rest[0]
    case Acquire(l, m) => Thread(t.held[l := m], t.rest[1..])
    case Release(l) => Thread(t.held - {l}, t.rest[1..])
  }

  // A new thread enters the node, or thread t makes its next operation.
  datatype Move = Enter(e: Entry) | Go(t: nat)

  predicate Possible(s: State, m: Move) {
    m.Go? ==> m.t < |s| && Unfinished(s[m.t]) && MayGo(s, m.t)
  }

  function Next(s: State, m: Move): State
    requires Possible(s, m)
  {
    match m
    case Enter(e) => s + [Thread(map[], Ops(Body(e), []))]
    case Go(t) => s[t := Advance(s[t])]
  }

  // The threads after these moves; None if one of them is not possible.
  function Run(moves: seq<Move>): Option<State> {
    if moves == [] then Some([])
    else
      match Run(moves[..|moves| - 1])
      case None => None
      case Some(s) => if Possible(s, moves[|moves| - 1]) then Some(Next(s, moves[|moves| - 1])) else None
  }

  ghost predicate AllDisciplined(s: State) {
    forall t :: 0 <= t < |s| ==> Disciplined(s[t].held, s[t].rest)
  }

  lemma {:induction false} ReachedDisciplined(moves: seq<Move>)
    requires Run(moves).Some?
    ensures AllDisciplined(Run(moves).value)
  {
    if moves != [] {
      var last := moves[|moves| - 1];
      ReachedDisciplined(moves[..|moves| - 1]);
      if last.Enter? {
        EveryEntryRanked(last.e);
        OpsDisciplined(Body(last.e), -1, map[], []);
      }
    }
  }

  // Two threads that hold a lock at the same time both only read.
  ghost predicate Exclusive(s: State) {
    forall t: nat, u: nat, l: Lock :: t < |s| && u < |s| && t != u && l in s[t].held && l in s[u].held ==>
      s[t].held[l] == Read && s[u].held[l] == Read
  }

  lemma NextExclusive(s: State, m: Move)
    requires Exclusive(s) && Possible(s, m)
    ensures Exclusive(Next(s, m))
  {
    if m.Go? && s[m.t].rest[0].Acquire? {
      var l := s[m.t].rest[0].lock;
      forall u: nat | u < |s| && l in s[u].held ensures s[m.t].rest[0].mode == Read && s[u].held[l] == Read {
        assert HeldBy(s, u, l);
      }
    }
  }

  /** In every reachable state a lock that two threads hold is held by both for reading. */
  lemma {:induction false} MutualExclusion(moves: seq<Move>)
    requires Run(moves).Some?
    ensures Exclusive(Run(moves).value)
  {
    if moves != [] {
      MutualExclusion(moves[..|moves| - 1]);
      NextExclusive(Run(moves[..|moves| - 1]).value, moves[|moves| - 1]);
    }
  }

  // The rank of the lock an unfinished thread waits for; -1 if its next operation is a release.
  function WantedRank(t: Thread): int
    requires Unfinished(t)
  {
    if t.rest[0].Acquire? then Rank(t.rest[0].lock) else -1
  }

  lemma HighestWanted(s: State, t: nat) returns (top: nat)
    requires t < |s| && Unfinished(s[t])
    ensures top < |s| && Unfinished(s[top])
    ensures forall u :: 0 <= u < |s| && Unfinished(s[u]) ==> WantedRank(s[u]) <= WantedRank(s[top])
  {
    top := t;
    for i := 0 to |s|
      invariant top < |s| && Unfinished(s[top])
      invariant forall u :: 0 <= u < i && Unfinished(s[u]) ==> WantedRank(s[u]) <= WantedRank(s[top])
    {
      if Unfinished(s[i]) && WantedRank(s[i]) > WantedRank(s[top]) {
        top := i;
      }
    }
  }

  // The holder of a lock wants only locks above it.
  lemma HolderWantsHigher(s: State, u: nat, l: Lock)
    requires AllDisciplined(s) && HeldBy(s, u, l)
    ensures Unfinished(s[u]) && (s[u].rest[0].Acquire? ==> WantedRank(s[u]) > Rank(l))
  {
  }

  // A thread that wants the highest lock of all waits for nobody.
  lemma HighestGoes(s: State, top: nat) returns (t: nat)
    requires AllDisciplined(s) && top < |s| && Unfinished(s[top])
    requires forall u :: 0 <= u < |s| && Unfinished(s[u]) ==> WantedRank(s[u]) <= WantedRank(s[top])
    ensures t < |s| && Unfinished(s[t]) && SurelyGoes(s, t)
  {
    t := top;
    if s[top].rest[0].Acquire? {
      var l := s[top].rest[0].lock;
      if u: nat :| u < |s| && HeldBy(s, u, l) {
        // its holder can only be about to release something
        HolderWantsHigher(s, u, l);
        t := u;
      } else if u: nat :| u < |s| && Wants(s[u], l, Write) {
        t := u;
      }
    }
  }

  /**
   In every state that any number of threads reach by running any entry points, a thread that has not finished
   means that some thread can go on, whether or not readers are held back for waiting writers.
   */
  lemma NoDeadlock(moves: seq<Move>, waiting: nat)
    requires Run(moves).Some? && waiting < |Run(moves).value| && Unfinished(Run(moves).value[waiting])
    ensures var s := Run(moves).value;
            exists t :: 0 <= t < |s| && Unfinished(s[t]) && SurelyGoes(s, t)
  {
    ReachedDisciplined(moves);
    var top := HighestWanted(Run(moves).value, waiting);
    var t := HighestGoes(Run(moves).value, top);
  }

  /** No thread ever asks for a lock it holds, and one that has finished holds none. */
  lemma NeverRetaken(moves: seq<Move>, t: nat)
    requires Run(moves).Some? && t < |Run(moves).value|
    ensures var thread := Run(moves).value[t];
            if Unfinished(thread) then thread.rest[0].Acquire? ==> thread.rest[0].lock !in thread.held
            else thread.held == map[]
  {
    ReachedDisciplined(moves);
  }
}
