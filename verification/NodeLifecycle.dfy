/**
 The controller (controller/controller.go) driven by serial start and stop requests of its gRPC and REST
 front ends, by its keep-alive trackers, and by the backends it creates (NewXray, Shutdown and the health job).
 A backend owns a core with its processes, as in CoreLifecycle.
 */
module NodeLifecycle {
  import opened Options
  import opened CoreLifecycle
  import StartCheck

  // The core of an Xray object; does its health job run, and is a probe of that job in flight?
  datatype Backend = Backend(core: Core, watched: bool, probing: bool)

  // The context of a Connect and the keep-alive of the tracker that runs under it; 0: no tracker.
  datatype Session = Session(live: bool, keepAlive: nat)

  // `cancel` is the session that cancelFunc cancels; None is the unused context made by New.
  datatype Node = Node(backends: seq<Backend>, current: Option<nat>, sessions: seq<Session>, cancel: Option<nat>)
  {
    ghost predicate Valid() {
      && (forall b :: 0 <= b < |backends| ==> backends[b].core.Valid())
      && (current.Some? ==> current.value < |backends|)
      && (cancel.Some? ==> cancel.value < |sessions|)
    }
  }

  // How each step of NewXray goes: the paths, the config in the context, ApplyAPI and the rebuild of the lists, the
  // version of the executable; the config for the core, its process, and what has become of that when the verdict
  // on its log comes; the API client.
  datatype Trial = Trial(paths: bool, configured: bool, applied: bool, version: bool, prepared: bool,
                         attempt: Attempt, meanwhile: Process, verdict: StartCheck.Verdict, client: bool)
  {
    predicate Ready() { paths && configured && applied && version }

    predicate Starts() { Ready() && prepared && attempt.Spawns? }

    predicate Succeeds() { Starts() && verdict.Success? && client }
  }

  // A start request: the config is rejected at once, or the backend is tried.
  datatype Request = Rejected | Tries(trial: Trial, keepAlive: nat)

  // How a restart of a core goes.
  datatype Retry = Retry(prepared: bool, attempt: Attempt)

  // The end of a health probe: no error, or one after which the core is restarted.
  datatype Probe = Healthy | Unhealthy(retry: Retry)

  datatype Event =
    | RpcStart(request: Request)
    | RestStart(request: Request)
    | StopRequest
    | SyncUsersRequest(retry: Retry)
    | KeepAliveFires(session: nat)
    | ProcessExits(backend: nat, pid: nat)
    | ProcessReaped(backend: nat, pid: nat)
    | ProbeBegins(backend: nat)
    | ProbeEnds(backend: nat, probe: Probe)

  const NO_PROCESS := Core([], None)

  // Xray.Shutdown: cancel the health job and stop the core.
  function ShutDown(b: Backend): Backend
    requires b.core.Valid()
  {
    b.(core := StopSection(b.core), watched := false)
  }

  // Core.Restart with nothing in between.
  function Restarted(c: Core, retry: Retry): (r: Core)
    requires c.Valid()
    ensures r.Valid()
  {
    if retry.prepared then StartSection(StopSection(c), retry.attempt).0 else StopSection(c)
  }

  // NewXray: the backend it leaves behind, if it gets as far as a core. A failure after the start shuts it down.
  function XrayMade(trial: Trial): (b: Option<Backend>)
    ensures b.Some? ==> b.value.core.Valid()
    ensures trial.Succeeds() ==> b.Some?
  {
    if !trial.Ready() then None
    else
      var core := if trial.prepared then StartSection(NO_PROCESS, trial.attempt).0 else NO_PROCESS;
      if !trial.Starts() then Some(Backend(core, false, false))
      else
        var b := Backend(Elapsed(core, trial.meanwhile), false, false);
        Some(if trial.Succeeds() then b.(watched := true) else ShutDown(b))
  }

  // The node with that backend, and the backend that NewXray returns.
  function XrayCreated(n: Node, trial: Trial): (r: (Node, Option<nat>))
    requires n.Valid()
    ensures r.0.Valid() && (r.1.Some? ==> r.1.value < |r.0.backends|)
  {
    match XrayMade(trial)
    case None => (n, None)
    case Some(b) => (n.(backends := n.backends + [b]), if trial.Succeeds() then Some(|n.backends|) else None)
  }

  function BackendStarted(n: Node, trial: Trial): (r: Node)
    requires n.Valid()
    ensures r.Valid()
  {
    var (m, created) := XrayCreated(n, trial);
    if created.Some? then m.(current := created) else m
  }

  function Connected(n: Node, keepAlive: nat): (r: Node)
    ensures n.Valid() ==> r.Valid()
  {
    n.(sessions := n.sessions + [Session(true, keepAlive)], cancel := Some(|n.sessions|))
  }

  function Disconnected(n: Node): (r: Node)
    requires n.Valid()
    ensures r.Valid()
  {
    var sessions := if n.cancel.Some? then n.sessions[n.cancel.value := n.sessions[n.cancel.value].(live := false)]
                    else n.sessions;
    var backends := if n.current.Some? then n.backends[n.current.value := ShutDown(n.backends[n.current.value])]
                    else n.backends;
    n.(sessions := sessions, backends := backends, current := None)
  }

  function TakeAway(n: Node): (r: Node)
    requires n.Valid()
    ensures r.Valid()
  {
    if n.current.Some? then Disconnected(n) else n
  }

  function HandleRpcStart(n: Node, request: Request): (r: Node)
    requires n.Valid()
    ensures r.Valid()
  {
    if request.Rejected? then n
    else
      var m := BackendStarted(TakeAway(n), request.trial);
      if request.trial.Succeeds() then Connected(m, request.keepAlive) else m
  }

  function HandleRestStart(n: Node, request: Request): (r: Node)
    requires n.Valid()
    ensures r.Valid()
  {
    if request.Rejected? then n
    else BackendStarted(Connected(TakeAway(n), request.keepAlive), request.trial)
  }

  predicate HasProcess(n: Node, b: nat, pid: nat) { b < |n.backends| && pid < |n.backends[b].core.procs| }

  predicate Enabled(n: Node, ev: Event)
    requires n.Valid()
  {
    match ev
    case RpcStart(_) => true
    case RestStart(_) => true
    case StopRequest => true
    case SyncUsersRequest(_) => n.current.Some?
    case KeepAliveFires(s) => s < |n.sessions| && n.sessions[s].live && n.sessions[s].keepAlive > 0
    case ProcessExits(b, pid) => HasProcess(n, b, pid) && n.backends[b].core.procs[pid].Running?
    case ProcessReaped(b, pid) => HasProcess(n, b, pid) && n.backends[b].core.procs[pid].Ended?
    case ProbeBegins(b) => b < |n.backends| && n.backends[b].watched && !n.backends[b].probing
    case ProbeEnds(b, _) => b < |n.backends| && n.backends[b].probing
  }

  function WithCore(n: Node, b: nat, core: Core): (r: Node)
    requires b < |n.backends|
    ensures n.Valid() && core.Valid() ==> r.Valid()
  {
    n.(backends := n.backends[b := n.backends[b].(core := core)])
  }

  function Next(n: Node, ev: Event): (r: Node)
    requires n.Valid() && Enabled(n, ev)
    ensures r.Valid()
  {
    match ev
    case RpcStart(request) => HandleRpcStart(n, request)
    case RestStart(request) => HandleRestStart(n, request)
    case StopRequest => Disconnected(n)
    case SyncUsersRequest(retry) => WithCore(n, n.current.value, Restarted(n.backends[n.current.value].core, retry))
    case KeepAliveFires(_) => Disconnected(n)
    case ProcessExits(b, pid) => WithCore(n, b, n.backends[b].core.(procs := n.backends[b].core.procs[pid := Ended]))
    case ProcessReaped(b, pid) => WithCore(n, b, n.backends[b].core.(procs := n.backends[b].core.procs[pid := Reaped]))
    case ProbeBegins(b) => n.(backends := n.backends[b := n.backends[b].(probing := true)])
    case ProbeEnds(b, probe) =>
      var m := n.(backends := n.backends[b := n.backends[b].(probing := false)]);
      match probe
      case Healthy => m
      case Unhealthy(retry) => WithCore(m, b, Restarted(m.backends[b].core, retry))
  }

  const INITIAL := Node([], None, [], None)

  // The node after these events, from n on; None if one of them cannot happen.
  function Run(n: Node, evs: seq<Event>): (r: Option<Node>)
    requires n.Valid()
    ensures r.Some? ==> r.value.Valid()
  {
    if evs == [] then Some(n)
    else
      match Run(n, evs[..|evs| - 1])
      case None => None
      case Some(m) => if Enabled(m, evs[|evs| - 1]) then Some(Next(m, evs[|evs| - 1])) else None
  }

  // ---------- processes ----------

  // The event shuts the current backend down.
  predicate Disconnects(n: Node, ev: Event) {
    n.current.Some? && (ev.StopRequest? || ev.KeepAliveFires? || ((ev.RpcStart? || ev.RestStart?) && ev.request.Tries?))
  }

  // No event of the run shuts a backend down while a probe of it is in flight.
  ghost predicate Quiet(n: Node, evs: seq<Event>)
    requires n.Valid()
  {
    forall i :: 0 <= i < |evs| && Run(n, evs[..i]).Some? && Disconnects(Run(n, evs[..i]).value, evs[i]) ==>
      var m := Run(n, evs[..i]).value;
      !m.backends[m.current.value].probing
  }

  ghost predicate NothingRuns(c: Core) { forall pid :: 0 <= pid < |c.procs| ==> !c.procs[pid].Running? }

  // Nothing runs, and nothing will start the core again.
  ghost predicate Finished(b: Backend) { NothingRuns(b.core) && !b.watched && !b.probing }

  // Of every backend at most the held process runs, and all but the current one are finished.
  ghost predicate OnlyCurrent(n: Node) {
    && (forall b :: 0 <= b < |n.backends| ==> OnlyHeldRuns(n.backends[b].core))
    && (forall b :: 0 <= b < |n.backends| && n.current != Some(b) ==> Finished(n.backends[b]))
  }

  // The sections of a core keep at most its held process running; a stop leaves none.
  lemma SectionsKeepHeld(c: Core, retry: Retry)
    requires c.Valid() && OnlyHeldRuns(c)
    ensures NothingRuns(StopSection(c)) && OnlyHeldRuns(StopSection(c))
    ensures OnlyHeldRuns(StartSection(c, retry.attempt).0) && OnlyHeldRuns(Restarted(c, retry))
    ensures !StartSection(c, retry.attempt).1 && c.process.None? ==> NothingRuns(StartSection(c, retry.attempt).0)
  {
  }

  /**
   A restart stops whatever ran and, if its start goes well, leaves exactly one new process running, which the core
   holds; otherwise it leaves nothing running and holds at most a process that has been waited for.
   */
  lemma RestartedMeans(c: Core, retry: Retry)
    requires c.Valid() && OnlyHeldRuns(c)
    ensures var r := Restarted(c, retry);
            if retry.prepared && retry.attempt.Spawns?
            then
              && r.process == Some(|c.procs|) && |r.procs| == |c.procs| + 1
              && forall pid :: 0 <= pid < |r.procs| ==> (r.procs[pid].Running? <==> pid == |c.procs|)
            else
              && |r.procs| == |c.procs| && NothingRuns(r)
              && (r.process.Some? ==> r.procs[r.process.value].Reaped?)
  {
    SectionsKeepHeld(c, retry);
  }

  /** What NewXray leaves behind is finished, with nothing that runs, unless it returns the backend. */
  lemma MadeIsSound(trial: Trial)
    ensures XrayMade(trial).Some? ==>
              var b := XrayMade(trial).value;
              OnlyHeldRuns(b.core) && !b.probing && (!trial.Succeeds() ==> Finished(b))
  {
    SectionsKeepHeld(NO_PROCESS, Retry(trial.prepared, trial.attempt));
    if trial.Starts() {
      var core := Elapsed(StartSection(NO_PROCESS, trial.attempt).0, trial.meanwhile);
      SectionsKeepHeld(core, Retry(trial.prepared, trial.attempt));
    }
  }

  lemma BackendStartedOnlyCurrent(n: Node, trial: Trial)
    requires n.Valid() && OnlyCurrent(n) && n.current == None
    ensures OnlyCurrent(BackendStarted(n, trial))
    ensures BackendStarted(n, trial).current.Some? <==> trial.Succeeds()
  {
    MadeIsSound(trial);
    var m := BackendStarted(n, trial);
    forall b | 0 <= b < |m.backends|
      ensures OnlyHeldRuns(m.backends[b].core) && (m.current != Some(b) ==> Finished(m.backends[b]))
    {
      if b < |n.backends| {
        assert m.backends[b] == n.backends[b];
      }
    }
  }

  // Shutting the current backend down stops its process; a probe in flight is all that can be left of it.
  lemma DisconnectedStops(n: Node)
    requires n.Valid() && OnlyCurrent(n)
    ensures Disconnected(n).Valid() && Disconnected(n).current == None
    ensures forall b :: 0 <= b < |Disconnected(n).backends| ==> NothingRuns(Disconnected(n).backends[b].core)
    ensures (n.current.Some? ==> !n.backends[n.current.value].probing) ==> OnlyCurrent(Disconnected(n))
  {
    if n.current.Some? {
      SectionsKeepHeld(n.backends[n.current.value].core, Retry(true, Fails));
    }
  }

  lemma StartsKeepOnlyCurrent(n: Node, trial: Trial, keepAlive: nat)
    requires n.Valid() && OnlyCurrent(n) && (n.current.Some? ==> !n.backends[n.current.value].probing)
    ensures OnlyCurrent(HandleRpcStart(n, Tries(trial, keepAlive)))
    ensures OnlyCurrent(HandleRestStart(n, Tries(trial, keepAlive)))
  {
    DisconnectedStops(n);
    BackendStartedOnlyCurrent(TakeAway(n), trial);
    BackendStartedOnlyCurrent(Connected(TakeAway(n), keepAlive), trial);
  }

  lemma WithCoreKeepsOnlyCurrent(n: Node, b: nat, core: Core)
    requires OnlyCurrent(n) && b < |n.backends| && OnlyHeldRuns(core) && (n.current != Some(b) ==> NothingRuns(core))
    ensures OnlyCurrent(WithCore(n, b, core))
  {
  }

  lemma ProbeEndsKeepsOnlyCurrent(n: Node, b: nat, probe: Probe)
    requires n.Valid() && OnlyCurrent(n) && Enabled(n, ProbeEnds(b, probe))
    ensures OnlyCurrent(Next(n, ProbeEnds(b, probe)))
  {
    var m := n.(backends := n.backends[b := n.backends[b].(probing := false)]);
    assert n.current == Some(b);
    if probe.Unhealthy? {
      SectionsKeepHeld(m.backends[b].core, probe.retry);
      WithCoreKeepsOnlyCurrent(m, b, Restarted(m.backends[b].core, probe.retry));
    }
  }

  lemma NextKeepsOnlyCurrent(n: Node, ev: Event)
    requires n.Valid() && Enabled(n, ev) && OnlyCurrent(n)
    requires Disconnects(n, ev) ==> !n.backends[n.current.value].probing
    ensures OnlyCurrent(Next(n, ev))
  {
    match ev
    case RpcStart(request) =>
      if request.Tries? {
        StartsKeepOnlyCurrent(n, request.trial, request.keepAlive);
      }
    case RestStart(request) =>
      if request.Tries? {
        StartsKeepOnlyCurrent(n, request.trial, request.keepAlive);
      }
    case StopRequest => DisconnectedStops(n);
    case KeepAliveFires(_) => DisconnectedStops(n);
    case SyncUsersRequest(retry) =>
      var core := n.backends[n.current.value].core;
      SectionsKeepHeld(core, retry);
      WithCoreKeepsOnlyCurrent(n, n.current.value, Restarted(core, retry));
    case ProcessExits(b, pid) =>
      WithCoreKeepsOnlyCurrent(n, b, n.backends[b].core.(procs := n.backends[b].core.procs[pid := Ended]));
    case ProcessReaped(b, pid) =>
      WithCoreKeepsOnlyCurrent(n, b, n.backends[b].core.(procs := n.backends[b].core.procs[pid := Reaped]));
    case ProbeBegins(b) =>
    case ProbeEnds(b, probe) => ProbeEndsKeepsOnlyCurrent(n, b, probe);
  }

  /**
   Over any serial run in which no probe is in flight at a shutdown, every backend ever created is the current one
   or finished: nothing of it runs and nothing will start it again.
   */
  lemma {:induction false} QuietRunsOnlyCurrent(evs: seq<Event>)
    requires Run(INITIAL, evs).Some? && Quiet(INITIAL, evs)
    ensures OnlyCurrent(Run(INITIAL, evs).value)
  {
    if evs != [] {
      var init := evs[..|evs| - 1];
      assert forall i :: 0 <= i < |init| ==> evs[..i] == init[..i] && evs[i] == init[i];
      QuietRunsOnlyCurrent(init);
      NextKeepsOnlyCurrent(Run(INITIAL, init).value, evs[|evs| - 1]);
    }
  }

  ghost predicate Runs(n: Node, b: nat, pid: nat) {
    HasProcess(n, b, pid) && n.backends[b].core.procs[pid].Running?
  }

  /** Over such a run at most one process of the whole node is alive: of all its backends, with all their starts. */
  lemma OneProcessOfAll(evs: seq<Event>, b1: nat, pid1: nat, b2: nat, pid2: nat)
    requires Run(INITIAL, evs).Some? && Quiet(INITIAL, evs)
    requires Runs(Run(INITIAL, evs).value, b1, pid1) && Runs(Run(INITIAL, evs).value, b2, pid2)
    ensures b1 == b2 && pid1 == pid2 && Run(INITIAL, evs).value.current == Some(b1)
  {
    QuietRunsOnlyCurrent(evs);
  }

  ghost predicate AllStill(n: Node) { forall b :: 0 <= b < |n.backends| ==> NothingRuns(n.backends[b].core) }

  lemma FailedTrialKeepsStill(n: Node, trial: Trial)
    requires n.Valid() && n.current == None && AllStill(n) && !trial.Succeeds()
    ensures BackendStarted(n, trial).current == None && AllStill(BackendStarted(n, trial))
  {
    MadeIsSound(trial);
    var m := BackendStarted(n, trial);
    forall b | 0 <= b < |m.backends| ensures NothingRuns(m.backends[b].core) {
      if b < |n.backends| {
        assert m.backends[b] == n.backends[b];
      }
    }
  }

  /**
   After a quiet run, a start that fails at whatever step leaves no process of any backend alive and no backend
   current, through either front end; even if a probe was in flight when it took the backend away.
   */
  lemma FailedStartLeavesNothing(evs: seq<Event>, request: Request)
    requires Run(INITIAL, evs).Some? && Quiet(INITIAL, evs) && request.Tries? && !request.trial.Succeeds()
    ensures var n := Run(INITIAL, evs).value;
            && HandleRpcStart(n, request).current == None && AllStill(HandleRpcStart(n, request))
            && HandleRestStart(n, request).current == None && AllStill(HandleRestStart(n, request))
  {
    var n := Run(INITIAL, evs).value;
    QuietRunsOnlyCurrent(evs);
    DisconnectedStops(n);
    FailedTrialKeepsStill(TakeAway(n), request.trial);
    FailedTrialKeepsStill(Connected(TakeAway(n), request.keepAlive), request.trial);
  }

  /** After a quiet run, a stop request or a keep-alive leaves no process of any backend running and no backend. */
  lemma StopLeavesNothing(evs: seq<Event>, ev: Event)
    requires Run(INITIAL, evs).Some? && Quiet(INITIAL, evs) && Enabled(Run(INITIAL, evs).value, ev)
    requires ev.StopRequest? || ev.KeepAliveFires?
    ensures var m := Next(Run(INITIAL, evs).value, ev); m.current == None && AllStill(m)
  {
    QuietRunsOnlyCurrent(evs);
    DisconnectedStops(Run(INITIAL, evs).value);
  }

  /**
   After a quiet run, a start that succeeds makes its new backend the current one, watched and with the process of the
   new core; nothing else runs, and the latest session is live with the keep-alive that was asked for.
   */
  lemma SuccessfulStartRuns(evs: seq<Event>, trial: Trial, keepAlive: nat)
    requires Run(INITIAL, evs).Some? && Quiet(INITIAL, evs) && trial.Succeeds()
    ensures var n := Run(INITIAL, evs).value;
            && Serves(n, HandleRpcStart(n, Tries(trial, keepAlive)), trial, keepAlive)
            && Serves(n, HandleRestStart(n, Tries(trial, keepAlive)), trial, keepAlive)
  {
    QuietRunsOnlyCurrent(evs);
    DisconnectedStops(Run(INITIAL, evs).value);
  }

  ghost predicate Serves(n: Node, m: Node, trial: Trial, keepAlive: nat) {
    && m.current == Some(|n.backends|) && |m.backends| == |n.backends| + 1
    && m.backends[|n.backends|] == Backend(Core([trial.meanwhile], Some(0)), true, false)
    && (forall b :: 0 <= b < |n.backends| ==> NothingRuns(m.backends[b].core))
    && m.sessions != [] && m.sessions[|m.sessions| - 1] == Session(true, keepAlive)
  }

  /** A SyncUsers request and an unhealthy probe restart the core of their backend and touch nothing else. */
  lemma RestartsTheCore(n: Node, ev: Event, b: nat, retry: Retry)
    requires n.Valid() && Enabled(n, ev) && b < |n.backends| && OnlyHeldRuns(n.backends[b].core)
    requires ev == ProbeEnds(b, Unhealthy(retry)) || (ev == SyncUsersRequest(retry) && n.current == Some(b))
    ensures var m := Next(n, ev);
            && m.current == n.current && m.sessions == n.sessions && |m.backends| == |n.backends|
            && (forall i :: 0 <= i < |n.backends| && i != b ==> m.backends[i] == n.backends[i])
            && (if retry.prepared && retry.attempt.Spawns?
                then OnlyAlive(m.backends[b].core, |n.backends[b].core.procs|)
                else NothingRuns(m.backends[b].core))
  {
    RestartedMeans(n.backends[b].core, retry);
  }

  // No continuation brings a process of backend b back.
  ghost predicate StaysDead(n: Node, b: nat)
    requires n.Valid() && b < |n.backends|
  {
    forall evs {:trigger Run(n, evs)} :: Run(n, evs).Some? ==>
      b < |Run(n, evs).value.backends| && NothingRuns(Run(n, evs).value.backends[b].core)
  }

  // Backend b is finished and not current.
  ghost predicate Gone(n: Node, b: nat) {
    b < |n.backends| && Finished(n.backends[b]) && n.current != Some(b)
  }

  lemma BackendStartedGone(n: Node, b: nat, trial: Trial)
    requires n.Valid() && Gone(n, b)
    ensures Gone(BackendStarted(n, trial), b)
  {
    MadeIsSound(trial);
    var m := BackendStarted(n, trial);
    assert m.backends[b] == n.backends[b];
  }

  lemma DisconnectedGone(n: Node, b: nat)
    requires n.Valid() && Gone(n, b)
    ensures Gone(Disconnected(n), b) && Gone(TakeAway(n), b)
  {
  }

  lemma StartsGone(n: Node, b: nat, trial: Trial, keepAlive: nat)
    requires n.Valid() && Gone(n, b)
    ensures Gone(HandleRpcStart(n, Tries(trial, keepAlive)), b)
    ensures Gone(HandleRestStart(n, Tries(trial, keepAlive)), b)
  {
    DisconnectedGone(n, b);
    BackendStartedGone(TakeAway(n), b, trial);
    BackendStartedGone(Connected(TakeAway(n), keepAlive), b, trial);
  }

  lemma WithCoreGone(n: Node, b: nat, other: nat, core: Core)
    requires Gone(n, b) && other < |n.backends| && (other == b ==> NothingRuns(core))
    ensures Gone(WithCore(n, other, core), b)
  {
  }

  lemma NextGone(n: Node, b: nat, ev: Event)
    requires n.Valid() && Enabled(n, ev) && Gone(n, b)
    ensures Gone(Next(n, ev), b)
  {
    match ev
    case RpcStart(request) =>
      if request.Tries? {
        StartsGone(n, b, request.trial, request.keepAlive);
      }
    case RestStart(request) =>
      if request.Tries? {
        StartsGone(n, b, request.trial, request.keepAlive);
      }
    case StopRequest => DisconnectedGone(n, b);
    case KeepAliveFires(_) => DisconnectedGone(n, b);
    case SyncUsersRequest(retry) =>
      WithCoreGone(n, b, n.current.value, Restarted(n.backends[n.current.value].core, retry));
    case ProcessExits(other, pid) =>
      var core := n.backends[other].core;
      WithCoreGone(n, b, other, core.(procs := core.procs[pid := Ended]));
    case ProcessReaped(other, pid) =>
      var core := n.backends[other].core;
      WithCoreGone(n, b, other, core.(procs := core.procs[pid := Reaped]));
    case ProbeBegins(_) =>
    case ProbeEnds(_, _) =>
  }

  lemma {:induction false} GoneStaysGone(n: Node, b: nat, evs: seq<Event>)
    requires n.Valid() && Gone(n, b) && Run(n, evs).Some?
    ensures Gone(Run(n, evs).value, b)
  {
    if evs != [] {
      GoneStaysGone(n, b, evs[..|evs| - 1]);
      NextGone(Run(n, evs[..|evs| - 1]).value, b, evs[|evs| - 1]);
    }
  }

  ghost predicate AllHeld(n: Node) { forall b :: 0 <= b < |n.backends| ==> OnlyHeldRuns(n.backends[b].core) }

  lemma DisconnectedHeld(n: Node)
    requires n.Valid() && AllHeld(n)
    ensures AllHeld(Disconnected(n)) && AllHeld(TakeAway(n))
  {
    if n.current.Some? {
      SectionsKeepHeld(n.backends[n.current.value].core, Retry(true, Fails));
    }
  }

  lemma BackendStartedHeld(n: Node, trial: Trial)
    requires n.Valid() && AllHeld(n)
    ensures AllHeld(BackendStarted(n, trial))
  {
    MadeIsSound(trial);
  }

  lemma StartsHeld(n: Node, trial: Trial, keepAlive: nat)
    requires n.Valid() && AllHeld(n)
    ensures AllHeld(HandleRpcStart(n, Tries(trial, keepAlive))) && AllHeld(HandleRestStart(n, Tries(trial, keepAlive)))
  {
    DisconnectedHeld(n);
    BackendStartedHeld(TakeAway(n), trial);
    BackendStartedHeld(Connected(TakeAway(n), keepAlive), trial);
  }

  lemma WithCoreHeld(n: Node, b: nat, core: Core)
    requires AllHeld(n) && b < |n.backends| && OnlyHeldRuns(core)
    ensures AllHeld(WithCore(n, b, core))
  {
  }

  lemma ProbeEndsHeld(n: Node, b: nat, probe: Probe)
    requires n.Valid() && AllHeld(n) && Enabled(n, ProbeEnds(b, probe))
    ensures AllHeld(Next(n, ProbeEnds(b, probe)))
  {
    var m := n.(backends := n.backends[b := n.backends[b].(probing := false)]);
    if probe.Unhealthy? {
      SectionsKeepHeld(m.backends[b].core, probe.retry);
      WithCoreHeld(m, b, Restarted(m.backends[b].core, probe.retry));
    }
  }

  lemma NextHeld(n: Node, ev: Event)
    requires n.Valid() && Enabled(n, ev) && AllHeld(n)
    ensures AllHeld(Next(n, ev))
  {
    match ev
    case RpcStart(request) =>
      if request.Tries? {
        StartsHeld(n, request.trial, request.keepAlive);
      }
    case RestStart(request) =>
      if request.Tries? {
        StartsHeld(n, request.trial, request.keepAlive);
      }
    case StopRequest => DisconnectedHeld(n);
    case KeepAliveFires(_) => DisconnectedHeld(n);
    case SyncUsersRequest(retry) =>
      var core := n.backends[n.current.value].core;
      SectionsKeepHeld(core, retry);
      WithCoreHeld(n, n.current.value, Restarted(core, retry));
    case ProcessExits(b, pid) =>
      WithCoreHeld(n, b, n.backends[b].core.(procs := n.backends[b].core.procs[pid := Ended]));
    case ProcessReaped(b, pid) =>
      WithCoreHeld(n, b, n.backends[b].core.(procs := n.backends[b].core.procs[pid := Reaped]));
    case ProbeBegins(_) =>
    case ProbeEnds(b, probe) => ProbeEndsHeld(n, b, probe);
  }

  /** Over every serial run, quiet or not, a backend has at most one process alive: the one its core holds. */
  lemma {:induction false} EveryRunHeld(evs: seq<Event>)
    requires Run(INITIAL, evs).Some?
    ensures AllHeld(Run(INITIAL, evs).value)
  {
    if evs != [] {
      EveryRunHeld(evs[..|evs| - 1]);
      NextHeld(Run(INITIAL, evs[..|evs| - 1]).value, evs[|evs| - 1]);
    }
  }

  /**
   After every serial run, a backend that is now shut down stays dead over all continuations exactly when no probe of
   it is in flight: a late probe finds it unhealthy and starts its core again.
   */
  lemma ShutDownIsFinalIff(evs: seq<Event>)
    requires Run(INITIAL, evs).Some? && Run(INITIAL, evs).value.current.Some?
    ensures var n := Run(INITIAL, evs).value;
            StaysDead(Disconnected(n), n.current.value) <==> !n.backends[n.current.value].probing
  {
    var n := Run(INITIAL, evs).value;
    var b, m := n.current.value, Disconnected(n);
    EveryRunHeld(evs);
    SectionsKeepHeld(n.backends[b].core, Retry(true, Fails));
    if n.backends[b].probing {
      LateProbeRevives(m, b);
    } else {
      forall late | Run(m, late).Some?
        ensures b < |Run(m, late).value.backends| && NothingRuns(Run(m, late).value.backends[b].core)
      {
        GoneStaysGone(m, b, late);
      }
    }
  }

  lemma LateProbeRevives(m: Node, b: nat)
    requires m.Valid() && b < |m.backends| && m.backends[b].probing
    ensures !StaysDead(m, b)
  {
    var retry := Retry(true, Spawns);
    var late := [ProbeEnds(b, Unhealthy(retry))];
    assert late[..0] == [];
    assert Run(m, []) == Some(m);
    var core := Restarted(m.backends[b].core, retry);
    assert Run(m, late).value.backends[b].core == core;
    assert core.procs[|core.procs| - 1].Running?;
  }

  /**
   A rejected start leaves the node as it is, through either front end; a healthy probe leaves every core as it is.
   */
  lemma NothingHappens(n: Node, b: nat)
    requires n.Valid()
    ensures Enabled(n, RpcStart(Rejected)) && Next(n, RpcStart(Rejected)) == n
    ensures Enabled(n, RestStart(Rejected)) && Next(n, RestStart(Rejected)) == n
    ensures Enabled(n, ProbeEnds(b, Healthy)) ==>
              OnlyBackend(n, b, n.backends[b].(probing := false), Next(n, ProbeEnds(b, Healthy)))
  {
  }

  // Backend b is as given and everything else as before.
  ghost predicate OnlyBackend(n: Node, b: nat, after: Backend, m: Node) {
    && m.current == n.current && m.sessions == n.sessions && m.cancel == n.cancel && |m.backends| == |n.backends|
    && forall i :: 0 <= i < |n.backends| ==> m.backends[i] == if i == b then after else n.backends[i]
  }

  /** An exit, a wait and the beginning of a probe each change just that of one backend. */
  lemma EnvironmentMeans(n: Node, b: nat, pid: nat)
    requires n.Valid() && b < |n.backends|
    ensures var backend := n.backends[b];
            && (Enabled(n, ProcessExits(b, pid)) ==>
                  OnlyBackend(n, b, backend.(core := Core(backend.core.procs[pid := Ended], backend.core.process)),
                              Next(n, ProcessExits(b, pid))))
            && (Enabled(n, ProcessReaped(b, pid)) ==>
                  OnlyBackend(n, b, backend.(core := Core(backend.core.procs[pid := Reaped], backend.core.process)),
                              Next(n, ProcessReaped(b, pid))))
            && (Enabled(n, ProbeBegins(b)) ==>
                  OnlyBackend(n, b, backend.(probing := true), Next(n, ProbeBegins(b))))
  {
  }

  // ---------- sessions ----------

  // The backend is set iff the latest session is uncancelled, and no earlier session is.
  ghost predicate SessionOk(n: Node) {
    && (n.current.Some? <==> n.sessions != [] && n.sessions[|n.sessions| - 1].live)
    && (forall i :: 0 <= i < |n.sessions| - 1 ==> !n.sessions[i].live)
  }

  ghost predicate CancelsLatest(n: Node) {
    if n.sessions == [] then n.cancel == None else n.cancel == Some(|n.sessions| - 1)
  }

  // StartBackend fails after the REST handler has connected.
  predicate FailsConnected(ev: Event) {
    ev.RestStart? && ev.request.Tries? && !ev.request.trial.Succeeds()
  }

  lemma TakeAwayEndsSessions(n: Node)
    requires n.Valid() && SessionOk(n) && CancelsLatest(n)
    ensures TakeAway(n).current == None && SessionOk(TakeAway(n)) && CancelsLatest(TakeAway(n))
    ensures SessionOk(Disconnected(n)) && CancelsLatest(Disconnected(n))
  {
  }

  lemma BackendStartedSessions(n: Node, trial: Trial)
    requires n.Valid() && n.current == None
    ensures var m := BackendStarted(n, trial);
            m.sessions == n.sessions && m.cancel == n.cancel && (m.current.Some? <==> trial.Succeeds())
  {
    MadeIsSound(trial);
  }

  lemma StartSessions(n: Node, trial: Trial, keepAlive: nat)
    requires n.Valid() && SessionOk(n) && CancelsLatest(n)
    ensures var m := HandleRpcStart(n, Tries(trial, keepAlive)); CancelsLatest(m) && SessionOk(m)
    ensures var m := HandleRestStart(n, Tries(trial, keepAlive));
            CancelsLatest(m) && (SessionOk(m) <==> trial.Succeeds())
  {
    var free := TakeAway(n);
    TakeAwayEndsSessions(n);
    BackendStartedSessions(free, trial);
    var connected := Connected(free, keepAlive);
    BackendStartedSessions(connected, trial);
    var m := HandleRestStart(n, Tries(trial, keepAlive));
    assert m.sessions == free.sessions + [Session(true, keepAlive)];
    assert m.sessions[|m.sessions| - 1].live;
  }

  lemma NextSessions(n: Node, ev: Event)
    requires n.Valid() && Enabled(n, ev) && SessionOk(n) && CancelsLatest(n)
    ensures CancelsLatest(Next(n, ev)) && (SessionOk(Next(n, ev)) <==> !FailsConnected(ev))
  {
    match ev
    case RpcStart(request) =>
      if request.Tries? {
        StartSessions(n, request.trial, request.keepAlive);
      }
    case RestStart(request) =>
      if request.Tries? {
        StartSessions(n, request.trial, request.keepAlive);
      }
    case StopRequest => TakeAwayEndsSessions(n);
    case KeepAliveFires(_) => TakeAwayEndsSessions(n);
    case _ =>
  }

  lemma {:induction false} SessionsAlongRun(evs: seq<Event>)
    requires Run(INITIAL, evs).Some? && forall i :: 0 <= i < |evs| ==> !FailsConnected(evs[i])
    ensures SessionOk(Run(INITIAL, evs).value) && CancelsLatest(Run(INITIAL, evs).value)
  {
    if evs != [] {
      SessionsAlongRun(evs[..|evs| - 1]);
      NextSessions(Run(INITIAL, evs[..|evs| - 1]).value, evs[|evs| - 1]);
    }
  }

  lemma {:induction false} RunPrefix(n: Node, evs: seq<Event>, i: nat)
    requires n.Valid() && Run(n, evs).Some? && i <= |evs|
    ensures Run(n, evs[..i]).Some?
  {
    if i < |evs| {
      RunPrefix(n, evs[..|evs| - 1], i);
      assert evs[..|evs| - 1][..i] == evs[..i];
    } else {
      assert evs[..i] == evs;
    }
  }

  // After every event of the run the session is in order.
  ghost predicate AlwaysInOrder(evs: seq<Event>) {
    forall i {:trigger Run(INITIAL, evs[..i])} :: 0 <= i <= |evs| ==>
      Run(INITIAL, evs[..i]).Some? && SessionOk(Run(INITIAL, evs[..i]).value)
  }

  lemma FirstFailure(evs: seq<Event>) returns (i: nat)
    requires exists j :: 0 <= j < |evs| && FailsConnected(evs[j])
    ensures i < |evs| && FailsConnected(evs[i]) && forall j :: 0 <= j < i ==> !FailsConnected(evs[j])
  {
    i := 0;
    while !FailsConnected(evs[i])
      invariant i < |evs| && forall j :: 0 <= j < i ==> !FailsConnected(evs[j])
      decreases |evs| - i
    {
      i := i + 1;
    }
  }

  lemma InOrderUnlessFailing(evs: seq<Event>)
    requires Run(INITIAL, evs).Some? && forall i :: 0 <= i < |evs| ==> !FailsConnected(evs[i])
    ensures AlwaysInOrder(evs)
  {
    forall i | 0 <= i <= |evs|
      ensures Run(INITIAL, evs[..i]).Some? && SessionOk(Run(INITIAL, evs[..i]).value)
    {
      RunPrefix(INITIAL, evs, i);
      SessionsAlongRun(evs[..i]);
    }
  }

  lemma OutOfOrderAfter(evs: seq<Event>, i: nat)
    requires Run(INITIAL, evs).Some? && i < |evs| && FailsConnected(evs[i])
    requires forall j :: 0 <= j < i ==> !FailsConnected(evs[j])
    ensures Run(INITIAL, evs[..i + 1]).Some? && !SessionOk(Run(INITIAL, evs[..i + 1]).value)
  {
    RunPrefix(INITIAL, evs, i + 1);
    RunOne(INITIAL, evs, i);
    SessionsAlongRun(evs[..i]);
    NextSessions(Run(INITIAL, evs[..i]).value, evs[i]);
  }

  lemma RunOne(n: Node, evs: seq<Event>, i: nat)
    requires n.Valid() && i < |evs| && Run(n, evs[..i + 1]).Some?
    ensures Run(n, evs[..i]).Some? && Enabled(Run(n, evs[..i]).value, evs[i])
    ensures Run(n, evs[..i + 1]).value == Next(Run(n, evs[..i]).value, evs[i])
  {
    assert evs[..i + 1][..i] == evs[..i];
  }

  /**
   After every event of a serial run the backend is set iff the latest session is uncancelled, with no earlier
   session alive, exactly when no REST start fails in StartBackend. gRPC starts never break it.
   */
  lemma SessionsInOrderIff(evs: seq<Event>)
    requires Run(INITIAL, evs).Some?
    ensures AlwaysInOrder(evs) <==> forall i :: 0 <= i < |evs| ==> !FailsConnected(evs[i])
  {
    if forall i :: 0 <= i < |evs| ==> !FailsConnected(evs[i]) {
      InOrderUnlessFailing(evs);
    } else {
      var i := FirstFailure(evs);
      OutOfOrderAfter(evs, i);
    }
  }

  // No start of the run asks for a keep-alive.
  ghost predicate WithoutKeepAlive(evs: seq<Event>) {
    forall i :: 0 <= i < |evs| ==>
      (evs[i].RpcStart? || evs[i].RestStart?) && evs[i].request.Tries? ==> evs[i].request.keepAlive == 0
  }

  lemma NextWithoutTrackers(n: Node, ev: Event)
    requires n.Valid() && Enabled(n, ev) && WithoutKeepAlive([ev])
    requires forall i :: 0 <= i < |n.sessions| ==> n.sessions[i].keepAlive == 0
    ensures var m := Next(n, ev); forall i :: 0 <= i < |m.sessions| ==> m.sessions[i].keepAlive == 0
  {
    assert [ev][0] == ev;
    match ev
    case RpcStart(request) =>
      if request.Tries? {
        BackendStartedSessionsStay(TakeAway(n), request.trial);
      }
    case RestStart(request) =>
      if request.Tries? {
        BackendStartedSessionsStay(Connected(TakeAway(n), request.keepAlive), request.trial);
      }
    case _ =>
  }

  lemma BackendStartedSessionsStay(n: Node, trial: Trial)
    requires n.Valid()
    ensures BackendStarted(n, trial).sessions == n.sessions
  {
  }

  /** Where no start asks for a keep-alive, no session is ever ended by one. */
  lemma {:induction false} SilentWithoutKeepAlive(evs: seq<Event>)
    requires Run(INITIAL, evs).Some? && WithoutKeepAlive(evs)
    ensures var n := Run(INITIAL, evs).value; forall i :: 0 <= i < |n.sessions| ==> n.sessions[i].keepAlive == 0
    ensures forall i :: 0 <= i < |evs| ==> !evs[i].KeepAliveFires?
  {
    if evs != [] {
      var init, last := evs[..|evs| - 1], evs[|evs| - 1];
      assert forall i :: 0 <= i < |init| ==> init[i] == evs[i];
      SilentWithoutKeepAlive(init);
      assert [last][0] == last;
      NextWithoutTrackers(Run(INITIAL, init).value, last);
    }
  }

  lemma NextKeepsCancelled(n: Node, ev: Event, k: nat)
    requires n.Valid() && Enabled(n, ev) && k < |n.sessions| && !n.sessions[k].live
    ensures k < |Next(n, ev).sessions| && !Next(n, ev).sessions[k].live
  {
  }

  /** No tracker outlives its session: once that is cancelled, its keep-alive fires in no continuation. */
  lemma {:induction false} CancelledIsSilent(n: Node, evs: seq<Event>, k: nat)
    requires n.Valid() && Run(n, evs).Some? && k < |n.sessions| && !n.sessions[k].live
    ensures k < |Run(n, evs).value.sessions| && !Run(n, evs).value.sessions[k].live
    ensures forall i :: 0 <= i < |evs| ==> evs[i] != KeepAliveFires(k)
  {
    if evs != [] {
      var init, last := evs[..|evs| - 1], evs[|evs| - 1];
      CancelledIsSilent(n, init, k);
      NextKeepsCancelled(Run(n, init).value, last, k);
      assert forall i :: 0 <= i < |init| ==> init[i] == evs[i];
    }
  }

  // A trial in which every step succeeds, and one that finds no config.
  const GOOD_TRIAL := Trial(true, true, true, true, true, Spawns, Running, StartCheck.Success, true)
  const BAD_TRIAL := GOOD_TRIAL.(configured := false)

  /**
   What the broken order leads to: a failed REST start leaves its session behind, a later start cannot cancel
   it, and its keep-alive tracker then takes the backend of the later client away.
   */
  lemma LeftoverTrackerDisconnects(k: nat)
    requires k > 0
    ensures var n1 := HandleRestStart(INITIAL, Tries(BAD_TRIAL, k));
            var n2 := HandleRpcStart(n1, Tries(GOOD_TRIAL, 0));
            && n2.current == Some(0) && n2.sessions == [Session(true, k), Session(true, 0)] && Runs(n2, 0, 0)
            && n2.Valid() && Enabled(n2, KeepAliveFires(0))
            && Next(n2, KeepAliveFires(0)).current == None && !Runs(Next(n2, KeepAliveFires(0)), 0, 0)
            && Next(n2, KeepAliveFires(0)).sessions[0].live
  {
    var n1 := HandleRestStart(INITIAL, Tries(BAD_TRIAL, k));
    assert n1 == Node([], None, [Session(true, k)], Some(0));
    var core := StartSection(NO_PROCESS, Spawns).0;
    assert core == Core([Running], Some(0)) && Elapsed(core, Running) == core;
    var m := BackendStarted(n1, GOOD_TRIAL);
    assert m.backends == [Backend(core, true, false)] && m.current == Some(0);
    assert HandleRpcStart(n1, Tries(GOOD_TRIAL, 0)) == Connected(m, 0);
  }
}
