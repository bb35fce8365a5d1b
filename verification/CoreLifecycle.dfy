/**
 The Core of backend/xray/core.go: starting, stopping and restarting the Xray process. Start and Stop are one
 critical section of the mutex each; Restart is four, with the mutex free in between, so any number of threads,
 and processes that end on their own, get in the way.
 */
module CoreLifecycle {
  import opened Options

  // A process runs, has ended (by itself or by a kill), or has ended and been waited for.
  datatype Process = Running | Ended | Reaped

  // The operating system's processes, in the order this core spawned them, and the one c.process holds.
  datatype Core = Core(procs: seq<Process>, process: Option<nat>)
  {
    predicate Valid() { process.Some? ==> process.value < |procs| }

    // exec.Cmd has no ProcessState until Wait returns.
    predicate Started()
      requires Valid()
    {
      process.Some? && !procs[process.value].Reaped?
    }
  }

  // A start gets as far as spawning, or fails on a pipe, a log file or the executable.
  datatype Attempt = Spawns | Fails

  function Killed(p: Process): Process { if p.Running? then Ended else p }

  function StartSection(c: Core, attempt: Attempt): (r: (Core, bool))
    requires c.Valid()
    ensures r.0.Valid()
  {
    if c.Started() then (c, false)
    else
      var procs := if c.process.Some? then c.procs[c.process.value := Killed(c.procs[c.process.value])] else c.procs;
      if attempt.Fails? then (Core(procs, None), false)
      else (Core(procs + [Running], Some(|procs|)), true)
  }

  function StopSection(c: Core): (r: Core)
    requires c.Valid()
    ensures r.Valid()
  {
    if !c.Started() then c
    else Core(c.procs[c.process.value := Killed(c.procs[c.process.value])], None)
  }

  // Time passes, and the held process ends or is waited for, or not.
  function Elapsed(c: Core, meanwhile: Process): (r: Core)
    requires c.Valid()
    ensures r.Valid()
  {
    if c.process.Some? then c.(procs := c.procs[c.process.value := meanwhile]) else c
  }

  class XrayCore {
    var procs: seq<Process>
    var process: Option<nat>
    var restarting: bool

    ghost function Now(): Core
      reads this
    {
      Core(procs, process)
    }

    ghost predicate Valid()
      reads this
    {
      Now().Valid()
    }

    constructor ()
      ensures Valid() && Now() == Core([], None) && !restarting
    {
      procs, process, restarting := [], None, false;
    }

    predicate Started()
      requires Valid()
      reads this
    {
      process.Some? && !procs[process.value].Reaped?
    }

    method Kill(pid: nat)
      requires pid < |procs|
      modifies `procs
      ensures procs == old(procs)[pid := Killed(old(procs)[pid])]
    {
      procs := procs[pid := Killed(procs[pid])];
    }

    // `prepared` is false if the log config is missing or the debug copy of the config cannot be written.
    method Start(prepared: bool, attempt: Attempt) returns (ok: bool)
      requires Valid()
      modifies `procs, `process
      ensures Valid()
      ensures (Now(), ok) == if prepared then StartSection(old(Now()), attempt) else (old(Now()), false)
    {
      if !prepared {
        return false;
      }
      if Started() {
        return false;
      }
      if process.Some? {
        Kill(process.value);
        process := None;
      }
      if attempt.Fails? {
        return false;
      }
      process := Some(|procs|);
      procs := procs + [Running];
      return true;
    }

    method Stop()
      requires Valid()
      modifies `procs, `process
      ensures Valid() && Now() == StopSection(old(Now()))
    {
      if !Started() {
        return;
      }
      Kill(process.value);
      process := None;
    }

    // What the operating system does to the held process while the node waits.
    method Wait(meanwhile: Process)
      requires Valid()
      modifies `procs
      ensures Valid() && Now() == Elapsed(old(Now()), meanwhile)
    {
      if process.Some? {
        procs := procs[process.value := meanwhile];
      }
    }

    // A restart that nothing interrupts.
    method Restart(prepared: bool, attempt: Attempt) returns (ok: bool)
      requires Valid()
      modifies this
      ensures Valid()
      ensures old(restarting) ==> !ok && restarting && Now() == old(Now())
      ensures !old(restarting) ==>
                && !restarting
                && (prepared ==> (Now(), ok) == StartSection(StopSection(old(Now())), attempt))
                && (!prepared ==> Now() == StopSection(old(Now())) && !ok)
    {
      if restarting {
        return false;
      }
      restarting := true;
      Stop();
      ok := Start(prepared, attempt);
      restarting := false;
    }
  }

  // ---------- all interleavings ----------

  // How far a thread is inside Restart: the flag is set; Stop is done; Start is done, well or badly.
  datatype Stage = FlagSet | Stopped | Leaving

  datatype System = System(core: Core, restarting: bool, inside: map<nat, Stage>)

  datatype Step =
    | Start(thread: nat, prepared: bool, attempt: Attempt)
    | Stop(thread: nat)
    | RestartEnter(thread: nat)
    | RestartStop(thread: nat)
    | RestartStart(thread: nat, prepared: bool, attempt: Attempt)
    | RestartLeave(thread: nat)
    | Exit(pid: nat)
    | Reap(pid: nat)

  // A thread inside Restart takes the steps of Restart in order; the others call what they like.
  predicate Enabled(s: System, a: Step) {
    match a
    case Start(t, _, _) => t !in s.inside
    case Stop(t) => t !in s.inside
    case RestartEnter(t) => t !in s.inside
    case RestartStop(t) => t in s.inside && s.inside[t] == FlagSet
    case RestartStart(t, _, _) => t in s.inside && s.inside[t] == Stopped
    case RestartLeave(t) => t in s.inside && s.inside[t] == Leaving
    case Exit(pid) => pid < |s.core.procs| && s.core.procs[pid].Running?
    case Reap(pid) => pid < |s.core.procs| && s.core.procs[pid].Ended?
  }

  function Next(s: System, a: Step): (r: System)
    requires s.core.Valid() && Enabled(s, a)
    ensures r.core.Valid()
  {
    match a
    case Start(_, prepared, attempt) =>
      if prepared then s.(core := StartSection(s.core, attempt).0) else s
    case Stop(_) => s.(core := StopSection(s.core))
    case RestartEnter(t) =>
      if s.restarting then s else s.(restarting := true, inside := s.inside[t := FlagSet])
    case RestartStop(t) => s.(core := StopSection(s.core), inside := s.inside[t := Stopped])
    case RestartStart(t, prepared, attempt) =>
      s.(core := if prepared then StartSection(s.core, attempt).0 else s.core, inside := s.inside[t := Leaving])
    case RestartLeave(t) => s.(restarting := false, inside := s.inside - {t})
    case Exit(pid) => s.(core := s.core.(procs := s.core.procs[pid := Ended]))
    case Reap(pid) => s.(core := s.core.(procs := s.core.procs[pid := Reaped]))
  }

  const INITIAL := System(Core([], None), false, map[])

  // The system after a trace of steps; None if some step is not enabled.
  function Run(trace: seq<Step>): (r: Option<System>)
    ensures r.Some? ==> r.value.core.Valid()
  {
    if trace == [] then Some(INITIAL)
    else
      match Run(trace[..|trace| - 1])
      case None => None
      case Some(s) => if Enabled(s, trace[|trace| - 1]) then Some(Next(s, trace[|trace| - 1])) else None
  }

  // Only the held process can be alive.
  ghost predicate OnlyHeldRuns(c: Core) {
    forall pid :: 0 <= pid < |c.procs| && c.procs[pid].Running? ==> c.process == Some(pid)
  }

  // The flag is set exactly while one thread, and only one, is inside Restart.
  ghost predicate FlagMarksOne(s: System) {
    && (s.restarting <==> exists t :: t in s.inside)
    && (forall t, u :: t in s.inside && u in s.inside ==> t == u)
  }

  lemma NextKeeps(s: System, a: Step)
    requires s.core.Valid() && Enabled(s, a) && OnlyHeldRuns(s.core) && FlagMarksOne(s)
    ensures OnlyHeldRuns(Next(s, a).core) && FlagMarksOne(Next(s, a))
  {
    var r := Next(s, a);
    match a
    case RestartEnter(t) => if !s.restarting { assert t in r.inside; }
    case RestartStop(t) => assert t in r.inside;
    case RestartStart(t, _, _) => assert t in r.inside;
    case _ =>
  }

  /**
   In every state that any interleaving of starts, stops, restart steps, exits and reaping reaches, no process
   but the held one is alive, and the restarting flag marks the one thread inside Restart.
   */
  lemma {:induction false} EveryReachableState(trace: seq<Step>)
    requires Run(trace).Some?
    ensures OnlyHeldRuns(Run(trace).value.core) && FlagMarksOne(Run(trace).value)
  {
    if trace != [] {
      EveryReachableState(trace[..|trace| - 1]);
      NextKeeps(Run(trace[..|trace| - 1]).value, trace[|trace| - 1]);
    }
  }

  /** At most one process is alive at any time. */
  lemma AtMostOneAlive(trace: seq<Step>, p: nat, q: nat)
    requires Run(trace).Some?
    requires var procs := Run(trace).value.core.procs;
             p < |procs| && q < |procs| && procs[p].Running? && procs[q].Running?
    ensures p == q
  {
    EveryReachableState(trace);
  }

  /** Whatever happened in between and however Start ended, leaving Restart clears the flag and frees the section. */
  lemma LeavingClears(trace: seq<Step>, t: nat)
    requires Run(trace).Some? && Enabled(Run(trace).value, RestartLeave(t))
    ensures var r := Next(Run(trace).value, RestartLeave(t));
            !r.restarting && r.inside == map[]
  {
    EveryReachableState(trace);
  }

  // The steps that thread t still has to make inside Restart.
  function Remaining(t: nat, stage: Stage, prepared: bool, attempt: Attempt): seq<Step> {
    match stage
    case FlagSet => [RestartStop(t), RestartStart(t, prepared, attempt), RestartLeave(t)]
    case Stopped => [RestartStart(t, prepared, attempt), RestartLeave(t)]
    case Leaving => [RestartLeave(t)]
  }

  lemma RunSnoc(trace: seq<Step>, a: Step)
    requires Run(trace).Some? && Enabled(Run(trace).value, a)
    ensures Run(trace + [a]) == Some(Next(Run(trace).value, a))
  {
    assert (trace + [a])[..|trace|] == trace;
  }

  /** From every reachable state the thread inside Restart can finish by itself, and then the flag is clear. */
  lemma RestartCanFinish(trace: seq<Step>, t: nat, prepared: bool, attempt: Attempt)
    requires Run(trace).Some? && t in Run(trace).value.inside
    ensures var rest := Remaining(t, Run(trace).value.inside[t], prepared, attempt);
            && Run(trace + rest).Some?
            && !Run(trace + rest).value.restarting && Run(trace + rest).value.inside == map[]
    decreases match Run(trace).value.inside[t] case FlagSet => 2 case Stopped => 1 case Leaving => 0
  {
    match Run(trace).value.inside[t]
    case FlagSet =>
      RunSnoc(trace, RestartStop(t));
      RestartCanFinish(trace + [RestartStop(t)], t, prepared, attempt);
      assert trace + [RestartStop(t)] + Remaining(t, Stopped, prepared, attempt)
          == trace + Remaining(t, FlagSet, prepared, attempt);
    case Stopped =>
      RunSnoc(trace, RestartStart(t, prepared, attempt));
      RestartCanFinish(trace + [RestartStart(t, prepared, attempt)], t, prepared, attempt);
      assert trace + [RestartStart(t, prepared, attempt)] + Remaining(t, Leaving, prepared, attempt)
          == trace + Remaining(t, Stopped, prepared, attempt);
    case Leaving =>
      RunSnoc(trace, RestartLeave(t));
      LeavingClears(trace, t);
  }

  // The sections change the state of the held process only.
  ghost predicate OthersStay(c: Core, after: Core) {
    && |c.procs| <= |after.procs|
    && forall pid :: 0 <= pid < |c.procs| && c.process != Some(pid) ==> after.procs[pid] == c.procs[pid]
  }

  /**
   In every reachable state: a stop leaves no process alive, and holds none unless the one it holds has been waited
   for. A start succeeds exactly when no process is held that has not been waited for, and it spawns; then the new
   process is held and the only one alive. A start that fails leaves everything as it is if such a process is held,
   and otherwise holds none, with none alive. No section touches a process that is not held.
   */
  lemma SectionsMean(trace: seq<Step>, attempt: Attempt)
    requires Run(trace).Some?
    ensures var c := Run(trace).value.core;
            var busy := c.process.Some? && !c.procs[c.process.value].Reaped?;
            var stopped, (started, ok) := StopSection(c), StartSection(c, attempt);
            && (forall pid :: 0 <= pid < |stopped.procs| ==> !stopped.procs[pid].Running?)
            && (stopped.process == if busy then None else c.process)
            && |stopped.procs| == |c.procs| && OthersStay(c, stopped) && OthersStay(c, started)
            && (ok <==> !busy && attempt.Spawns?)
            && (ok ==>
                  && started.process == Some(|c.procs|) && |started.procs| == |c.procs| + 1
                  && forall pid :: 0 <= pid < |started.procs| ==> (started.procs[pid].Running? <==> pid == |c.procs|))
            && (!ok && busy ==> started == c)
            && (!ok && !busy ==>
                  started.process == None && forall pid :: 0 <= pid < |started.procs| ==> !started.procs[pid].Running?)
  {
    EveryReachableState(trace);
  }

  /** What the steps outside Restart do in every reachable state; an exit and a wait change one process only. */
  lemma StepsMean(trace: seq<Step>, t: nat, attempt: Attempt, pid: nat)
    requires Run(trace).Some?
    ensures var s := Run(trace).value;
            && (t !in s.inside ==>
                  && NoneAlive(Next(s, Stop(t)).core) && Next(s, Start(t, false, attempt)) == s
                  && (s.core.process.None? && attempt.Spawns? ==>
                        OnlyAlive(Next(s, Start(t, true, attempt)).core, |s.core.procs|)))
            && (pid < |s.core.procs| && s.core.procs[pid].Running? ==>
                  Next(s, Exit(pid)) == s.(core := s.core.(procs := s.core.procs[pid := Ended])))
            && (pid < |s.core.procs| && s.core.procs[pid].Ended? ==>
                  Next(s, Reap(pid)) == s.(core := s.core.(procs := s.core.procs[pid := Reaped])))
  {
    SectionsMean(trace, attempt);
  }

  ghost predicate NoneAlive(c: Core) { forall p :: 0 <= p < |c.procs| ==> !c.procs[p].Running? }

  ghost predicate OnlyAlive(c: Core, pid: nat) {
    pid < |c.procs| && forall p :: 0 <= p < |c.procs| ==> (c.procs[p].Running? <==> p == pid)
  }

  /**
   A thread that goes through Restart with no other step in between replaces whatever ran by one new process, if that
   can be started, and by none otherwise; and leaves the flag clear.
   */
  lemma UndisturbedRestart(trace: seq<Step>, t: nat, prepared: bool, attempt: Attempt)
    requires Run(trace).Some? && !Run(trace).value.restarting
    ensures var all := trace + [RestartEnter(t)] + [RestartStop(t)] + [RestartStart(t, prepared, attempt)]
                         + [RestartLeave(t)];
            && Run(all).Some? && !Run(all).value.restarting && Run(all).value.inside == map[]
            && (if prepared && attempt.Spawns? then OnlyAlive(Run(all).value.core, |Run(trace).value.core.procs|)
                else NoneAlive(Run(all).value.core))
  {
    EveryReachableState(trace);
    SectionsMean(trace, attempt);
    var s := Run(trace).value;
    assert forall u :: u !in s.inside;
    var t1 := trace + [RestartEnter(t)];
    var t2 := t1 + [RestartStop(t)];
    var t3 := t2 + [RestartStart(t, prepared, attempt)];
    RunSnoc(trace, RestartEnter(t));
    RunSnoc(t1, RestartStop(t));
    RunSnoc(t2, RestartStart(t, prepared, attempt));
    RunSnoc(t3, RestartLeave(t));
    SectionsMean(t2, attempt);
    LeavingClears(t3, t);
  }
}
