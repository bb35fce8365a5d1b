/**
 The Xray object (backend/xray/xray.go) and the Controller (controller/controller.go) with the Start requests of
 both front ends, as objects: what they do to the cores and sessions is the step of NodeLifecycle.
 */
module Controllers {
  import opened Options
  import opened CoreLifecycle
  import opened NodeLifecycle

  // The Xray object as far as its core and its health job go; XrayUsers.Xray models the same object's user lists.
  class XrayInstance {
    const core: XrayCore
    var watched: bool
    var probing: bool

    ghost predicate Valid()
      reads this, core
    {
      core.Valid() && !core.restarting
    }

    ghost function Now(): Backend
      reads this, core
    {
      Backend(core.Now(), watched, probing)
    }

    constructor (core: XrayCore)
      requires core.Valid() && !core.restarting
      ensures Valid() && this.core == core && Now() == Backend(core.Now(), false, false)
    {
      this.core, watched, probing := core, false, false;
    }

    // Nothing of this backend runs afterwards, if at most the held process did.
    method Shutdown()
      requires Valid()
      modifies this, core
      ensures Valid() && Now() == ShutDown(old(Now()))
      ensures OnlyHeldRuns(old(Now().core)) ==> NothingRuns(Now().core) && !watched
    {
      SectionsKeepHeldIf(Now().core);
      watched := false;
      core.Stop();
    }

    method Restart(retry: Retry) returns (ok: bool)
      requires Valid()
      modifies core
      ensures Valid() && Now() == old(Now()).(core := Restarted(old(Now().core), retry))
      ensures ok <==> retry.prepared && retry.attempt.Spawns?
      ensures OnlyHeldRuns(old(Now().core)) ==>
                if ok then
                  && Now().core.process == Some(|old(Now().core.procs)|)
                  && forall pid :: 0 <= pid < |Now().core.procs| ==>
                       (Now().core.procs[pid].Running? <==> pid == |old(Now().core.procs)|)
                else NothingRuns(Now().core)
    {
      RestartedMeansIf(Now().core, retry);
      ok := core.Restart(retry.prepared, retry.attempt);
    }
  }

  // NewXray of backend/xray/xray.go. `made` is the object whose core was created, returned to the caller if `ok`.
  method Make(trial: Trial) returns (made: XrayInstance?, ok: bool)
    ensures ok <==> trial.Succeeds()
    ensures ok <==>
              && trial.paths && trial.configured && trial.applied && trial.version && trial.prepared
              && trial.attempt.Spawns? && trial.verdict.Success? && trial.client
    ensures ok ==> made != null && made.watched && !made.probing
    ensures ok ==> made.core.Now() == Core([trial.meanwhile], Some(0))
    ensures made != null && !ok ==> Finished(made.Now())
    ensures made == null <==> XrayMade(trial).None?
    ensures made != null ==>
              fresh(made) && fresh(made.core) && made.Valid() && made.Now() == XrayMade(trial).value
  {
    MadeIsSound(trial);
    if !(trial.paths && trial.configured && trial.applied && trial.version) {
      return null, false;
    }
    var core := new XrayCore();
    ok := core.Start(trial.prepared, trial.attempt);
    made := new XrayInstance(core);
    if ok {
      core.Wait(trial.meanwhile);
      if !trial.verdict.Success? || !trial.client {
        made.Shutdown();
        return made, false;
      }
      made.watched := true;
    }
  }

  lemma RestartedMeansIf(c: Core, retry: Retry)
    requires c.Valid()
    ensures OnlyHeldRuns(c) ==>
              var r := Restarted(c, retry);
              if retry.prepared && retry.attempt.Spawns?
              then
                && r.process == Some(|c.procs|)
                && forall pid :: 0 <= pid < |r.procs| ==> (r.procs[pid].Running? <==> pid == |c.procs|)
              else NothingRuns(r)
  {
    if OnlyHeldRuns(c) {
      RestartedMeans(c, retry);
    }
  }

  lemma SectionsKeepHeldIf(c: Core)
    requires c.Valid()
    ensures OnlyHeldRuns(c) ==> NothingRuns(StopSection(c))
  {
    if OnlyHeldRuns(c) {
      SectionsKeepHeld(c, Retry(true, Fails));
    }
  }

  class Controller {
    var backend: XrayInstance?
    var sessions: seq<Session>
    var cancel: Option<nat>
    // Every Xray object that got a core, and which of them is the backend.
    ghost var created: seq<XrayInstance>
    ghost var current: Option<nat>

    ghost function Cores(): set<object>
      reads this, created
    {
      set i | 0 <= i < |created| :: created[i].core
    }

    ghost predicate Valid()
      reads this, created, Cores()
    {
      && (backend == null <==> current == None)
      && (current.Some? ==> current.value < |created| && created[current.value] == backend)
      && (cancel.Some? ==> cancel.value < |sessions|)
      && (forall i :: 0 <= i < |created| ==> created[i].Valid())
      && (forall i, j :: 0 <= i < j < |created| ==> created[i] != created[j] && created[i].core != created[j].core)
    }

    ghost function State(): Node
      reads this, created, Cores()
    {
      Node(seq(|created|, (i: nat) requires i < |created| reads this, created, Cores() => created[i].Now()),
           current, sessions, cancel)
    }

    constructor ()
      ensures Valid() && State() == NodeLifecycle.INITIAL && created == []
    {
      backend, sessions, cancel, created, current := null, [], None, [], None;
    }

    // The new session is the last one and lives, it is the one cancelled next, and the earlier ones are as before.
    method Connect(keepAlive: nat)
      requires Valid()
      modifies `sessions, `cancel
      ensures Valid() && |sessions| == |old(sessions)| + 1 && cancel == Some(|old(sessions)|)
      ensures sessions[cancel.value] == Session(true, keepAlive) && sessions[..|old(sessions)|] == old(sessions)
      ensures State() == Connected(old(State()), keepAlive)
    {
      cancel := Some(|sessions|);
      sessions := sessions + [Session(true, keepAlive)];
    }

    // The session that a disconnect cancels is over, the backend is shut down, and there is none afterwards.
    method Disconnect()
      requires Valid()
      modifies `backend, `sessions, `current, if backend == null then {} else {backend, backend.core}
      ensures Valid() && backend == null && created == old(created)
      ensures |sessions| == |old(sessions)| && cancel == old(cancel)
      ensures forall i :: 0 <= i < |sessions| ==>
                sessions[i] == if cancel == Some(i) then old(sessions)[i].(live := false) else old(sessions)[i]
      ensures old(backend) != null && OnlyHeldRuns(old(backend.core.Now())) ==>
                NothingRuns(old(backend).core.Now()) && !old(backend).watched
      ensures old(State()).Valid() && State() == Disconnected(old(State()))
    {
      if cancel.Some? {
        sessions := sessions[cancel.value := sessions[cancel.value].(live := false)];
      }
      if backend != null {
        backend.Shutdown();
      }
      backend, current := null, None;
    }

    // A successful NewXray returns the object it made, watched; a failing one leaves behind at most a finished object.
    method NewXray(trial: Trial) returns (x: XrayInstance?)
      requires Valid()
      modifies `created
      ensures Valid() && (x != null <==> trial.Succeeds())
      ensures x != null ==> created == old(created) + [x] && x.watched
      ensures x == null ==> created == old(created) ||
                            (|created| == |old(created)| + 1 && created[..|old(created)|] == old(created)
                             && Finished(created[|old(created)|].Now()))
      ensures forall i :: |old(created)| <= i < |created| ==> fresh(created[i]) && fresh(created[i].core)
      ensures old(State()).Valid() && State() == XrayCreated(old(State()), trial).0
    {
      MadeIsSound(trial);
      var made, ok := Make(trial);
      x := null;
      if made != null {
        created := created + [made];
        assert State().backends == old(State().backends) + [made.Now()];
        if ok {
          x := made;
        }
      }
    }

    method StartBackend(trial: Trial) returns (ok: bool)
      requires Valid()
      modifies `created, `backend, `current
      ensures Valid() && (ok <==> trial.Succeeds())
      ensures !ok ==> backend == old(backend)
      ensures old(State()).Valid() && State() == BackendStarted(old(State()), trial)
    {
      var x := NewXray(trial);
      ok := x != null;
      if ok {
        backend, current := x, Some(|created| - 1);
      }
    }

    // Start of controller/rpc/base.go: connect only once the backend runs.
    method RpcStart(request: Request) returns (ok: bool)
      requires Valid()
      modifies this, if backend == null then {} else {backend, backend.core}
      ensures Valid() && old(State()).Valid() && State() == HandleRpcStart(old(State()), request)
      ensures ok <==> request.Tries? && request.trial.Succeeds()
    {
      ok := false;
      if request.Tries? {
        if backend != null {
          Disconnect();
        }
        ok := StartBackend(request.trial);
        if ok {
          Connect(request.keepAlive);
        }
      }
    }

    // Start of controller/rest/base.go: connect first.
    method RestStart(request: Request) returns (ok: bool)
      requires Valid()
      modifies this, if backend == null then {} else {backend, backend.core}
      ensures Valid() && old(State()).Valid() && State() == HandleRestStart(old(State()), request)
      ensures ok <==> request.Tries? && request.trial.Succeeds()
    {
      ok := false;
      if request.Tries? {
        if backend != null {
          Disconnect();
        }
        Connect(request.keepAlive);
        ok := StartBackend(request.trial);
      }
    }
  }
}
