/**
 Concurrent SyncUser calls for different users, and restarts of the core in the middle of them. No lock covers a
 whole call: on every inbound it removes the user from the core, edits the stored list under the inbound's mutex,
 and adds the account to the core. These steps mix freely with those of other calls and with those of a restart,
 which stops the core, reads all stored lists, and starts a core that loads what was read.
 */
module Interleaving {
  import opened Options
  import opened Accounts
  import opened ClientLists
  import opened LatestLists
  import opened UserSync
  import opened Agreement

  // What call t does on inbound k: the account it stores, the one it sends, and whether a running core takes it.
  datatype Calls = Calls(inbounds: nat, users: seq<User>,
                         stored: (nat, nat) -> Option<Account>, sent: (nat, nat) -> Option<Account>,
                         accepts: (nat, nat) -> bool)
  {
    ghost predicate Valid() {
      && DistinctEmails(users)
      && (forall t: nat, k: nat :: t < |users| && stored(t, k).Some? ==> IsFor(stored(t, k).value, users[t].email))
    }
  }

  function CallsOf(env: Env, profiles: seq<Profile>, users: seq<User>, accepts: (nat, nat) -> bool): Calls {
    Calls(|profiles|, users,
          (t: nat, k: nat) => if t < |users| && k < |profiles| then Stored(env, profiles[k], users[t]) else None,
          (t: nat, k: nat) => if t < |users| && k < |profiles| then Sent(env, profiles[k], users[t]) else None,
          accepts)
  }

  lemma CallsOfValid(env: Env, profiles: seq<Profile>, users: seq<User>, accepts: (nat, nat) -> bool)
    requires DistinctEmails(users)
    ensures CallsOf(env, profiles, users, accepts).Valid()
  {
    forall t: nat, k: nat | t < |users| && k < |profiles| && Stored(env, profiles[k], users[t]).Some?
      ensures IsFor(Stored(env, profiles[k], users[t]).value, users[t].email)
    {
      SentHasListKind(env, profiles[k], users[t]);
    }
  }

  // ---------- states and moves ----------

  // The core that ran at the start; none; or one that was loaded when the calls had made `at` steps, with the lists
  // read when they had made `read` steps.
  datatype Core = Original | Down | LoadedFrom(read: seq<nat>, at: seq<nat>)

  // The lists a restart has read, and how many steps the calls had made then.
  datatype ReadLists = ReadLists(read: seq<nat>, stored: seq<seq<Account>>)

  // pcs[t] counts the steps call t has made: three an inbound.
  datatype State = State(pcs: seq<nat>, views: seq<View>, core: Core, image: Option<ReadLists>)

  datatype Move = Call(t: nat) | CoreEnds | ConfigRead | CoreLoads

  ghost predicate Fits(c: Calls, s: State) {
    && |s.pcs| == |c.users| && |s.views| == c.inbounds
    && (forall t :: 0 <= t < |s.pcs| ==> s.pcs[t] <= 3 * c.inbounds)
    && (s.core.LoadedFrom? ==> |s.core.read| == |s.core.at| == |c.users|)
    && (s.image.Some? ==> |s.image.value.read| == |c.users| && |s.image.value.stored| == c.inbounds)
  }

  // One of the three steps of call t on an inbound, with a core that runs or not.
  function StepView(c: Calls, v: View, t: nat, k: nat, phase: nat, up: bool): View
    requires t < |c.users|
  {
    var e := c.users[t].email;
    if phase == 0 then v.(live := v.live - {e})
    else if phase == 1 then v.(stored := RemoveFirst(v.stored, e) + Present(c.stored(t, k)))
    else if c.sent(t, k).Some? && up && c.accepts(t, k) && e !in v.live then v.(live := v.live[e := c.sent(t, k).value])
    else v
  }

  function CallStep(c: Calls, s: State, t: nat): State
    requires Fits(c, s) && t < |c.users|
  {
    var pc := s.pcs[t];
    if pc == 3 * c.inbounds then s
    else s.(pcs := s.pcs[t := pc + 1],
            views := s.views[pc / 3 := StepView(c, s.views[pc / 3], t, pc / 3, pc % 3, !s.core.Down?)])
  }

  function Cleared(views: seq<View>): (r: seq<View>)
    ensures |r| == |views| && forall k :: 0 <= k < |r| ==> r[k] == View(views[k].stored, map[])
  {
    seq(|views|, (k: nat) requires k < |views| => View(views[k].stored, map[]))
  }

  function ListsOf(views: seq<View>): (r: seq<seq<Account>>)
    ensures |r| == |views| && forall k :: 0 <= k < |r| ==> r[k] == views[k].stored
  {
    seq(|views|, (k: nat) requires k < |views| => views[k].stored)
  }

  function Filled(views: seq<View>, lists: seq<seq<Account>>): (r: seq<View>)
    requires |views| == |lists|
    ensures |r| == |views| && forall k :: 0 <= k < |r| ==> r[k] == View(views[k].stored, AccountMap(lists[k]))
  {
    seq(|views|, (k: nat) requires k < |views| == |lists| => View(views[k].stored, AccountMap(lists[k])))
  }

  // A core is started only after one has ended and the config has been read.
  function Step(c: Calls, s: State, m: Move): (r: State)
    requires Fits(c, s) && (m.Call? ==> m.t < |c.users|)
    ensures Fits(c, r)
  {
    match m
    case Call(t) => CallStep(c, s, t)
    case CoreEnds => s.(views := Cleared(s.views), core := Down)
    case ConfigRead => s.(image := Some(ReadLists(s.pcs, ListsOf(s.views))))
    case CoreLoads =>
      if s.core.Down? && s.image.Some?
      then State(s.pcs, Filled(s.views, s.image.value.stored), LoadedFrom(s.image.value.read, s.pcs), None)
      else s
  }

  // The order in which calls and restarts make their steps.
  ghost predicate Schedule(c: Calls, order: seq<Move>) {
    forall i :: 0 <= i < |order| && order[i].Call? ==> order[i].t < |c.users|
  }

  function Run(c: Calls, s: State, order: seq<Move>): (r: State)
    requires Fits(c, s) && Schedule(c, order)
    ensures Fits(c, r)
  {
    if order == [] then s else Step(c, Run(c, s, order[..|order| - 1]), order[|order| - 1])
  }

  ghost predicate Complete(c: Calls, s: State) {
    Fits(c, s) && forall t :: 0 <= t < |s.pcs| ==> s.pcs[t] == 3 * c.inbounds
  }

  function Lookup(m: map<string, Account>, e: string): Option<Account> {
    if e in m then Some(m[e]) else None
  }

  // ---------- what the inbounds hold ----------

  // The stored account of the email of call t on inbound k when the call has made pc steps.
  function StoredAt(c: Calls, start: State, t: nat, k: nat, pc: nat): Option<Account>
    requires t < |c.users| && k < |start.views|
  {
    if pc <= 3 * k + 1 then Lookup(AccountMap(start.views[k].stored), c.users[t].email) else c.stored(t, k)
  }

  // The account that the core had when it came to be, and the steps that the call had made by then.
  function BaseOf(c: Calls, start: State, core: Core, t: nat, k: nat): Option<Account>
    requires t < |c.users| && k < |start.views| && (core.LoadedFrom? ==> t < |core.read|)
  {
    match core
    case Original => Lookup(start.views[k].live, c.users[t].email)
    case Down => None
    case LoadedFrom(read, _) => StoredAt(c, start, t, k, read[t])
  }

  function Since(core: Core, t: nat): nat
    requires core.LoadedFrom? ==> t < |core.at|
  {
    if core.LoadedFrom? then core.at[t] else 0
  }

  function LiveAt(c: Calls, start: State, core: Core, t: nat, k: nat, pc: nat): Option<Account>
    requires t < |c.users| && k < |start.views| && (core.LoadedFrom? ==> t < |core.read| == |core.at|)
  {
    var base, since := BaseOf(c, start, core, t, k), Since(core, t);
    var added := if !core.Down? && c.accepts(t, k) then c.sent(t, k) else None;
    if since >= 3 * k + 3 || pc <= 3 * k then base                   // the call is through here, or not yet
    else if since <= 3 * k then (if pc <= 3 * k + 2 then None else added)
    else if pc <= 3 * k + 2 || base.Some? then base                  // the core came back after the removal
    else added
  }

  ghost predicate Foreign(c: Calls, e: string) {
    forall t :: 0 <= t < |c.users| ==> c.users[t].email != e
  }

  function ForeignLive(start: State, core: Core, k: nat, e: string): Option<Account>
    requires k < |start.views|
  {
    match core
    case Original => Lookup(start.views[k].live, e)
    case Down => None
    case LoadedFrom(_, _) => Lookup(AccountMap(start.views[k].stored), e)
  }

  // These are the accounts stored on inbound k when the calls have made `pcs` steps.
  ghost predicate StoredTracks(c: Calls, start: State, xs: seq<Account>, pcs: seq<nat>, k: nat)
    requires k < |start.views| && |pcs| == |c.users|
  {
    && (forall t {:trigger StoredAt(c, start, t, k, pcs[t])} :: 0 <= t < |c.users| ==>
          Lookup(AccountMap(xs), c.users[t].email) == StoredAt(c, start, t, k, pcs[t]))
    && (forall e :: Foreign(c, e) ==> Lookup(AccountMap(xs), e) == Lookup(AccountMap(start.views[k].stored), e))
  }

  ghost predicate LiveTracks(c: Calls, start: State, live: map<string, Account>, core: Core, pcs: seq<nat>, k: nat)
    requires k < |start.views| && |pcs| == |c.users| && (core.LoadedFrom? ==> |core.read| == |core.at| == |c.users|)
  {
    && (forall t {:trigger LiveAt(c, start, core, t, k, pcs[t])} :: 0 <= t < |c.users| ==>
          Lookup(live, c.users[t].email) == LiveAt(c, start, core, t, k, pcs[t]))
    && (forall e :: Foreign(c, e) ==> Lookup(live, e) == ForeignLive(start, core, k, e))
  }

  // Steps are not unmade: the lists were read before the core was loaded, and that was before now.
  ghost predicate InTime(c: Calls, s: State)
    requires Fits(c, s)
  {
    && (s.core.LoadedFrom? ==> forall t :: 0 <= t < |c.users| ==> s.core.read[t] <= s.core.at[t] <= s.pcs[t])
    && (s.image.Some? ==> forall t :: 0 <= t < |c.users| ==> s.image.value.read[t] <= s.pcs[t])
  }

  ghost predicate Tracks(c: Calls, start: State, s: State, k: nat)
    requires Fits(c, start) && Fits(c, s) && k < c.inbounds
  {
    && InTime(c, s)
    && Distinct(s.views[k].stored)
    && StoredTracks(c, start, s.views[k].stored, s.pcs, k)
    && LiveTracks(c, start, s.views[k].live, s.core, s.pcs, k)
    && (s.image.Some? ==> StoredTracks(c, start, s.image.value.stored[k], s.image.value.read, k))
  }

  ghost predicate Fresh(c: Calls, s: State) {
    && Fits(c, s) && s.core.Original? && s.image.None?
    && (forall t :: 0 <= t < |s.pcs| ==> s.pcs[t] == 0)
    && (forall k :: 0 <= k < |s.views| ==> Distinct(s.views[k].stored))
  }

  // One step in the middle of a call touches the entries of that call's user only.
  lemma StepViewMaps(c: Calls, v: View, t: nat, k: nat, phase: nat, up: bool)
    requires c.Valid() && t < |c.users| && Distinct(v.stored) && phase < 3
    ensures var v' := StepView(c, v, t, k, phase, up);
            var e := c.users[t].email;
            && Distinct(v'.stored)
            && AccountMap(v'.stored) ==
               (if phase != 1 then AccountMap(v.stored)
                else if c.stored(t, k).Some? then (AccountMap(v.stored) - {e})[e := c.stored(t, k).value]
                else AccountMap(v.stored) - {e})
            && forall d :: d != e ==> Lookup(v'.live, d) == Lookup(v.live, d)
  {
    if phase == 1 {
      var e, user := c.users[t].email, c.users[t];
      var build: Build := (u: User) => if u == user then c.stored(t, k) else None;
      AccountMapWithout(v.stored, e);
      StepWithDistinct(build, v.stored, user);
      StepWithMap(build, v.stored, user);
    }
  }

  // The stored list after the step of call t on the inbound it is at.
  lemma StoredTracksHere(c: Calls, start: State, v: View, pcs: seq<nat>, t: nat, k: nat, up: bool)
    requires c.Valid() && t < |c.users| == |pcs| && k < |start.views| && pcs[t] / 3 == k && Distinct(v.stored)
    requires StoredTracks(c, start, v.stored, pcs, k)
    ensures StoredTracks(c, start, StepView(c, v, t, k, pcs[t] % 3, up).stored, pcs[t := pcs[t] + 1], k)
  {
    var v', next := StepView(c, v, t, k, pcs[t] % 3, up), pcs[t := pcs[t] + 1];
    StepViewMaps(c, v, t, k, pcs[t] % 3, up);
    forall u | 0 <= u < |c.users|
      ensures Lookup(AccountMap(v'.stored), c.users[u].email) == StoredAt(c, start, u, k, next[u])
    {
      assert StoredAt(c, start, u, k, pcs[u]) == Lookup(AccountMap(v.stored), c.users[u].email);
    }
  }

  lemma LiveOfCall(c: Calls, start: State, v: View, core: Core, pc: nat, t: nat, k: nat)
    requires t < |c.users| && k < |start.views|
    requires core.LoadedFrom? ==> t < |core.read| == |core.at| && core.at[t] <= pc
    requires pc / 3 == k && Lookup(v.live, c.users[t].email) == LiveAt(c, start, core, t, k, pc)
    ensures Lookup(StepView(c, v, t, k, pc % 3, !core.Down?).live, c.users[t].email)
            == LiveAt(c, start, core, t, k, pc + 1)
  {
  }

  // The core's users after that step.
  lemma LiveTracksHere(c: Calls, start: State, v: View, core: Core, pcs: seq<nat>, t: nat, k: nat)
    requires c.Valid() && t < |c.users| == |pcs| && k < |start.views| && pcs[t] / 3 == k && Distinct(v.stored)
    requires core.LoadedFrom? ==> |core.read| == |core.at| == |c.users| && core.at[t] <= pcs[t]
    requires LiveTracks(c, start, v.live, core, pcs, k)
    ensures LiveTracks(c, start, StepView(c, v, t, k, pcs[t] % 3, !core.Down?).live, core, pcs[t := pcs[t] + 1], k)
  {
    var v', next := StepView(c, v, t, k, pcs[t] % 3, !core.Down?), pcs[t := pcs[t] + 1];
    StepViewMaps(c, v, t, k, pcs[t] % 3, !core.Down?);
    forall u | 0 <= u < |c.users|
      ensures Lookup(v'.live, c.users[u].email) == LiveAt(c, start, core, u, k, next[u])
    {
      assert LiveAt(c, start, core, u, k, pcs[u]) == Lookup(v.live, c.users[u].email);
      if u == t {
        LiveOfCall(c, start, v, core, pcs[t], t, k);
      }
    }
  }

  // The step of call t on the inbound it is at.
  lemma CallTracksHere(c: Calls, start: State, s: State, t: nat, k: nat)
    requires c.Valid() && Fits(c, start) && Fits(c, s) && t < |c.users| && k < c.inbounds && Tracks(c, start, s, k)
    requires s.pcs[t] / 3 == k
    ensures Tracks(c, start, CallStep(c, s, t), k)
  {
    var up, next := !s.core.Down?, CallStep(c, s, t);
    assert next.views[k] == StepView(c, s.views[k], t, k, s.pcs[t] % 3, up);
    assert next.pcs == s.pcs[t := s.pcs[t] + 1] && next.core == s.core && next.image == s.image;
    StepViewMaps(c, s.views[k], t, k, s.pcs[t] % 3, up);
    StoredTracksHere(c, start, s.views[k], s.pcs, t, k, up);
    LiveTracksHere(c, start, s.views[k], s.core, s.pcs, t, k);
  }

  // The step of call t on another inbound.
  lemma CallTracksBeside(c: Calls, start: State, s: State, t: nat, k: nat)
    requires Fits(c, start) && Fits(c, s) && t < |c.users| && k < c.inbounds && Tracks(c, start, s, k)
    requires s.pcs[t] / 3 != k
    ensures Tracks(c, start, CallStep(c, s, t), k)
  {
    var s' := CallStep(c, s, t);
    forall u | 0 <= u < |c.users|
      ensures StoredAt(c, start, u, k, s'.pcs[u]) == StoredAt(c, start, u, k, s.pcs[u])
      ensures LiveAt(c, start, s'.core, u, k, s'.pcs[u]) == LiveAt(c, start, s.core, u, k, s.pcs[u])
    {
    }
  }

  // A core that has just loaded the lists has what the config held when they were read.
  lemma LoadTracks(c: Calls, start: State, xs: seq<Account>, read: seq<nat>, pcs: seq<nat>, k: nat)
    requires k < |start.views| && |read| == |pcs| == |c.users| && StoredTracks(c, start, xs, read, k)
    ensures LiveTracks(c, start, AccountMap(xs), LoadedFrom(read, pcs), pcs, k)
  {
    forall t | 0 <= t < |c.users|
      ensures Lookup(AccountMap(xs), c.users[t].email) == LiveAt(c, start, LoadedFrom(read, pcs), t, k, pcs[t])
    {
      assert StoredAt(c, start, t, k, read[t]) == Lookup(AccountMap(xs), c.users[t].email);
    }
  }

  lemma DownTracks(c: Calls, start: State, pcs: seq<nat>, k: nat)
    requires k < |start.views| && |pcs| == |c.users|
    ensures LiveTracks(c, start, map[], Down, pcs, k)
  {
  }

  lemma StepTracks(c: Calls, start: State, s: State, m: Move, k: nat)
    requires c.Valid() && Fits(c, start) && Fits(c, s) && (m.Call? ==> m.t < |c.users|) && k < c.inbounds
    requires Tracks(c, start, s, k)
    ensures Tracks(c, start, Step(c, s, m), k)
  {
    match m
    case Call(t) =>
      if s.pcs[t] / 3 == k { CallTracksHere(c, start, s, t, k); } else { CallTracksBeside(c, start, s, t, k); }
    case CoreEnds => DownTracks(c, start, s.pcs, k);
    case ConfigRead =>
    case CoreLoads =>
      if s.core.Down? && s.image.Some? {
        LoadTracks(c, start, s.image.value.stored[k], s.image.value.read, s.pcs, k);
      }
  }

  lemma FreshTracks(c: Calls, start: State, k: nat)
    requires Fresh(c, start) && k < c.inbounds
    ensures Tracks(c, start, start, k)
  {
    forall t | 0 <= t < |c.users|
      ensures StoredAt(c, start, t, k, start.pcs[t]) == Lookup(AccountMap(start.views[k].stored), c.users[t].email)
      ensures LiveAt(c, start, start.core, t, k, start.pcs[t]) == Lookup(start.views[k].live, c.users[t].email)
    {
      assert start.pcs[t] == 0;
    }
  }

  /**
   In every state of every interleaving each inbound holds, for each call, what that call and the last restart
   alone decide.
   */
  lemma {:induction false} RunTracks(c: Calls, start: State, order: seq<Move>, k: nat)
    requires c.Valid() && Fresh(c, start) && Schedule(c, order) && k < c.inbounds
    ensures Tracks(c, start, Run(c, start, order), k)
  {
    if order == [] {
      FreshTracks(c, start, k);
    } else {
      RunTracks(c, start, order[..|order| - 1], k);
      StepTracks(c, start, Run(c, start, order[..|order| - 1]), order[|order| - 1], k);
    }
  }

  // ---------- a call and a restart ----------

  /**
   When a finished call leaves list and core in agreement at its email: the core must run and take the account if
   there is one, unless it was loaded after the removal. Then what it loaded counts: if that was no account, the
   add still decides, if it comes later; otherwise the loaded account must be the new one.
   */
  ghost predicate LeavesAgreement(c: Calls, start: State, core: Core, t: nat, k: nat)
    requires t < |c.users| && k < |start.views| && (core.LoadedFrom? ==> t < |core.read| == |core.at|)
  {
    var wanted := c.stored(t, k);
    match core
    case Original => wanted.None? || c.accepts(t, k)
    case Down => wanted.None?
    case LoadedFrom(read, at) =>
      var before := Lookup(AccountMap(start.views[k].stored), c.users[t].email);
      var loaded := if read[t] >= 3 * k + 2 then wanted else before;
      if at[t] <= 3 * k || (at[t] <= 3 * k + 2 && loaded.None?)
      then wanted.None? || c.accepts(t, k)
      else loaded == wanted
  }

  /** Exactly when a finished call leaves list and core in agreement, by where the last restart fell among its steps. */
  lemma FinishedAgreesIff(c: Calls, start: State, order: seq<Move>, t: nat, k: nat)
    requires c.Valid() && Fresh(c, start) && Schedule(c, order) && t < |c.users| && k < c.inbounds
    requires c.stored(t, k) == c.sent(t, k) && Run(c, start, order).pcs[t] >= 3 * k + 3
    ensures var s := Run(c, start, order);
            var e := c.users[t].email;
            Lookup(AccountMap(s.views[k].stored), e) == Lookup(s.views[k].live, e) <==>
            LeavesAgreement(c, start, s.core, t, k)
  {
    RunTracks(c, start, order, k);
    var s := Run(c, start, order);
    assert Lookup(AccountMap(s.views[k].stored), c.users[t].email) == StoredAt(c, start, t, k, s.pcs[t]);
    assert Lookup(s.views[k].live, c.users[t].email) == LiveAt(c, start, s.core, t, k, s.pcs[t]);
  }

  /** On an inbound with a proper cipher the calls store what they send. */
  lemma CallsStoreWhatTheySend(env: Env, profiles: seq<Profile>, users: seq<User>, accepts: (nat, nat) -> bool,
                               t: nat, k: nat)
    requires k < |profiles| ==> ProperCipher(profiles[k])
    ensures CallsOf(env, profiles, users, accepts).stored(t, k) == CallsOf(env, profiles, users, accepts).sent(t, k)
  {
    if t < |users| && k < |profiles| {
      StoredIsSent(env, profiles[k], users[t]);
    }
  }

  // The call is about to add its account to the core, and the add will fail: SyncUser returns an error.
  predicate AddFails(c: Calls, s: State, t: nat, k: nat)
    requires t < |c.users| && k < |s.views|
  {
    c.sent(t, k).Some? && (s.core.Down? || !c.accepts(t, k) || c.users[t].email in s.views[k].live)
  }

  // The core was loaded after the call's removal, from lists that had an account of its user.
  ghost predicate MeetsAccount(c: Calls, start: State, core: Core, t: nat, k: nat)
    requires t < |c.users| && k < |start.views| && (core.LoadedFrom? ==> t < |core.read| == |core.at|)
  {
    core.LoadedFrom? && core.at[t] > 3 * k && StoredAt(c, start, t, k, core.read[t]).Some?
  }

  /**
   A call that is about to add meets an account of its user in the core exactly if a restart has loaded one after the
   call's removal; and it ends in an error exactly if there is an account to add and the core is down, turns it down,
   or has such an account.
   */
  lemma AddFailsIff(c: Calls, start: State, order: seq<Move>, t: nat, k: nat)
    requires c.Valid() && Fresh(c, start) && Schedule(c, order) && t < |c.users| && k < c.inbounds
    requires Run(c, start, order).pcs[t] == 3 * k + 2
    ensures var s := Run(c, start, order);
            && (c.users[t].email in s.views[k].live <==> MeetsAccount(c, start, s.core, t, k))
            && (AddFails(c, s, t, k) <==>
                  c.sent(t, k).Some? && (s.core.Down? || !c.accepts(t, k) || MeetsAccount(c, start, s.core, t, k)))
  {
    RunTracks(c, start, order, k);
    var s := Run(c, start, order);
    assert Lookup(s.views[k].live, c.users[t].email) == LiveAt(c, start, s.core, t, k, s.pcs[t]);
  }

  /** A call whose add fails may leave list and core in agreement all the same: if the core has loaded that account. */
  lemma ErrorYetAgreementIff(c: Calls, start: State, order: seq<Move>, t: nat, k: nat)
    requires c.Valid() && Fresh(c, start) && Schedule(c, order) && t < |c.users| && k < c.inbounds
    requires Run(c, start, order).pcs[t] == 3 * k + 2 && AddFails(c, Run(c, start, order), t, k)
    requires c.stored(t, k) == c.sent(t, k)
    ensures var s := Run(c, start, order);
            var e, after := c.users[t].email, Step(c, s, Call(t)).views[k];
            Lookup(AccountMap(after.stored), e) == Lookup(after.live, e) <==>
            MeetsAccount(c, start, s.core, t, k) && StoredAt(c, start, t, k, s.core.read[t]) == c.sent(t, k)
  {
    RunTracks(c, start, order, k);
    AddFailsIff(c, start, order, t, k);
    var s := Run(c, start, order);
    assert Step(c, s, Call(t)).views[k] == s.views[k];
    assert Lookup(AccountMap(s.views[k].stored), c.users[t].email) == StoredAt(c, start, t, k, s.pcs[t]);
    assert Lookup(s.views[k].live, c.users[t].email) == LiveAt(c, start, s.core, t, k, s.pcs[t]);
  }

  // The call takes its first step, a whole restart comes, and the call takes its other two steps.
  function RemovalAndRestart(): seq<Move> { [Call(0)] + [CoreEnds] + [ConfigRead] + [CoreLoads] }

  function RestartAfterRemoval(): seq<Move> { RemovalAndRestart() + [Call(0)] + [Call(0)] }

  lemma RunOne(c: Calls, s: State, order: seq<Move>, m: Move)
    requires Fits(c, s) && Schedule(c, order) && (m.Call? ==> m.t < |c.users|)
    ensures Schedule(c, order + [m]) && Run(c, s, order + [m]) == Step(c, Run(c, s, order), m)
  {
    var all := order + [m];
    assert all[..|order|] == order && all[|order|] == m;
  }

  /**
   The failing case at an input: a call that takes a user off an inbound adds nothing and so reports no error, but a
   restart between its first two steps leaves the account in the core and not in the config.
   */
  lemma RestartBringsUserBack(c: Calls, start: State, a: Account)
    requires c.Valid() && c.inbounds == 1 && |c.users| == 1 && c.stored(0, 0) == None && c.sent(0, 0) == None
    requires Fresh(c, start) && IsFor(a, c.users[0].email) && start.views == [View([a], map[a.email := a])]
    ensures Schedule(c, RestartAfterRemoval())
    ensures var s := Run(c, start, RestartAfterRemoval());
            && Complete(c, s)
            && a.email !in AccountMap(s.views[0].stored) && a.email in s.views[0].live
  {
    LoadedAfterRemoval(c, start);
    CallsOn(c, start, RemovalAndRestart());
    RunTracks(c, start, RestartAfterRemoval(), 0);
    var s := Run(c, start, RestartAfterRemoval());
    assert Lookup(AccountMap(s.views[0].stored), a.email) == StoredAt(c, start, 0, 0, s.pcs[0]) == None;
    assert Lookup(s.views[0].live, a.email) == LiveAt(c, start, s.core, 0, 0, s.pcs[0]);
    assert LiveAt(c, start, s.core, 0, 0, s.pcs[0]) == Lookup(AccountMap([a]), a.email);
    AccountMapKeys([a], a.email);
    assert IsFor([a][0], a.email);
  }

  // After the removal and the restart the core is loaded with lists read after the removal.
  lemma LoadedAfterRemoval(c: Calls, start: State)
    requires c.inbounds == 1 && |c.users| == 1 && Fresh(c, start)
    ensures Schedule(c, RemovalAndRestart())
    ensures var s := Run(c, start, RemovalAndRestart()); s.pcs == [1] && s.core == LoadedFrom([1], [1])
  {
    assert [] + [Call(0)] == [Call(0)];
    RunOne(c, start, [], Call(0));
    CallCounts(c, start, 0);
    var o1 := [Call(0)];
    var o2 := o1 + [CoreEnds];
    var o3 := o2 + [ConfigRead];
    RunOne(c, start, o1, CoreEnds);
    RunOne(c, start, o2, ConfigRead);
    RunOne(c, start, o3, CoreLoads);
  }

  // Two more steps of the call.
  lemma CallsOn(c: Calls, start: State, order: seq<Move>)
    requires c.inbounds == 1 && |c.users| == 1 && Fits(c, start) && Schedule(c, order)
    requires Run(c, start, order).pcs == [1]
    ensures Schedule(c, order + [Call(0)] + [Call(0)])
    ensures var s := Run(c, start, order + [Call(0)] + [Call(0)]);
            s.pcs == [3] && s.core == Run(c, start, order).core
  {
    RunOne(c, start, order, Call(0));
    CallCounts(c, Run(c, start, order), 0);
    RunOne(c, start, order + [Call(0)], Call(0));
    CallCounts(c, Run(c, start, order + [Call(0)]), 0);
  }

  // ---------- any order of the calls ----------

  /**
   Any two interleavings that let every call finish end with the same accounts by email in the config; and in the
   core, if it was not restarted. In particular every interleaving ends as the calls one after another do.
   */
  lemma AnyOrderSameAccounts(c: Calls, start: State, order1: seq<Move>, order2: seq<Move>, k: nat)
    requires c.Valid() && Fresh(c, start) && Schedule(c, order1) && Schedule(c, order2) && k < c.inbounds
    requires Complete(c, Run(c, start, order1)) && Complete(c, Run(c, start, order2))
    ensures var s1, s2 := Run(c, start, order1), Run(c, start, order2);
            && AccountMap(s1.views[k].stored) == AccountMap(s2.views[k].stored)
            && (s1.core.Original? && s2.core.Original? ==> s1.views[k].live == s2.views[k].live)
  {
    RunTracks(c, start, order1, k);
    RunTracks(c, start, order2, k);
    var s1, s2 := Run(c, start, order1), Run(c, start, order2);
    forall e ensures Lookup(AccountMap(s1.views[k].stored), e) == Lookup(AccountMap(s2.views[k].stored), e) {
      SameStored(c, start, s1, s2, k, e);
    }
    SameLookups(AccountMap(s1.views[k].stored), AccountMap(s2.views[k].stored));
    if s1.core.Original? && s2.core.Original? {
      forall e ensures Lookup(s1.views[k].live, e) == Lookup(s2.views[k].live, e) {
        SameLive(c, start, s1, s2, k, e);
      }
      SameLookups(s1.views[k].live, s2.views[k].live);
    }
  }

  lemma SameStored(c: Calls, start: State, s1: State, s2: State, k: nat, e: string)
    requires Fits(c, start) && Complete(c, s1) && Complete(c, s2) && k < c.inbounds
    requires StoredTracks(c, start, s1.views[k].stored, s1.pcs, k)
             && StoredTracks(c, start, s2.views[k].stored, s2.pcs, k)
    ensures Lookup(AccountMap(s1.views[k].stored), e) == Lookup(AccountMap(s2.views[k].stored), e)
  {
    if !Foreign(c, e) {
      var t :| 0 <= t < |c.users| && c.users[t].email == e;
      assert s1.pcs[t] == s2.pcs[t];
      assert Lookup(AccountMap(s1.views[k].stored), e) == StoredAt(c, start, t, k, s1.pcs[t]);
      assert Lookup(AccountMap(s2.views[k].stored), e) == StoredAt(c, start, t, k, s2.pcs[t]);
    }
  }

  lemma SameLive(c: Calls, start: State, s1: State, s2: State, k: nat, e: string)
    requires Fits(c, start) && Complete(c, s1) && Complete(c, s2) && k < c.inbounds && s1.core == s2.core == Original
    requires LiveTracks(c, start, s1.views[k].live, Original, s1.pcs, k)
    requires LiveTracks(c, start, s2.views[k].live, Original, s2.pcs, k)
    ensures Lookup(s1.views[k].live, e) == Lookup(s2.views[k].live, e)
  {
    if !Foreign(c, e) {
      var t :| 0 <= t < |c.users| && c.users[t].email == e;
      assert s1.pcs[t] == s2.pcs[t];
      assert Lookup(s1.views[k].live, e) == LiveAt(c, start, Original, t, k, s1.pcs[t]);
      assert Lookup(s2.views[k].live, e) == LiveAt(c, start, Original, t, k, s2.pcs[t]);
    }
  }

  lemma SameLookups(m1: map<string, Account>, m2: map<string, Account>)
    requires forall e :: Lookup(m1, e) == Lookup(m2, e)
    ensures m1 == m2
  {
    forall e ensures e in m1 <==> e in m2 { assert Lookup(m1, e) == Lookup(m2, e); }
    forall e | e in m1 ensures m1[e] == m2[e] { assert Lookup(m1, e) == Lookup(m2, e); }
  }

  // ---------- the calls one after another ----------

  function Repeat(t: nat, n: nat): (r: seq<Move>)
    ensures |r| == n && forall i :: 0 <= i < n ==> r[i] == Call(t)
  {
    if n == 0 then [] else Repeat(t, n - 1) + [Call(t)]
  }

  // Call order[0] from start to end, then order[1], and so on.
  function OneByOne(c: Calls, order: seq<nat>): seq<Move> {
    if order == [] then [] else OneByOne(c, order[..|order| - 1]) + Repeat(order[|order| - 1], 3 * c.inbounds)
  }

  lemma {:induction false} RunConcat(c: Calls, s: State, a: seq<Move>, b: seq<Move>)
    requires Fits(c, s) && Schedule(c, a) && Schedule(c, b)
    ensures Schedule(c, a + b) && Run(c, s, a + b) == Run(c, Run(c, s, a), b)
  {
    if b == [] {
      assert a + b == a;
    } else {
      RunConcat(c, s, a, b[..|b| - 1]);
      assert (a + b)[..|a + b| - 1] == a + b[..|b| - 1];
    }
  }

  lemma CallCounts(c: Calls, s: State, t: nat)
    requires Fits(c, s) && t < |c.users| && s.pcs[t] < 3 * c.inbounds
    ensures var next := Step(c, s, Call(t)); next.pcs == s.pcs[t := s.pcs[t] + 1] && next.core == s.core
  {
  }

  // These moves are n steps of call t, and nothing else.
  ghost predicate Counted(c: Calls, s: State, order: seq<Move>, t: nat, n: nat)
    requires Fits(c, s) && t < |c.users|
  {
    && Schedule(c, order)
    && Run(c, s, order).pcs == s.pcs[t := s.pcs[t] + n]
    && Run(c, s, order).core == s.core
  }

  lemma CountedNone(c: Calls, s: State, t: nat)
    requires Fits(c, s) && t < |c.users|
    ensures Counted(c, s, [], t, 0)
  {
  }

  lemma CountedOneMore(c: Calls, s: State, order: seq<Move>, t: nat, n: nat)
    requires Fits(c, s) && t < |c.users| && s.pcs[t] + n < 3 * c.inbounds && Counted(c, s, order, t, n)
    ensures Counted(c, s, order + [Call(t)], t, n + 1)
  {
    RunOne(c, s, order, Call(t));
    CallCounts(c, Run(c, s, order), t);
    UpdatedTwice(s.pcs, t, s.pcs[t] + n, s.pcs[t] + n + 1);
  }

  lemma UpdatedTwice(pcs: seq<nat>, t: nat, first: nat, second: nat)
    requires t < |pcs|
    ensures pcs[t := first][t := second] == pcs[t := second] && pcs[t := first][t] == first
  {
  }

  lemma {:induction false} RepeatCounts(c: Calls, s: State, t: nat, n: nat)
    requires Fits(c, s) && t < |c.users| && s.pcs[t] + n <= 3 * c.inbounds
    ensures Counted(c, s, Repeat(t, n), t, n)
  {
    if n == 0 {
      CountedNone(c, s, t);
    } else {
      RepeatCounts(c, s, t, n - 1);
      CountedOneMore(c, s, Repeat(t, n - 1), t, n - 1);
    }
  }

  /** Each call once, in any order, one after another, lets every call finish. */
  lemma {:induction false} OneByOneCompletes(c: Calls, s: State, order: seq<nat>)
    requires Fits(c, s) && (forall t :: 0 <= t < |s.pcs| ==> s.pcs[t] == 0)
    requires forall i :: 0 <= i < |order| ==> order[i] < |c.users|
    requires forall i, j :: 0 <= i < j < |order| ==> order[i] != order[j]
    ensures Schedule(c, OneByOne(c, order)) && Run(c, s, OneByOne(c, order)).core == s.core
    ensures forall t :: 0 <= t < |c.users| ==>
              Run(c, s, OneByOne(c, order)).pcs[t] == if t in order then 3 * c.inbounds else 0
  {
    if order != [] {
      var init, last := order[..|order| - 1], order[|order| - 1];
      assert order == init + [last];
      OneByOneCompletes(c, s, init);
      var mid := Run(c, s, OneByOne(c, init));
      assert last !in init;
      RepeatCounts(c, mid, last, 3 * c.inbounds);
      RunConcat(c, s, OneByOne(c, init), Repeat(last, 3 * c.inbounds));
    }
  }

  /** The three steps of a call on one inbound, undisturbed, are one Sync event of Agreement. */
  lemma ThreeStepsAreSync(env: Env, profiles: seq<Profile>, users: seq<User>, accepts: (nat, nat) -> bool,
                          v: View, t: nat, k: nat)
    requires t < |users| && k < |profiles|
    ensures var c := CallsOf(env, profiles, users, accepts);
            StepView(c, StepView(c, StepView(c, v, t, k, 0, true), t, k, 1, true), t, k, 2, true) ==
            Agreement.Step(env, profiles[k], v, Sync(users[t], accepts(t, k)))
  {
  }

  /** A whole restart with no call's step inside it is one Restart event of Agreement on every inbound. */
  lemma WholeRestartIsRestart(c: Calls, s: State, env: Env, p: Profile, k: nat)
    requires Fits(c, s) && k < c.inbounds
    ensures Step(c, Step(c, Step(c, s, CoreEnds), ConfigRead), CoreLoads).views[k] ==
            Agreement.Step(env, p, s.views[k], Restart(true))
  {
    var s2 := Step(c, Step(c, s, CoreEnds), ConfigRead);
    assert s2.image.value.stored[k] == s2.views[k].stored == s.views[k].stored;
    assert Step(c, s2, CoreLoads).views == Filled(s2.views, s2.image.value.stored);
  }
}
