/**
 The SyncUser stream of controller/rpc/user.go: users are synced one after another until the stream ends, an
 email is missing, or a sync fails.
 */
module UserStream {
  import opened Accounts
  import opened ClientLists
  import opened LatestLists
  import opened UserSync
  import opened Agreement
  import opened Inbounds
  import opened SyncCalls
  import opened XrayUsers

  // For every call, the tags where the core turns the account down.
  type Refusals = seq<set<string>>

  // The stream has ended or broken off; a user without email came; SyncUser returned an error; it panicked.
  datatype Ending = StreamClosed | EmailRequired | SyncFailed | SyncPanicked

  function CallOn(inbounds: seq<Inbound>, env: Env, user: User, refused: set<string>, p: Progress): (q: Progress)
    requires |p.lists| == |inbounds|
    ensures |q.lists| == |inbounds|
  {
    Called(SitesOf(inbounds, env, user), user.email, refused, p.lists, p.core)
  }

  // Lists and core after the first k calls, with the result of the last one.
  function Reached(inbounds: seq<Inbound>, env: Env, stream: seq<User>, refusals: Refusals, k: nat,
                   p: Progress): (q: Progress)
    requires k <= |stream| <= |refusals| && |p.lists| == |inbounds|
    ensures |q.lists| == |inbounds|
  {
    if k == 0 then p
    else CallOn(inbounds, env, stream[k - 1], refusals[k - 1], Reached(inbounds, env, stream, refusals, k - 1, p))
  }

  predicate Fine(p: Progress) { p.ok && !p.crashed }

  // Before every call, and after the last.
  ghost predicate Leads(inbounds: seq<Inbound>, env: Env, stream: seq<User>, refusals: Refusals,
                        trace: seq<Progress>, k: nat)
    requires k < |stream| <= |refusals| && |trace| == |stream| + 1
  {
    |trace[k].lists| == |inbounds| && trace[k + 1] == CallOn(inbounds, env, stream[k], refusals[k], trace[k])
  }

  lemma StreamTrace(inbounds: seq<Inbound>, env: Env, stream: seq<User>, refusals: Refusals, p: Progress)
    returns (trace: seq<Progress>)
    requires |stream| <= |refusals| && |p.lists| == |inbounds|
    ensures |trace| == |stream| + 1 && trace[0] == p
    ensures forall k {:trigger trace[k]} :: 0 <= k <= |stream| ==>
              trace[k] == Reached(inbounds, env, stream, refusals, k, p)
    ensures forall k {:trigger Leads(inbounds, env, stream, refusals, trace, k)} :: 0 <= k < |stream| ==>
              Leads(inbounds, env, stream, refusals, trace, k)
  {
    trace := seq(|stream| + 1, (k: nat) requires k <= |stream| => Reached(inbounds, env, stream, refusals, k, p));
  }

  // Where the loop stops from call j on, and why.
  function Stop(stream: seq<User>, trace: seq<Progress>, j: nat): (nat, Ending)
    requires j <= |stream| && |trace| == |stream| + 1
    decreases |stream| - j
  {
    if j == |stream| then (j, StreamClosed)
    else if stream[j].email == "" then (j, EmailRequired)
    else if trace[j + 1].crashed then (j + 1, SyncPanicked)
    else if !trace[j + 1].ok then (j + 1, SyncFailed)
    else Stop(stream, trace, j + 1)
  }

  // One call of the loop.
  method SyncNext(x: Xray, env: Env, stream: seq<User>, refusals: Refusals, k: nat, ghost trace: seq<Progress>)
    returns (ok: bool, crashed: bool)
    requires k < |stream| <= |refusals| && |trace| == |stream| + 1 && Leads(x.inbounds, env, stream, refusals, trace, k)
    requires x.Valid() && x.Typed() && x.Lists() == trace[k].lists && x.handler.users == trace[k].core
    requires stream[k].email != ""
    modifies x.handler, x.inbounds, x.Backings()
    ensures x.Valid() && x.Typed() && (forall b :: b in x.Backings() ==> b in old(x.Backings()) || fresh(b))
    ensures x.Lists() == trace[k + 1].lists && x.handler.users == trace[k + 1].core
    ensures Stop(stream, trace, k) == if crashed then (k + 1, SyncPanicked)
                                      else if !ok then (k + 1, SyncFailed)
                                      else Stop(stream, trace, k + 1)
  {
    ok, crashed := x.SyncUser(env, stream[k], refusals[k]);
  }

  // The receive loop; the calls go as traced.
  method Receive(x: Xray, env: Env, stream: seq<User>, refusals: Refusals, ghost trace: seq<Progress>)
    returns (done: nat, ending: Ending)
    requires |stream| <= |refusals| && |trace| == |stream| + 1
    requires forall k {:trigger Leads(x.inbounds, env, stream, refusals, trace, k)} :: 0 <= k < |stream| ==>
               Leads(x.inbounds, env, stream, refusals, trace, k)
    requires x.Valid() && x.Typed() && x.Lists() == trace[0].lists && x.handler.users == trace[0].core
    modifies x.handler, x.inbounds, x.Backings()
    ensures x.Valid() && x.Typed() && done <= |stream|
    ensures x.Lists() == trace[done].lists && x.handler.users == trace[done].core
    ensures (done, ending) == Stop(stream, trace, 0)
  {
    done := 0;
    while done < |stream|
      invariant done <= |stream| && x.Valid() && x.Typed()
      invariant forall b :: b in x.Backings() ==> b in old(x.Backings()) || fresh(b)
      invariant x.Lists() == trace[done].lists && x.handler.users == trace[done].core
      invariant Stop(stream, trace, done) == Stop(stream, trace, 0)
    {
      if stream[done].email == "" {
        return done, EmailRequired;
      }
      assert Leads(x.inbounds, env, stream, refusals, trace, done);
      var ok, crashed := SyncNext(x, env, stream, refusals, done, trace);
      done := done + 1;
      if crashed {
        return done, SyncPanicked;
      }
      if !ok {
        return done, SyncFailed;
      }
    }
    return done, StreamClosed;
  }

  // The first n calls named a user and returned no error.
  ghost predicate AllFine(stream: seq<User>, trace: seq<Progress>, n: nat)
    requires n <= |stream| && |trace| == |stream| + 1
  {
    n > 0 ==> AllFine(stream, trace, n - 1) && stream[n - 1].email != "" && Fine(trace[n])
  }

  // The loop stops at the first missing email or failing call, and says which.
  ghost predicate Ends(stream: seq<User>, trace: seq<Progress>, done: nat, ending: Ending)
    requires done <= |stream| && |trace| == |stream| + 1
  {
    match ending
    case StreamClosed => done == |stream| && AllFine(stream, trace, done)
    case EmailRequired => done < |stream| && stream[done].email == "" && AllFine(stream, trace, done)
    case SyncFailed => done > 0 && AllFine(stream, trace, done - 1) && !trace[done].ok && !trace[done].crashed
    case SyncPanicked => done > 0 && AllFine(stream, trace, done - 1) && trace[done].crashed
  }

  // The loop stops there if it gets there.
  lemma {:induction false} StopIsEnd(stream: seq<User>, trace: seq<Progress>, j: nat)
    requires j <= |stream| && |trace| == |stream| + 1 && AllFine(stream, trace, j)
    ensures var (done, ending) := Stop(stream, trace, j);
            done <= |stream| && Ends(stream, trace, done, ending)
    decreases |stream| - j
  {
    if j < |stream| && stream[j].email != "" && Fine(trace[j + 1]) {
      StopIsEnd(stream, trace, j + 1);
    }
  }

  /**
   SyncUser of controller/rpc/user.go. `done` users of the stream were synced, and lists and core are what these
   calls make of them.
   */
  method SyncStream(x: Xray, env: Env, stream: seq<User>, refusals: Refusals)
    returns (done: nat, ending: Ending, ghost trace: seq<Progress>)
    requires |stream| <= |refusals| && x.Valid() && x.Typed()
    modifies x.handler, x.inbounds, x.Backings()
    ensures x.Valid() && x.Typed() && done <= |stream| && |trace| == |stream| + 1
    ensures forall k {:trigger trace[k]} :: 0 <= k <= |stream| ==>
              trace[k] == Reached(x.inbounds, env, stream, refusals, k,
                                  Progress(old(x.Lists()), old(x.handler.users), true, false))
    ensures x.Lists() == trace[done].lists && x.handler.users == trace[done].core
    ensures Ends(stream, trace, done, ending)
  {
    trace := StreamTrace(x.inbounds, env, stream, refusals, Progress(x.Lists(), x.handler.users, true, false));
    done, ending := Receive(x, env, stream, refusals, trace);
    StopIsEnd(stream, trace, 0);
  }

  // ---------- what a stream leaves behind ----------

  // What these SyncUser calls are for one inbound.
  function EventsOn(inbound: Inbound, tags: set<string>, users: seq<User>, refusals: Refusals): seq<Event>
    requires |users| <= |refusals|
  {
    seq(|users|, (j: nat) requires j < |users| => Sync(users[j], AcceptsOn(inbound, refusals[j], tags)))
  }

  predicate AcceptsOn(inbound: Inbound, refused: set<string>, tags: set<string>) {
    inbound.profile.tag in tags && inbound.profile.tag !in refused
  }

  ghost predicate DistinctLists(inbounds: seq<Inbound>, lists: seq<seq<Account>>)
    requires |lists| == |inbounds|
  {
    forall i :: 0 <= i < |inbounds| && Kept(inbounds[i]) ==> Distinct(lists[i])
  }

  ghost function ViewOn(inbounds: seq<Inbound>, p: Progress, i: nat): View
    requires i < |inbounds| == |p.lists|
  {
    View(p.lists[i], On(p.core, inbounds[i].profile.tag))
  }

  /** From lists without repeats a call never panics, keeps them so, and fails iff some inbound rejects the account. */
  lemma CallIsSafe(inbounds: seq<Inbound>, env: Env, user: User, refused: set<string>, p: Progress)
    requires |p.lists| == |inbounds| && TagsDiffer(inbounds) && DistinctLists(inbounds, p.lists)
    ensures var q := CallOn(inbounds, env, user, refused, p);
            && !q.crashed && q.core.Keys == p.core.Keys && DistinctLists(inbounds, q.lists)
            && (q.ok <==> NoneRejects(SitesOf(inbounds, env, user), refused, p.core.Keys))
            && forall i :: 0 <= i < |inbounds| ==>
                 && q.lists[i] == SiteOf(inbounds[i], env, user).Next(p.lists[i])
                 && On(q.core, inbounds[i].profile.tag) == UsersAfter(SiteOf(inbounds[i], env, user), refused, p.core)
  {
    var sites := SitesOf(inbounds, env, user);
    forall i | 0 <= i < |inbounds| ensures !sites[i].Blocked(p.lists[i]) {
      if Kept(inbounds[i]) {
        NoNilIsScannable(p.lists[i], user.email);
      }
    }
    CalledMeans(sites, user.email, refused, p.lists, p.core);
    forall i | 0 <= i < |inbounds| && Kept(inbounds[i]) ensures Distinct(sites[i].Next(p.lists[i])) {
      StoredByKeepsEmail(env, inbounds[i].profile);
      StepWithDistinct(StoredBy(env, inbounds[i].profile), p.lists[i], user);
    }
  }

  /** On a maintained inbound the call is one sync event. */
  lemma CallIsEvent(inbounds: seq<Inbound>, i: nat, env: Env, user: User, refused: set<string>, p: Progress)
    requires i < |p.lists| == |inbounds| && TagsDiffer(inbounds) && DistinctLists(inbounds, p.lists)
             && Kept(inbounds[i])
    ensures ViewOn(inbounds, CallOn(inbounds, env, user, refused, p), i) ==
            Agreement.Step(env, inbounds[i].profile, ViewOn(inbounds, p, i),
                           Sync(user, AcceptsOn(inbounds[i], refused, p.core.Keys)))
  {
    CallIsSafe(inbounds, env, user, refused, p);
    SyncUserIsEvent(inbounds[i], env, user, refused, p.lists[i], p.core);
  }

  /** None of the calls of a stream panics, and all lists stay without repeats. */
  lemma {:induction false} StreamIsSafe(inbounds: seq<Inbound>, env: Env, stream: seq<User>, refusals: Refusals,
                                        k: nat, p: Progress)
    requires k <= |stream| <= |refusals| && |p.lists| == |inbounds| && TagsDiffer(inbounds)
    requires DistinctLists(inbounds, p.lists) && !p.crashed
    ensures var q := Reached(inbounds, env, stream, refusals, k, p);
            !q.crashed && q.core.Keys == p.core.Keys && DistinctLists(inbounds, q.lists)
  {
    if k > 0 {
      StreamIsSafe(inbounds, env, stream, refusals, k - 1, p);
      CallIsSafe(inbounds, env, stream[k - 1], refusals[k - 1], Reached(inbounds, env, stream, refusals, k - 1, p));
    }
  }

  ghost predicate IsStep(env: Env, p: Profile, before: View, ev: Event, after: View) {
    after == Agreement.Step(env, p, before, ev)
  }

  ghost predicate RunLeads(env: Env, p: Profile, first: View, evs: seq<Event>, last: View) {
    Run(env, p, first, evs) == last
  }

  lemma RunLeadsNowhere(env: Env, p: Profile, v: View)
    ensures RunLeads(env, p, v, [], v)
  {
  }

  lemma RunLeadsOn(env: Env, p: Profile, first: View, evs: seq<Event>, before: View, ev: Event, after: View)
    requires RunLeads(env, p, first, evs, before) && IsStep(env, p, before, ev, after)
    ensures RunLeads(env, p, first, evs + [ev], after)
  {
    assert (evs + [ev])[..|evs|] == evs;
  }

  lemma EventsSnoc(inbound: Inbound, tags: set<string>, users: seq<User>, refusals: Refusals, k: nat)
    requires k < |users| <= |refusals|
    ensures EventsOn(inbound, tags, users[..k + 1], refusals) ==
            EventsOn(inbound, tags, users[..k], refusals) + [Sync(users[k], AcceptsOn(inbound, refusals[k], tags))]
  {
  }

  // Call number j of the stream is event number j.
  lemma StreamStep(inbounds: seq<Inbound>, i: nat, env: Env, stream: seq<User>, refusals: Refusals, j: nat, p: Progress)
    requires j < |stream| <= |refusals| && i < |p.lists| == |inbounds| && TagsDiffer(inbounds)
    requires DistinctLists(inbounds, p.lists) && !p.crashed && Kept(inbounds[i])
    ensures IsStep(env, inbounds[i].profile, ViewOn(inbounds, Reached(inbounds, env, stream, refusals, j, p), i),
                   Sync(stream[j], AcceptsOn(inbounds[i], refusals[j], p.core.Keys)),
                   ViewOn(inbounds, Reached(inbounds, env, stream, refusals, j + 1, p), i))
  {
    StreamIsSafe(inbounds, env, stream, refusals, j, p);
    CallIsEvent(inbounds, i, env, stream[j], refusals[j], Reached(inbounds, env, stream, refusals, j, p));
  }

  // On inbound i the first calls of the stream, up to k and at every point before, are a run of sync events.
  ghost predicate StreamLeads(inbounds: seq<Inbound>, i: nat, env: Env, stream: seq<User>, refusals: Refusals, k: nat,
                              p: Progress)
    requires k <= |stream| <= |refusals| && i < |p.lists| == |inbounds|
  {
    && (k > 0 ==> StreamLeads(inbounds, i, env, stream, refusals, k - 1, p))
    && RunLeads(env, inbounds[i].profile, ViewOn(inbounds, p, i),
                EventsOn(inbounds[i], p.core.Keys, stream[..k], refusals),
                ViewOn(inbounds, Reached(inbounds, env, stream, refusals, k, p), i))
  }

  lemma StreamLeadsNowhere(inbounds: seq<Inbound>, i: nat, env: Env, stream: seq<User>, refusals: Refusals, p: Progress)
    requires |stream| <= |refusals| && i < |p.lists| == |inbounds|
    ensures StreamLeads(inbounds, i, env, stream, refusals, 0, p)
  {
    RunLeadsNowhere(env, inbounds[i].profile, ViewOn(inbounds, p, i));
    assert EventsOn(inbounds[i], p.core.Keys, stream[..0], refusals) == [];
  }

  lemma StreamLeadsOn(inbounds: seq<Inbound>, i: nat, env: Env, stream: seq<User>, refusals: Refusals, k: nat,
                      p: Progress)
    requires k < |stream| <= |refusals| && i < |p.lists| == |inbounds| && TagsDiffer(inbounds)
    requires DistinctLists(inbounds, p.lists) && !p.crashed && Kept(inbounds[i])
    requires StreamLeads(inbounds, i, env, stream, refusals, k, p)
    ensures StreamLeads(inbounds, i, env, stream, refusals, k + 1, p)
  {
    EventsSnoc(inbounds[i], p.core.Keys, stream, refusals, k);
    StreamStep(inbounds, i, env, stream, refusals, k, p);
    RunLeadsOn(env, inbounds[i].profile, ViewOn(inbounds, p, i),
               EventsOn(inbounds[i], p.core.Keys, stream[..k], refusals),
               ViewOn(inbounds, Reached(inbounds, env, stream, refusals, k, p), i),
               Sync(stream[k], AcceptsOn(inbounds[i], refusals[k], p.core.Keys)),
               ViewOn(inbounds, Reached(inbounds, env, stream, refusals, k + 1, p), i));
  }

  /** On a maintained inbound the calls of a stream are a run of sync events. */
  lemma {:induction false} StreamIsRun(inbounds: seq<Inbound>, i: nat, env: Env, stream: seq<User>,
                                       refusals: Refusals, k: nat, p: Progress)
    requires k <= |stream| <= |refusals| && i < |p.lists| == |inbounds| && TagsDiffer(inbounds)
    requires DistinctLists(inbounds, p.lists) && !p.crashed && Kept(inbounds[i])
    ensures StreamLeads(inbounds, i, env, stream, refusals, k, p)
  {
    if k == 0 {
      StreamLeadsNowhere(inbounds, i, env, stream, refusals, p);
    } else {
      StreamIsRun(inbounds, i, env, stream, refusals, k - 1, p);
      StreamLeadsOn(inbounds, i, env, stream, refusals, k - 1, p);
    }
  }

  lemma StepStores(env: Env, p: Profile, v: View, ev: Event)
    requires ev.Sync?
    ensures Agreement.Step(env, p, v, ev).stored == StepWith(StoredBy(env, p), v.stored, ev.user)
  {
  }

  /** The list after a run of sync events is the one of UserSync.RunMatchesBulk: a run of SyncUser calls. */
  lemma {:induction false} StreamStores(env: Env, p: Profile, v: View, evs: seq<Event>, users: seq<User>)
    requires |evs| == |users| && forall j :: 0 <= j < |evs| ==> evs[j].Sync? && evs[j].user == users[j]
    ensures Run(env, p, v, evs).stored == RunSync(env, p, v.stored, users)
  {
    if evs != [] {
      var last := |evs| - 1;
      StreamStores(env, p, v, evs[..last], users[..last]);
      StepStores(env, p, Run(env, p, v, evs[..last]), evs[last]);
    }
  }

  ghost predicate Agreed(inbounds: seq<Inbound>, p: Progress)
    requires |p.lists| == |inbounds|
  {
    forall i :: 0 <= i < |inbounds| && Kept(inbounds[i]) ==> Agrees(ViewOn(inbounds, p, i), {})
  }

  // Config and core differ at the email, which the config has, on the inbounds that rejected it, and nowhere else.
  ghost predicate AgreedBut(inbounds: seq<Inbound>, env: Env, user: User, refused: set<string>, p: Progress)
    requires |p.lists| == |inbounds|
  {
    forall i :: 0 <= i < |inbounds| && Kept(inbounds[i]) ==> AgreedButOn(inbounds, i, env, user, refused, p)
  }

  ghost predicate AgreedButOn(inbounds: seq<Inbound>, i: nat, env: Env, user: User, refused: set<string>, p: Progress)
    requires i < |p.lists| == |inbounds|
  {
    var v := ViewOn(inbounds, p, i);
    if SiteOf(inbounds[i], env, user).Rejects(refused, p.core.Keys)
    then Agrees(v, {user.email}) && user.email in AccountMap(v.stored) && user.email !in v.live
    else Agrees(v, {})
  }

  ghost predicate ProperCiphers(inbounds: seq<Inbound>) {
    forall i :: 0 <= i < |inbounds| && Kept(inbounds[i]) ==> ProperCipher(inbounds[i].profile)
  }

  lemma CallKeepsAgreement(inbounds: seq<Inbound>, env: Env, user: User, refused: set<string>, p: Progress)
    requires |p.lists| == |inbounds| && TagsDiffer(inbounds) && ProperCiphers(inbounds) && Agreed(inbounds, p)
    ensures var q := CallOn(inbounds, env, user, refused, p);
            && !q.crashed && AgreedBut(inbounds, env, user, refused, q) && (q.ok ==> Agreed(inbounds, q))
  {
    var q := CallOn(inbounds, env, user, refused, p);
    assert forall i :: 0 <= i < |inbounds| && Kept(inbounds[i]) ==> Agrees(ViewOn(inbounds, p, i), {});
    CallIsSafe(inbounds, env, user, refused, p);
    forall i | 0 <= i < |inbounds| && Kept(inbounds[i])
      ensures AgreedButOn(inbounds, i, env, user, refused, q)
    {
      SyncUserKeepsAgreement(inbounds[i], env, user, refused, p.lists[i], p.core);
    }
    if q.ok {
      forall i | 0 <= i < |inbounds| && Kept(inbounds[i]) ensures Agrees(ViewOn(inbounds, q, i), {}) {
        assert AgreedButOn(inbounds, i, env, user, refused, q);
        assert !SitesOf(inbounds, env, user)[i].Rejects(refused, p.core.Keys);
      }
    }
  }

  /**
   A stream that starts from agreement of config and core keeps it until the call that fails; that one leaves the
   core without the account of its user, on exactly the inbounds that rejected it.
   */
  lemma {:induction false} StreamKeepsAgreement(inbounds: seq<Inbound>, env: Env, stream: seq<User>,
                                                refusals: Refusals, k: nat, p: Progress, trace: seq<Progress>)
    requires k <= |stream| <= |refusals| && |trace| == |stream| + 1 && |p.lists| == |inbounds|
    requires TagsDiffer(inbounds) && ProperCiphers(inbounds) && Agreed(inbounds, p)
    requires forall j {:trigger trace[j]} :: 0 <= j <= |stream| ==>
               trace[j] == Reached(inbounds, env, stream, refusals, j, p)
    requires k > 0 ==> AllFine(stream, trace, k - 1)
    ensures var q := Reached(inbounds, env, stream, refusals, k, p);
            && (k > 0 ==> !q.crashed && AgreedBut(inbounds, env, stream[k - 1], refusals[k - 1], q))
            && (k == 0 || q.ok ==> Agreed(inbounds, q))
  {
    assert trace[k] == Reached(inbounds, env, stream, refusals, k, p);
    if k > 0 {
      StreamKeepsAgreement(inbounds, env, stream, refusals, k - 1, p, trace);
      assert trace[k - 1] == Reached(inbounds, env, stream, refusals, k - 1, p);
      CallKeepsAgreement(inbounds, env, stream[k - 1], refusals[k - 1], trace[k - 1]);
    }
  }
}
