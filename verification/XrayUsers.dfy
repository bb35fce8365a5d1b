/**
 SyncUser, SyncUsers and Restart of the Xray object (backend/xray/user.go, backend/xray/xray.go) over the inbounds
 of its config and the running core behind its API handler. `refused` holds the tags where the core turns an
 added user down, `started` says whether a restarted core comes up.
 */
module XrayUsers {
  import opened Options
  import opened Accounts
  import opened ClientLists
  import opened UserSync
  import opened Agreement
  import opened Inbounds
  import opened SyncCalls

  // The inbound has a user list that this node maintains.
  predicate Kept(inbound: Inbound) {
    !inbound.exclude && Managed(inbound.profile)
  }

  ghost predicate TagsDiffer(inbounds: seq<Inbound>) {
    forall i, j :: 0 <= i < j < |inbounds| ==> inbounds[i].profile.tag != inbounds[j].profile.tag
  }

  // The same of the first k inbounds.
  ghost predicate TagsDifferTo(inbounds: seq<Inbound>, k: nat)
    requires k <= |inbounds|
  {
    k > 0 ==>
      && TagsDifferTo(inbounds, k - 1)
      && forall i :: 0 <= i < k - 1 ==> inbounds[i].profile.tag != inbounds[k - 1].profile.tag
  }

  lemma {:induction false} TagsDifferIff(inbounds: seq<Inbound>, k: nat)
    requires k <= |inbounds|
    ensures TagsDifferTo(inbounds, k) <==>
              forall i, j :: 0 <= i < j < k ==> inbounds[i].profile.tag != inbounds[j].profile.tag
  {
    if k > 0 {
      TagsDifferIff(inbounds, k - 1);
    }
  }

  // What SyncUser does on an inbound.
  function SiteOf(inbound: Inbound, env: Env, user: User): Site {
    var p := inbound.profile;
    Site(p.tag, inbound.exclude,
         (xs: seq<Account>) => Managed(p) && !Scannable(xs, user.email),
         (xs: seq<Account>) => if Managed(p) then SyncStep(env, p, xs, user) else xs,
         (live: Users, accepts: bool) => LiveStep(env, p, live, user, accepts),
         Sent(env, p, user).Some?)
  }

  function SitesOf(inbounds: seq<Inbound>, env: Env, user: User): (sites: seq<Site>)
    ensures |sites| == |inbounds| && forall i :: 0 <= i < |sites| ==> sites[i] == SiteOf(inbounds[i], env, user)
  {
    seq(|inbounds|, (i: nat) requires i < |inbounds| => SiteOf(inbounds[i], env, user))
  }

  // What SyncUsers does on an inbound.
  ghost function RebuildOf(inbound: Inbound, env: Env, users: seq<User>): Rebuild {
    if !Kept(inbound) then Skipped
    else if !BulkRuns(env, inbound.profile, users) then Panics
    else Sets(BulkList(env, inbound.profile, users), ListKind(inbound.profile).value)
  }

  ghost function PlanOf(inbounds: seq<Inbound>, env: Env, users: seq<User>): (plan: seq<Rebuild>)
    ensures |plan| == |inbounds| && forall i :: 0 <= i < |plan| ==> plan[i] == RebuildOf(inbounds[i], env, users)
  {
    seq(|inbounds|, (i: nat) requires i < |inbounds| => RebuildOf(inbounds[i], env, users))
  }

  // What a starting core loads on the first k inbounds, of those with a maintained list.
  function ImagesOf(inbounds: seq<Inbound>, k: nat, lists: seq<seq<Account>>): seq<Image>
    requires k <= |inbounds| == |lists|
  {
    if k == 0 then []
    else if Kept(inbounds[k - 1])
    then ImagesOf(inbounds, k - 1, lists) + [Image(inbounds[k - 1].profile.tag, AccountMap(lists[k - 1]))]
    else ImagesOf(inbounds, k - 1, lists)
  }

  // The users of the running core, by inbound tag and email.
  class CoreUsers {
    var users: UsersByTag

    constructor ()
      ensures users == map[]
    {
      users := map[];
    }

    method RemoveInboundUser(tag: string, email: string) returns (ok: bool)
      modifies this
      ensures ok <==> tag in old(users) && email in old(users)[tag]
      ensures users == Removed(old(users), tag, email)
    {
      ok := tag in users && email in users[tag];
      if tag in users {
        users := users[tag := users[tag] - {email}];
      }
    }

    method AddInboundUser(tag: string, account: Account, turnedDown: bool) returns (ok: bool)
      requires !account.NilAccount?
      modifies this
      ensures ok <==> !turnedDown && tag in old(users) && account.email !in old(users)[tag]
      ensures users == if ok then old(users)[tag := old(users)[tag][account.email := account]] else old(users)
    {
      ok := !turnedDown && tag in users && account.email !in users[tag];
      if ok {
        users := users[tag := users[tag][account.email := account]];
      }
    }
  }

  // The body of SyncUser's loop: one inbound that is not excluded.
  method SyncInbound(handler: CoreUsers, inbound: Inbound, env: Env, user: User, settings: ProxySettings,
                     refused: set<string>)
    returns (ok: bool, crashed: bool)
    requires inbound.Valid() && !inbound.exclude && settings == SetupUserAccount(env, user)
    requires Managed(inbound.profile) ==> inbound.kind == ListKind(inbound.profile)
    modifies handler, inbound, inbound.backing
    ensures inbound.Valid() && (inbound.backing == old(inbound.backing) || fresh(inbound.backing))
    ensures inbound.kind == old(inbound.kind)
    ensures crashed <==> Managed(inbound.profile) && !Scannable(old(inbound.clients), user.email)
    ensures crashed ==> ok && inbound.clients == old(inbound.clients)
    ensures crashed ==> handler.users == Removed(old(handler.users), inbound.profile.tag, user.email)
    ensures !crashed ==>
              inbound.clients == if Managed(inbound.profile)
                                 then SyncStep(env, inbound.profile, old(inbound.clients), user)
                                 else old(inbound.clients)
    ensures !crashed ==> handler.users == SiteOf(inbound, env, user).NextCore(refused, old(handler.users))
    ensures !crashed ==> (ok <==> !SiteOf(inbound, env, user).Rejects(refused, old(handler.users.Keys)))
  {
    ok := true;
    var tag := inbound.profile.tag;
    var _ := handler.RemoveInboundUser(tag, user.email);
    var active := ActiveAccount(env, inbound.profile, user.inbounds, settings);
    SentHasListKind(env, inbound.profile, user);
    match active {
      case Some(account) =>
        crashed := inbound.UpdateUser(env, account);
        if !crashed {
          ok := handler.AddInboundUser(tag, account, tag in refused);
        }
      case None =>
        crashed := inbound.RemoveUser(user.email);
    }
  }

  class Xray {
    const inbounds: seq<Inbound>
    const handler: CoreUsers

    constructor (inbounds: seq<Inbound>, handler: CoreUsers)
      ensures this.inbounds == inbounds && this.handler == handler
    {
      this.inbounds, this.handler := inbounds, handler;
    }

    // The backing arrays, the stored lists and their element types, of the first k inbounds.
    ghost function BackingsTo(k: nat): set<array<Account>>
      requires k <= |inbounds|
      reads this, inbounds
    {
      if k == 0 then {} else BackingsTo(k - 1) + {inbounds[k - 1].backing}
    }

    ghost function ListsTo(k: nat): (lists: seq<seq<Account>>)
      requires k <= |inbounds|
      reads this, inbounds
      ensures |lists| == k
    {
      if k == 0 then [] else ListsTo(k - 1) + [inbounds[k - 1].clients]
    }

    ghost function KindsTo(k: nat): (kinds: seq<Option<Kind>>)
      requires k <= |inbounds|
      reads this, inbounds
      ensures |kinds| == k
    {
      if k == 0 then [] else KindsTo(k - 1) + [inbounds[k - 1].kind]
    }

    // The first k inbounds are valid and share no backing array.
    ghost predicate ValidTo(k: nat)
      requires k <= |inbounds|
      reads this, inbounds, BackingsTo(k)
    {
      k > 0 ==> ValidTo(k - 1) && inbounds[k - 1].Valid() && inbounds[k - 1].backing !in BackingsTo(k - 1)
    }

    ghost function Backings(): set<array<Account>>
      reads this, inbounds
    {
      BackingsTo(|inbounds|)
    }

    ghost function Lists(): seq<seq<Account>>
      reads this, inbounds
    {
      ListsTo(|inbounds|)
    }

    ghost function Kinds(): seq<Option<Kind>>
      reads this, inbounds
    {
      KindsTo(|inbounds|)
    }

    ghost predicate Valid()
      reads this, inbounds, Backings()
    {
      TagsDifferTo(inbounds, |inbounds|) && ValidTo(|inbounds|)
    }

    lemma {:induction false} At(i: nat, k: nat)
      requires i < k <= |inbounds|
      ensures inbounds[i].backing in BackingsTo(k)
      ensures ListsTo(k)[i] == inbounds[i].clients && KindsTo(k)[i] == inbounds[i].kind
      ensures ValidTo(k) ==> inbounds[i].Valid()
    {
      if i < k - 1 {
        At(i, k - 1);
      }
    }

    lemma {:induction false} Apart(i: nat, j: nat, k: nat)
      requires i < k <= |inbounds| && j < k && i != j && ValidTo(k)
      ensures inbounds[i].backing != inbounds[j].backing
    {
      if i < k - 1 && j < k - 1 {
        Apart(i, j, k - 1);
      } else {
        At(if i < k - 1 then i else j, k - 1);
      }
    }

    lemma EachAt()
      requires Valid()
      ensures forall i, j :: 0 <= i < j < |inbounds| ==> inbounds[i] != inbounds[j]
      ensures forall i :: 0 <= i < |inbounds| ==> inbounds[i].Valid() && inbounds[i].backing in Backings()
      ensures forall i :: 0 <= i < |inbounds| ==> Lists()[i] == inbounds[i].clients && Kinds()[i] == inbounds[i].kind
      ensures forall i, j :: 0 <= i < j < |inbounds| ==> inbounds[i].backing != inbounds[j].backing
    {
      TagsDifferIff(inbounds, |inbounds|);
      forall i | 0 <= i < |inbounds|
        ensures inbounds[i].Valid() && inbounds[i].backing in Backings()
        ensures Lists()[i] == inbounds[i].clients && Kinds()[i] == inbounds[i].kind
      {
        At(i, |inbounds|);
      }
      forall i, j | 0 <= i < j < |inbounds| ensures inbounds[i].backing != inbounds[j].backing {
        Apart(i, j, |inbounds|);
      }
    }

    // All inbounds but number k are as in `lists` and `kinds`, on arrays in `cells`.
    lemma Changed(k: nat, lists: seq<seq<Account>>, kinds: seq<Option<Kind>>, cells: set<array<Account>>)
      requires k < |inbounds| == |lists| == |kinds|
      requires forall i :: 0 <= i < |inbounds| ==> inbounds[i].Valid() && (i != k ==> inbounds[i].backing in cells)
      requires forall i :: 0 <= i < |inbounds| && i != k ==>
                 lists[i] == inbounds[i].clients && kinds[i] == inbounds[i].kind
      requires forall i, j :: 0 <= i < j < |inbounds| ==> inbounds[i].backing != inbounds[j].backing
      ensures ValidTo(|inbounds|) && Backings() <= cells + {inbounds[k].backing}
      ensures Lists() == lists[k := inbounds[k].clients] && Kinds() == kinds[k := inbounds[k].kind]
    {
      IsValidTo(|inbounds|);
      AreTo(|inbounds|, lists[k := inbounds[k].clients], kinds[k := inbounds[k].kind]);
      forall b | b in Backings() ensures b in cells + {inbounds[k].backing} {
        var i := Whose(b, |inbounds|);
      }
    }

    lemma {:induction false} IsValidTo(k: nat)
      requires k <= |inbounds| && forall i :: 0 <= i < k ==> inbounds[i].Valid()
      requires forall i, j :: 0 <= i < j < k ==> inbounds[i].backing != inbounds[j].backing
      ensures ValidTo(k)
    {
      if k > 0 {
        IsValidTo(k - 1);
        if inbounds[k - 1].backing in BackingsTo(k - 1) {
          var i := Whose(inbounds[k - 1].backing, k - 1);
        }
      }
    }

    lemma {:induction false} Whose(b: array<Account>, k: nat) returns (i: nat)
      requires k <= |inbounds| && b in BackingsTo(k)
      ensures i < k && inbounds[i].backing == b
    {
      if inbounds[k - 1].backing == b {
        i := k - 1;
      } else {
        i := Whose(b, k - 1);
      }
    }

    lemma {:induction false} AreTo(k: nat, lists: seq<seq<Account>>, kinds: seq<Option<Kind>>)
      requires k <= |inbounds| && |lists| == |kinds| == k
      requires forall i :: 0 <= i < k ==> lists[i] == inbounds[i].clients && kinds[i] == inbounds[i].kind
      ensures ListsTo(k) == lists && KindsTo(k) == kinds
    {
      if k > 0 {
        AreTo(k - 1, lists[..k - 1], kinds[..k - 1]);
      }
    }

    // Every maintained list has the type that its inbound calls for.
    ghost predicate Typed()
      reads this, inbounds
    {
      TypedLists(inbounds, Kinds(), Lists())
    }

    // One round of SyncUser's loop.
    method SyncAt(k: nat, env: Env, user: User, settings: ProxySettings, refused: set<string>)
      returns (ok: bool, crashed: bool)
      requires Valid() && k < |inbounds| && settings == SetupUserAccount(env, user)
      requires Kept(inbounds[k]) ==> Kinds()[k] == ListKind(inbounds[k].profile)
      modifies handler, inbounds[k], inbounds[k].backing
      ensures Valid() && (forall b :: b in Backings() ==> b in old(Backings()) || fresh(b)) && Kinds() == old(Kinds())
      ensures Progress(Lists(), handler.users, ok, crashed) ==
              Round(SiteOf(inbounds[k], env, user), k, user.email, refused,
                    Progress(old(Lists()), old(handler.users), true, false))
    {
      ghost var lists, kinds, cells := Lists(), Kinds(), Backings();
      EachAt();
      ok, crashed := true, false;
      if !inbounds[k].exclude {
        ok, crashed := SyncInbound(handler, inbounds[k], env, user, settings, refused);
      }
      Changed(k, lists, kinds, cells);
      RoundIs(SiteOf(inbounds[k], env, user), k, user.email, refused,
              Progress(old(Lists()), old(handler.users), true, false), Progress(Lists(), handler.users, ok, crashed));
    }

    // A round of SyncUser's loop goes as traced.
    method SyncNext(k: nat, env: Env, user: User, settings: ProxySettings, refused: set<string>, taken: bool,
                    ghost kinds: seq<Option<Kind>>, ghost trace: seq<Progress>)
      returns (ok: bool, crashed: bool)
      requires Valid() && k < |inbounds| && |trace| == |inbounds| + 1 && settings == SetupUserAccount(env, user)
      requires Kinds() == kinds && KindsFitTo(inbounds, kinds, |inbounds|)
      requires Follows(SitesOf(inbounds, env, user), trace, k, user.email, refused)
      requires Progress(Lists(), handler.users, taken, false) == trace[k]
      modifies handler, inbounds[k], inbounds[k].backing
      ensures Valid() && (forall b :: b in Backings() ==> b in old(Backings()) || fresh(b))
      ensures Kinds() == kinds && Progress(Lists(), handler.users, ok, crashed) == trace[k + 1]
    {
      KindsFitIff(inbounds, kinds, |inbounds|);
      RoundCarries(SiteOf(inbounds[k], env, user), k, user.email, refused, trace[k]);
      ok, crashed := SyncAt(k, env, user, settings, refused);
      ok := taken && ok;
    }

    // The loop of SyncUser.
    method SyncLoop(env: Env, user: User, settings: ProxySettings, refused: set<string>,
                    ghost sites: seq<Site>, ghost kinds: seq<Option<Kind>>, ghost trace: seq<Progress>)
      returns (ok: bool, crashed: bool, k: nat)
      requires Valid() && settings == SetupUserAccount(env, user)
      requires sites == SitesOf(inbounds, env, user) && Kinds() == kinds
      requires KindsFitTo(inbounds, kinds, |inbounds|)
      requires |trace| == |inbounds| + 1 && trace[0] == Progress(Lists(), handler.users, true, false)
      requires forall k {:trigger Follows(sites, trace, k, user.email, refused)} :: 0 <= k < |inbounds| ==>
                 Follows(sites, trace, k, user.email, refused)
      modifies handler, inbounds, Backings()
      ensures Valid() && (forall b :: b in Backings() ==> b in old(Backings()) || fresh(b))
      ensures k <= |inbounds| && (k == |inbounds| || crashed)
      ensures Kinds() == kinds && Progress(Lists(), handler.users, ok, crashed) == trace[k]
    {
      ok, crashed, k := true, false, 0;
      while k < |inbounds| && !crashed
        invariant k <= |inbounds| && Valid() && (forall b :: b in Backings() ==> b in old(Backings()) || fresh(b))
        invariant Kinds() == kinds && Progress(Lists(), handler.users, ok, crashed) == trace[k]
      {
        At(k, |inbounds|);
        assert Follows(sites, trace, k, user.email, refused);
        ok, crashed := SyncNext(k, env, user, settings, refused, ok, kinds, trace);
        k := k + 1;
      }
    }

    // SyncUser does what Called says; CalledMeans and CrashedIff say what that is.
    method SyncUser(env: Env, user: User, refused: set<string>) returns (ok: bool, crashed: bool)
      requires Valid() && Typed()
      modifies handler, inbounds, Backings()
      ensures Valid() && Typed() && (forall b :: b in Backings() ==> b in old(Backings()) || fresh(b))
      ensures Progress(Lists(), handler.users, ok, crashed) ==
              Called(SitesOf(inbounds, env, user), user.email, refused, old(Lists()), old(handler.users))
    {
      CalledKeepsTypes(inbounds, env, user, refused, Kinds(), Lists(), handler.users);
      ghost var sites := SitesOf(inbounds, env, user);
      ghost var trace := Trace(sites, user.email, refused, Lists(), handler.users);
      var k;
      ok, crashed, k := SyncLoop(env, user, SetupUserAccount(env, user), refused, sites, Kinds(), trace);
      if crashed {
        TraceStops(sites, trace, k, |inbounds|, user.email, refused);
      }
    }

    // One round of Config.syncUsers.
    method RebuildAt(k: nat, env: Env, users: seq<User>) returns (crashed: bool)
      requires Valid() && k < |inbounds|
      modifies inbounds[k]
      ensures Valid() && (forall b :: b in Backings() ==> b in old(Backings()) || fresh(b))
      ensures Stock(Lists(), Kinds(), crashed) ==
              RebuiltOnce(RebuildOf(inbounds[k], env, users), k, Stock(old(Lists()), old(Kinds()), false))
    {
      ghost var lists, kinds, cells := Lists(), Kinds(), Backings();
      EachAt();
      crashed := false;
      if !inbounds[k].exclude {
        crashed := inbounds[k].SyncUsers(env, users);
      }
      Changed(k, lists, kinds, cells);
    }

    // Config.syncUsers.
    method RebuildLists(env: Env, users: seq<User>, ghost plan: seq<Rebuild>, ghost trace: seq<Stock>)
      returns (crashed: bool, k: nat)
      requires Valid() && plan == PlanOf(inbounds, env, users)
      requires |trace| == |inbounds| + 1 && trace[0] == Stock(Lists(), Kinds(), false)
      requires forall k {:trigger RebuildFollows(plan, trace, k)} :: 0 <= k < |inbounds| ==>
                 RebuildFollows(plan, trace, k)
      modifies inbounds
      ensures Valid() && (forall b :: b in Backings() ==> b in old(Backings()) || fresh(b))
      ensures k <= |inbounds| && (k == |inbounds| || crashed)
      ensures Stock(Lists(), Kinds(), crashed) == trace[k]
    {
      crashed, k := false, 0;
      while k < |inbounds| && !crashed
        invariant k <= |inbounds| && Valid() && (forall b :: b in Backings() ==> b in old(Backings()) || fresh(b))
        invariant Stock(Lists(), Kinds(), crashed) == trace[k]
      {
        assert RebuildFollows(plan, trace, k);
        crashed := RebuildAt(k, env, users);
        k := k + 1;
      }
    }

    // The rebuild of all lists, and unless it panics the restart. `rest` are the users that a starting core loads
    // on inbounds without a maintained list.
    method SyncUsers(env: Env, users: seq<User>, started: bool, rest: UsersByTag) returns (crashed: bool)
      requires Valid()
      modifies handler, inbounds
      ensures Valid() && (forall b :: b in Backings() ==> b in old(Backings()) || fresh(b))
      ensures Stock(Lists(), Kinds(), crashed) ==
              Rebuilt(PlanOf(inbounds, env, users), |inbounds|, Stock(old(Lists()), old(Kinds()), false))
      ensures !crashed || old(Typed()) ==> Typed()
      ensures handler.users == if crashed then old(handler.users)
                               else Restarted(inbounds, Lists(), started, rest)
    {
      ghost var plan := PlanOf(inbounds, env, users);
      ghost var trace := RebuildTrace(plan, Stock(Lists(), Kinds(), false));
      RebuiltIsTyped(inbounds, env, users, Stock(Lists(), Kinds(), false));
      var k;
      crashed, k := RebuildLists(env, users, plan, trace);
      if crashed {
        RebuildTraceStops(plan, trace, k, |inbounds|);
      } else {
        Restart(started, rest);
      }
    }

    // The core loads the config, or does not come up.
    method Restart(started: bool, rest: UsersByTag)
      requires Valid()
      modifies handler
      ensures Valid() && Backings() == old(Backings()) && Lists() == old(Lists()) && Kinds() == old(Kinds())
      ensures handler.users == Restarted(inbounds, Lists(), started, rest)
    {
      EachAt();
      var core: UsersByTag := map[];
      if started {
        core := Load(rest);
      }
      handler.users := core;
      IsValidTo(|inbounds|);
    }

    method Load(rest: UsersByTag) returns (core: UsersByTag)
      requires Valid()
      ensures core == Loaded(ImagesOf(inbounds, |inbounds|, Lists()), rest)
    {
      ghost var lists := Lists();
      EachAt();
      core := rest;
      for k := 0 to |inbounds|
        invariant core == Loaded(ImagesOf(inbounds, k, lists), rest)
      {
        LoadedNext(inbounds, k, lists, rest);
        var inbound := inbounds[k];
        if Kept(inbound) {
          core := core[inbound.profile.tag := AccountMap(inbound.backing[..inbound.len])];
        }
      }
    }
  }

  lemma LoadedNext(inbounds: seq<Inbound>, k: nat, lists: seq<seq<Account>>, rest: UsersByTag)
    requires k < |inbounds| == |lists|
    ensures Loaded(ImagesOf(inbounds, k + 1, lists), rest) ==
            if Kept(inbounds[k])
            then Loaded(ImagesOf(inbounds, k, lists), rest)[inbounds[k].profile.tag := AccountMap(lists[k])]
            else Loaded(ImagesOf(inbounds, k, lists), rest)
  {
    var images := ImagesOf(inbounds, k, lists);
    assert Kept(inbounds[k]) ==> ImagesOf(inbounds, k + 1, lists)[..|images|] == images;
  }

  // ---------- types ----------

  // Of the first k inbounds every maintained one holds a list of the type that it calls for.
  ghost predicate KindsFitTo(inbounds: seq<Inbound>, kinds: seq<Option<Kind>>, k: nat)
    requires k <= |inbounds| == |kinds|
  {
    k > 0 ==>
      && KindsFitTo(inbounds, kinds, k - 1)
      && (Kept(inbounds[k - 1]) ==> kinds[k - 1] == ListKind(inbounds[k - 1].profile))
  }

  // And so are the accounts in it.
  ghost predicate ListsFitTo(inbounds: seq<Inbound>, lists: seq<seq<Account>>, k: nat)
    requires k <= |inbounds| == |lists|
  {
    k > 0 ==>
      && ListsFitTo(inbounds, lists, k - 1)
      && (Kept(inbounds[k - 1]) ==> OfKind(lists[k - 1], ListKind(inbounds[k - 1].profile).value))
  }

  ghost predicate TypedLists(inbounds: seq<Inbound>, kinds: seq<Option<Kind>>, lists: seq<seq<Account>>)
    requires |inbounds| == |kinds| == |lists|
  {
    KindsFitTo(inbounds, kinds, |inbounds|) && ListsFitTo(inbounds, lists, |inbounds|)
  }

  lemma {:induction false} KindsFitIff(inbounds: seq<Inbound>, kinds: seq<Option<Kind>>, k: nat)
    requires k <= |inbounds| == |kinds|
    ensures KindsFitTo(inbounds, kinds, k) <==>
              forall i :: 0 <= i < k && Kept(inbounds[i]) ==> kinds[i] == ListKind(inbounds[i].profile)
  {
    if k > 0 {
      KindsFitIff(inbounds, kinds, k - 1);
    }
  }

  lemma {:induction false} ListsFitIff(inbounds: seq<Inbound>, lists: seq<seq<Account>>, k: nat)
    requires k <= |inbounds| == |lists|
    ensures ListsFitTo(inbounds, lists, k) <==>
              forall i :: 0 <= i < k && Kept(inbounds[i]) ==> OfKind(lists[i], ListKind(inbounds[i].profile).value)
  {
    if k > 0 {
      ListsFitIff(inbounds, lists, k - 1);
    }
  }

  lemma {:induction false} RemoveFirstOfKind(xs: seq<Account>, email: string, kind: Kind)
    requires OfKind(xs, kind)
    ensures OfKind(RemoveFirst(xs, email), kind)
  {
    var k := RemoveFirstAt(xs, email);
  }

  lemma SyncStepOfKind(env: Env, p: Profile, xs: seq<Account>, user: User)
    requires Managed(p) && OfKind(xs, ListKind(p).value)
    ensures OfKind(SyncStep(env, p, xs, user), ListKind(p).value)
  {
    RemoveFirstOfKind(xs, user.email, ListKind(p).value);
    SentHasListKind(env, p, user);
  }

  /** A call keeps the lists typed, wherever it ends. */
  lemma CalledKeepsTypes(inbounds: seq<Inbound>, env: Env, user: User, refused: set<string>, kinds: seq<Option<Kind>>,
                         lists: seq<seq<Account>>, core: UsersByTag)
    requires |inbounds| == |kinds| == |lists| && TypedLists(inbounds, kinds, lists)
    ensures TypedLists(inbounds, kinds, Called(SitesOf(inbounds, env, user), user.email, refused, lists, core).lists)
  {
    var sites := SitesOf(inbounds, env, user);
    var after := Called(sites, user.email, refused, lists, core).lists;
    CalledSteps(sites, user.email, refused, lists, core);
    ListsFitIff(inbounds, lists, |inbounds|);
    forall i | 0 <= i < |inbounds| && Kept(inbounds[i]) ensures OfKind(after[i], ListKind(inbounds[i].profile).value) {
      SyncStepOfKind(env, inbounds[i].profile, lists[i], user);
      assert after[i] == lists[i] || after[i] == sites[i].Next(lists[i]);
    }
    ListsFitIff(inbounds, after, |inbounds|);
  }

  // What a rebuild plans for a maintained inbound has the type that the inbound calls for.
  lemma PlannedIsTyped(inbound: Inbound, env: Env, users: seq<User>)
    requires Kept(inbound) && RebuildOf(inbound, env, users).Sets?
    ensures var r := RebuildOf(inbound, env, users);
            Some(r.kind) == ListKind(inbound.profile) && OfKind(r.list, ListKind(inbound.profile).value)
  {
    BulkListOfKind(env, inbound.profile, users);
  }

  /**
   A rebuild that does not panic types every maintained list, whatever was there; and one that does keeps the lists
   typed if they were.
   */
  lemma RebuiltIsTyped(inbounds: seq<Inbound>, env: Env, users: seq<User>, s: Stock)
    requires |inbounds| == |s.lists| == |s.kinds| && !s.crashed
    ensures var r := Rebuilt(PlanOf(inbounds, env, users), |inbounds|, s);
            !r.crashed || TypedLists(inbounds, s.kinds, s.lists) ==> TypedLists(inbounds, r.kinds, r.lists)
  {
    var plan := PlanOf(inbounds, env, users);
    var r := Rebuilt(plan, |inbounds|, s);
    RebuiltMeans(plan, s);
    if !r.crashed || TypedLists(inbounds, s.kinds, s.lists) {
      KindsFitIff(inbounds, s.kinds, |inbounds|);
      ListsFitIff(inbounds, s.lists, |inbounds|);
      forall i | 0 <= i < |inbounds| && Kept(inbounds[i])
        ensures r.kinds[i] == ListKind(inbounds[i].profile) && OfKind(r.lists[i], ListKind(inbounds[i].profile).value)
      {
        if plan[i].Sets? {
          PlannedIsTyped(inbounds[i], env, users);
        }
      }
      KindsFitIff(inbounds, r.kinds, |inbounds|);
      ListsFitIff(inbounds, r.lists, |inbounds|);
    }
  }

  // ---------- agreement ----------

  /** On a maintained inbound SyncUser is one Sync event of Agreement, refused iff the inbound rejects the account. */
  lemma SyncUserIsEvent(inbound: Inbound, env: Env, user: User, refused: set<string>, xs: seq<Account>,
                        core: UsersByTag)
    requires Kept(inbound)
    ensures var site := SiteOf(inbound, env, user);
            var ev := Sync(user, site.Accepts(refused, core.Keys));
            && View(site.Next(xs), UsersAfter(site, refused, core)) ==
               Step(env, inbound.profile, View(xs, On(core, inbound.profile.tag)), ev)
            && (site.Rejects(refused, core.Keys) <==> Refused(env, inbound.profile, ev))
  {
    var site, p := SiteOf(inbound, env, user), inbound.profile;
    var live := On(core, p.tag);
    assert site.Next(xs) == SyncStep(env, p, xs, user);
    assert site.NextUsers(refused, core) == LiveStep(env, p, live, user, site.Accepts(refused, core.Keys));
    var nobody: Users := map[];
    assert nobody - {user.email} == nobody;
  }

  /**
   Where list and core agree before SyncUser they agree after it, except at the user's email if the inbound
   rejects the account; and a rejection is what makes SyncUser return an error.
   */
  lemma SyncUserKeepsAgreement(inbound: Inbound, env: Env, user: User, refused: set<string>,
                               xs: seq<Account>, core: UsersByTag)
    requires Kept(inbound) && ProperCipher(inbound.profile)
    requires Agrees(View(xs, On(core, inbound.profile.tag)), {})
    ensures var site := SiteOf(inbound, env, user);
            var after := View(site.Next(xs), UsersAfter(site, refused, core));
            && Agrees(after, if site.Rejects(refused, core.Keys) then {user.email} else {})
            && (site.Rejects(refused, core.Keys) ==>
                  user.email in AccountMap(after.stored) && user.email !in after.live)
  {
    SyncUserIsEvent(inbound, env, user, refused, xs, core);
    SyncFromAgreement(env, inbound.profile, View(xs, On(core, inbound.profile.tag)),
                      Sync(user, SiteOf(inbound, env, user).Accepts(refused, core.Keys)));
  }

  // The core after a restart.
  function Restarted(inbounds: seq<Inbound>, lists: seq<seq<Account>>, started: bool, rest: UsersByTag): UsersByTag
    requires |inbounds| == |lists|
  {
    if started then Loaded(ImagesOf(inbounds, |inbounds|, lists), rest) else map[]
  }

  /** On a maintained inbound a restart is one Restart event of Agreement. */
  lemma RestartIsEvent(inbounds: seq<Inbound>, i: nat, env: Env, lists: seq<seq<Account>>, core: UsersByTag,
                       started: bool, rest: UsersByTag)
    requires i < |inbounds| == |lists| && TagsDiffer(inbounds) && Kept(inbounds[i])
    ensures var p := inbounds[i].profile;
            View(lists[i], On(Restarted(inbounds, lists, started, rest), p.tag)) ==
            Step(env, p, View(lists[i], On(core, p.tag)), Event.Restart(started))
  {
    RestartLoads(inbounds, lists, rest, inbounds[i].profile.tag);
  }

  /** On a maintained inbound a SyncUsers call that does not panic is one BulkSync event of Agreement. */
  lemma SyncUsersIsEvent(inbounds: seq<Inbound>, i: nat, env: Env, users: seq<User>, s: Stock, core: UsersByTag,
                         started: bool, rest: UsersByTag)
    requires i < |inbounds| == |s.lists| == |s.kinds| && !s.crashed && TagsDiffer(inbounds) && Kept(inbounds[i])
    requires !Rebuilt(PlanOf(inbounds, env, users), |inbounds|, s).crashed
    ensures var p := inbounds[i].profile;
            var lists := Rebuilt(PlanOf(inbounds, env, users), |inbounds|, s).lists;
            View(lists[i], On(Restarted(inbounds, lists, started, rest), p.tag)) ==
            Step(env, p, View(s.lists[i], On(core, p.tag)), BulkSync(users, started))
  {
    var plan := PlanOf(inbounds, env, users);
    var lists := Rebuilt(plan, |inbounds|, s).lists;
    RebuiltMeans(plan, s);
    assert plan[i].Sets?;
    RestartLoads(inbounds, lists, rest, inbounds[i].profile.tag);
  }

  // What a restarting core loads: one image for each maintained inbound, with the stored accounts.
  lemma {:induction false} ImagesAre(inbounds: seq<Inbound>, k: nat, lists: seq<seq<Account>>)
    requires k <= |inbounds| == |lists|
    ensures forall j :: 0 <= j < |ImagesOf(inbounds, k, lists)| ==>
              HasImage(inbounds, k, lists, ImagesOf(inbounds, k, lists)[j])
    ensures forall i :: 0 <= i < k && Kept(inbounds[i]) ==>
              Image(inbounds[i].profile.tag, AccountMap(lists[i])) in ImagesOf(inbounds, k, lists)
  {
    if k > 0 {
      ImagesAre(inbounds, k - 1, lists);
      var before, images := ImagesOf(inbounds, k - 1, lists), ImagesOf(inbounds, k, lists);
      forall j | 0 <= j < |images| ensures HasImage(inbounds, k, lists, images[j]) {
        if j < |before| {
          assert HasImage(inbounds, k - 1, lists, before[j]);
          var i :| 0 <= i < k - 1 && Kept(inbounds[i])
                   && before[j] == Image(inbounds[i].profile.tag, AccountMap(lists[i]));
        }
      }
      forall i | 0 <= i < k && Kept(inbounds[i])
        ensures Image(inbounds[i].profile.tag, AccountMap(lists[i])) in images
      {
        if i == k - 1 {
          assert images[|before|] == Image(inbounds[i].profile.tag, AccountMap(lists[i]));
        } else {
          assert Image(inbounds[i].profile.tag, AccountMap(lists[i])) in before;
        }
      }
    }
  }

  ghost predicate HasImage(inbounds: seq<Inbound>, k: nat, lists: seq<seq<Account>>, image: Image)
    requires k <= |inbounds| == |lists|
  {
    exists i :: 0 <= i < k && Kept(inbounds[i]) && image == Image(inbounds[i].profile.tag, AccountMap(lists[i]))
  }

  lemma {:induction false} ImagesDistinct(inbounds: seq<Inbound>, k: nat, lists: seq<seq<Account>>)
    requires k <= |inbounds| == |lists| && TagsDiffer(inbounds)
    ensures DistinctImages(ImagesOf(inbounds, k, lists))
  {
    if k > 0 {
      ImagesDistinct(inbounds, k - 1, lists);
      ImagesAre(inbounds, k - 1, lists);
      var before := ImagesOf(inbounds, k - 1, lists);
      forall j | 0 <= j < |before| ensures before[j].tag != inbounds[k - 1].profile.tag {
        assert HasImage(inbounds, k - 1, lists, before[j]);
        var i :| 0 <= i < k - 1 && Kept(inbounds[i])
                 && before[j] == Image(inbounds[i].profile.tag, AccountMap(lists[i]));
      }
    }
  }

  /**
   A core that has loaded the config has the stored accounts on every maintained inbound, and its own users on the
   inbounds beside them.
   */
  lemma RestartLoads(inbounds: seq<Inbound>, lists: seq<seq<Account>>, rest: UsersByTag, tag: string)
    requires |inbounds| == |lists| && TagsDiffer(inbounds)
    ensures var core := Loaded(ImagesOf(inbounds, |inbounds|, lists), rest);
            && (forall i :: 0 <= i < |inbounds| && Kept(inbounds[i]) ==>
                  inbounds[i].profile.tag in core && core[inbounds[i].profile.tag] == AccountMap(lists[i]))
            && ((forall i :: 0 <= i < |inbounds| && Kept(inbounds[i]) ==> inbounds[i].profile.tag != tag) ==>
                  (tag in core <==> tag in rest) && On(core, tag) == On(rest, tag))
  {
    var images := ImagesOf(inbounds, |inbounds|, lists);
    ImagesDistinct(inbounds, |inbounds|, lists);
    ImagesAre(inbounds, |inbounds|, lists);
    forall i | 0 <= i < |inbounds| && Kept(inbounds[i])
      ensures inbounds[i].profile.tag in Loaded(images, rest)
              && Loaded(images, rest)[inbounds[i].profile.tag] == AccountMap(lists[i])
    {
      var j :| 0 <= j < |images| && images[j] == Image(inbounds[i].profile.tag, AccountMap(lists[i]));
      LoadedHas(images, rest, j);
    }
    if forall i :: 0 <= i < |inbounds| && Kept(inbounds[i]) ==> inbounds[i].profile.tag != tag {
      forall j | 0 <= j < |images| ensures images[j].tag != tag {
        assert HasImage(inbounds, |inbounds|, lists, images[j]);
      }
      LoadedBeside(images, rest, tag);
    }
  }
}
