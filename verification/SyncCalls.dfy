/**
 The loops over the inbounds in SyncUser, SyncUsers (backend/xray/user.go) and a restart, as functions on the
 stored lists of all inbounds and the users of the running core. What is done on one inbound is a value here:
 a Site for SyncUser, a Rebuild for SyncUsers. What the network decides is a parameter: `refused` holds the tags
 where the core turns an added user down.
 */
module SyncCalls {
  import opened Options
  import opened Accounts

  type Users = map<string, Account>
  type UsersByTag = map<string, Users>

  function On(core: UsersByTag, tag: string): Users {
    if tag in core then core[tag] else map[]
  }

  // ---------- SyncUser ----------

  // What a call does on one inbound: whether scanning this list panics, the list it leaves, the users it leaves in
  // the core if that takes accounts here or not, and whether there is an account to add.
  datatype Site = Site(tag: string, excluded: bool, panics: seq<Account> -> bool, list: seq<Account> -> seq<Account>,
                       users: (Users, bool) -> Users, adds: bool)
  {
    // The core, which has inbounds with these tags, would take an account here.
    predicate Accepts(refused: set<string>, tags: set<string>) { tag in tags && tag !in refused }

    // There is an account to add and the core turns it down.
    predicate Rejects(refused: set<string>, tags: set<string>) { !excluded && adds && !Accepts(refused, tags) }

    predicate Blocked(xs: seq<Account>) { !excluded && panics(xs) }

    function Next(xs: seq<Account>): seq<Account> { if excluded then xs else list(xs) }

    function NextUsers(refused: set<string>, core: UsersByTag): Users {
      if excluded then On(core, tag) else users(On(core, tag), Accepts(refused, core.Keys))
    }

    function NextCore(refused: set<string>, core: UsersByTag): UsersByTag {
      if !excluded && tag in core then core[tag := NextUsers(refused, core)] else core
    }
  }

  // `ok` unless the core turned an account down; `crashed` if a scan panicked, which ends the call.
  datatype Progress = Progress(lists: seq<seq<Account>>, core: UsersByTag, ok: bool, crashed: bool)

  function Removed(core: UsersByTag, tag: string, email: string): UsersByTag {
    if tag in core then core[tag := core[tag] - {email}] else core
  }

  // One round of the loop. The removal from the core comes before the scan.
  function Round(site: Site, k: nat, email: string, refused: set<string>, p: Progress): Progress
    requires k < |p.lists|
  {
    if p.crashed then p
    else if site.Blocked(p.lists[k]) then p.(core := Removed(p.core, site.tag, email), crashed := true)
    else Progress(p.lists[k := site.Next(p.lists[k])], site.NextCore(refused, p.core),
                  p.ok && !site.Rejects(refused, p.core.Keys), false)
  }

  lemma RoundIs(site: Site, k: nat, email: string, refused: set<string>, p: Progress, q: Progress)
    requires k < |p.lists| && !p.crashed && p.ok
    requires site.excluded ==> q == p
    requires !site.excluded ==> (q.crashed <==> site.panics(p.lists[k]))
    requires q.crashed ==> q.ok && q.lists == p.lists && q.core == Removed(p.core, site.tag, email)
    requires !site.excluded && !q.crashed ==>
               && q.lists == p.lists[k := site.list(p.lists[k])]
               && q.core == site.NextCore(refused, p.core)
               && (q.ok <==> !site.Rejects(refused, p.core.Keys))
    ensures q == Round(site, k, email, refused, p)
  {
    assert p.lists[k := p.lists[k]] == p.lists;
  }

  // The `ok` of earlier rounds is carried along.
  lemma RoundCarries(site: Site, k: nat, email: string, refused: set<string>, p: Progress)
    requires k < |p.lists| && !p.crashed
    ensures var r := Round(site, k, email, refused, p.(ok := true));
            Round(site, k, email, refused, p) == r.(ok := p.ok && r.ok)
  {
  }

  function Rounds(sites: seq<Site>, k: nat, email: string, refused: set<string>, p: Progress): (q: Progress)
    requires k <= |sites| == |p.lists|
    ensures |q.lists| == |p.lists|
  {
    if k == 0 then p else Round(sites[k - 1], k - 1, email, refused, Rounds(sites, k - 1, email, refused, p))
  }

  // The whole call.
  function Called(sites: seq<Site>, email: string, refused: set<string>, lists: seq<seq<Account>>, core: UsersByTag)
    : (q: Progress)
    requires |sites| == |lists|
    ensures |q.lists| == |lists|
  {
    Rounds(sites, |sites|, email, refused, Progress(lists, core, true, false))
  }

  // The progress before every round, and after the last.
  lemma Trace(sites: seq<Site>, email: string, refused: set<string>, lists: seq<seq<Account>>, core: UsersByTag)
    returns (trace: seq<Progress>)
    requires |sites| == |lists|
    ensures |trace| == |sites| + 1 && trace[0] == Progress(lists, core, true, false)
    ensures trace[|sites|] == Called(sites, email, refused, lists, core)
    ensures forall k {:trigger Follows(sites, trace, k, email, refused)} :: 0 <= k < |sites| ==>
              Follows(sites, trace, k, email, refused)
  {
    var p := Progress(lists, core, true, false);
    trace := seq(|sites| + 1, (k: nat) requires k <= |sites| => Rounds(sites, k, email, refused, p));
  }

  ghost predicate Follows(sites: seq<Site>, trace: seq<Progress>, k: nat, email: string, refused: set<string>)
    requires k < |sites| && |trace| == |sites| + 1
  {
    |trace[k].lists| == |sites| && trace[k + 1] == Round(sites[k], k, email, refused, trace[k])
  }

  // After a panic the rest of the loop adds nothing.
  lemma {:induction false} TraceStops(sites: seq<Site>, trace: seq<Progress>, k: nat, n: nat, email: string,
                                      refused: set<string>)
    requires k <= n < |trace| == |sites| + 1 && trace[k].crashed
    requires forall i {:trigger Follows(sites, trace, i, email, refused)} :: 0 <= i < |sites| ==>
               Follows(sites, trace, i, email, refused)
    ensures trace[n] == trace[k]
  {
    if k < n {
      TraceStops(sites, trace, k, n - 1, email, refused);
      assert Follows(sites, trace, n - 1, email, refused);
    }
  }

  ghost predicate DistinctTags(sites: seq<Site>) {
    forall i, j :: 0 <= i < j < |sites| ==> sites[i].tag != sites[j].tag
  }

  ghost predicate NoneRejects(sites: seq<Site>, refused: set<string>, tags: set<string>) {
    forall i :: 0 <= i < |sites| ==> !sites[i].Rejects(refused, tags)
  }

  ghost predicate NoneBlocked(sites: seq<Site>, lists: seq<seq<Account>>)
    requires |sites| == |lists|
  {
    forall i :: 0 <= i < |sites| ==> !sites[i].Blocked(lists[i])
  }

  // Site j is the first whose scan panics.
  ghost predicate FirstBlocked(sites: seq<Site>, lists: seq<seq<Account>>, j: nat)
    requires j < |sites| == |lists|
  {
    sites[j].Blocked(lists[j]) && forall i :: 0 <= i < j ==> !sites[i].Blocked(lists[i])
  }

  // The lists of the first k sites are stepped, the others are as they were.
  ghost predicate SteppedUpTo(sites: seq<Site>, k: nat, lists: seq<seq<Account>>, after: seq<seq<Account>>)
    requires k <= |sites| == |lists| == |after|
  {
    forall i :: 0 <= i < |sites| ==> after[i] == if i < k then sites[i].Next(lists[i]) else lists[i]
  }

  lemma {:induction false} RoundsUnblocked(sites: seq<Site>, k: nat, email: string, refused: set<string>, p: Progress)
    requires k <= |sites| == |p.lists| && !p.crashed
    requires forall i :: 0 <= i < k ==> !sites[i].Blocked(p.lists[i])
    ensures var q := Rounds(sites, k, email, refused, p);
            && !q.crashed && q.core.Keys == p.core.Keys && SteppedUpTo(sites, k, p.lists, q.lists)
            && (q.ok <==> p.ok && forall i :: 0 <= i < k ==> !sites[i].Rejects(refused, p.core.Keys))
  {
    if k > 0 {
      RoundsUnblocked(sites, k - 1, email, refused, p);
    }
  }

  lemma RoundElsewhere(site: Site, k: nat, email: string, refused: set<string>, p: Progress, tag: string)
    requires k < |p.lists| && tag != site.tag
    ensures On(Round(site, k, email, refused, p).core, tag) == On(p.core, tag)
  {
  }

  // Rounds change the users of their own tags only.
  lemma {:induction false} RoundsElsewhere(sites: seq<Site>, k: nat, email: string, refused: set<string>,
                                           p: Progress, tag: string)
    requires k <= |sites| == |p.lists| && forall i :: 0 <= i < k ==> sites[i].tag != tag
    ensures On(Rounds(sites, k, email, refused, p).core, tag) == On(p.core, tag)
  {
    if k > 0 {
      RoundsElsewhere(sites, k - 1, email, refused, p, tag);
      RoundElsewhere(sites[k - 1], k - 1, email, refused, Rounds(sites, k - 1, email, refused, p), tag);
    }
  }

  // The site's users in the core after a call.
  function UsersAfter(site: Site, refused: set<string>, core: UsersByTag): Users {
    if site.tag in core then site.NextUsers(refused, core) else map[]
  }

  lemma RoundHere(site: Site, k: nat, email: string, refused: set<string>, p: Progress, core: UsersByTag)
    requires k < |p.lists| && !p.crashed && !site.Blocked(p.lists[k])
    requires p.core.Keys == core.Keys && On(p.core, site.tag) == On(core, site.tag)
    ensures On(Round(site, k, email, refused, p).core, site.tag) == UsersAfter(site, refused, core)
  {
  }

  // A list whose round is still to come is as it was.
  lemma {:induction false} RoundsAhead(sites: seq<Site>, k: nat, email: string, refused: set<string>, p: Progress,
                                       i: nat)
    requires k <= i < |sites| == |p.lists|
    ensures Rounds(sites, k, email, refused, p).lists[i] == p.lists[i]
  {
    if k > 0 {
      RoundsAhead(sites, k - 1, email, refused, p, i);
    }
  }

  lemma {:induction false} RoundsCalm(sites: seq<Site>, k: nat, email: string, refused: set<string>, p: Progress)
    requires k <= |sites| == |p.lists| && !p.crashed
    requires forall i :: 0 <= i < k ==> !sites[i].Blocked(p.lists[i])
    ensures var q := Rounds(sites, k, email, refused, p); !q.crashed && q.core.Keys == p.core.Keys
  {
    if k > 0 {
      RoundsCalm(sites, k - 1, email, refused, p);
      RoundsAhead(sites, k - 1, email, refused, p, k - 1);
    }
  }

  // The round of the site itself, after those before it.
  lemma RoundsAtLast(sites: seq<Site>, i: nat, email: string, refused: set<string>, p: Progress)
    requires i < |sites| == |p.lists| && DistinctTags(sites) && !p.crashed
    requires forall j :: 0 <= j <= i ==> !sites[j].Blocked(p.lists[j])
    ensures On(Rounds(sites, i + 1, email, refused, p).core, sites[i].tag) == UsersAfter(sites[i], refused, p.core)
  {
    RoundsCalm(sites, i, email, refused, p);
    RoundsAhead(sites, i, email, refused, p, i);
    RoundsElsewhere(sites, i, email, refused, p, sites[i].tag);
    RoundHere(sites[i], i, email, refused, Rounds(sites, i, email, refused, p), p.core);
  }

  /** With distinct tags the rounds do not disturb each other in the core. */
  lemma {:induction false} RoundsOn(sites: seq<Site>, k: nat, email: string, refused: set<string>, p: Progress, i: nat)
    requires i < k <= |sites| == |p.lists| && DistinctTags(sites) && !p.crashed
    requires forall j :: 0 <= j < k ==> !sites[j].Blocked(p.lists[j])
    ensures On(Rounds(sites, k, email, refused, p).core, sites[i].tag) == UsersAfter(sites[i], refused, p.core)
  {
    if i < k - 1 {
      RoundsOn(sites, k - 1, email, refused, p, i);
      RoundElsewhere(sites[k - 1], k - 1, email, refused, Rounds(sites, k - 1, email, refused, p), sites[i].tag);
    } else {
      RoundsAtLast(sites, i, email, refused, p);
    }
  }

  // The first panic ends the call.
  lemma {:induction false} RoundsBlocked(sites: seq<Site>, k: nat, email: string, refused: set<string>, p: Progress,
                                         j: nat)
    requires j < k <= |sites| == |p.lists| && !p.crashed && FirstBlocked(sites, p.lists, j)
    ensures var q := Rounds(sites, k, email, refused, p);
            && q.crashed && q.lists == Rounds(sites, j, email, refused, p).lists
            && q.core == Removed(Rounds(sites, j, email, refused, p).core, sites[j].tag, email)
  {
    if j == k - 1 {
      RoundsUnblocked(sites, j, email, refused, p);
    } else {
      RoundsBlocked(sites, k - 1, email, refused, p, j);
    }
  }

  /**
   A call that does not panic steps every list and the core's users at every site, and fails exactly when some
   site rejects the account.
   */
  lemma CalledMeans(sites: seq<Site>, email: string, refused: set<string>, lists: seq<seq<Account>>, core: UsersByTag)
    requires |sites| == |lists| && DistinctTags(sites) && NoneBlocked(sites, lists)
    ensures var q := Called(sites, email, refused, lists, core);
            && !q.crashed && q.core.Keys == core.Keys
            && (forall i :: 0 <= i < |sites| ==> q.lists[i] == sites[i].Next(lists[i]))
            && (forall i :: 0 <= i < |sites| ==> On(q.core, sites[i].tag) == UsersAfter(sites[i], refused, core))
            && (q.ok <==> NoneRejects(sites, refused, core.Keys))
  {
    var p := Progress(lists, core, true, false);
    RoundsUnblocked(sites, |sites|, email, refused, p);
    forall i | 0 <= i < |sites|
      ensures On(Called(sites, email, refused, lists, core).core, sites[i].tag) == UsersAfter(sites[i], refused, core)
    {
      RoundsOn(sites, |sites|, email, refused, p, i);
    }
  }

  /**
   What a call that panics leaves in the core: the users before the first list that panics are stepped, its own have
   lost the email, and the others are as they were.
   */
  lemma CrashedCore(sites: seq<Site>, email: string, refused: set<string>, lists: seq<seq<Account>>, core: UsersByTag,
                    j: nat, i: nat)
    requires j < |sites| == |lists| && DistinctTags(sites) && FirstBlocked(sites, lists, j) && i < |sites|
    ensures On(Called(sites, email, refused, lists, core).core, sites[i].tag) ==
            if i < j then UsersAfter(sites[i], refused, core)
            else if i == j then On(core, sites[i].tag) - {email}
            else On(core, sites[i].tag)
  {
    var p := Progress(lists, core, true, false);
    RoundsBlocked(sites, |sites|, email, refused, p, j);
    if i < j {
      RoundsOn(sites, j, email, refused, p, i);
    } else {
      RoundsElsewhere(sites, j, email, refused, p, sites[i].tag);
    }
    RemovedOn(Rounds(sites, j, email, refused, p).core, sites[j].tag, email, sites[i].tag);
  }

  lemma RemovedOn(core: UsersByTag, tag: string, email: string, other: string)
    ensures On(Removed(core, tag, email), other) == if other == tag then On(core, tag) - {email} else On(core, other)
  {
    var nobody: Users := map[];
    assert nobody - {email} == nobody;
  }

  // Wherever the call ends, a list is stepped or as it was.
  lemma CalledSteps(sites: seq<Site>, email: string, refused: set<string>, lists: seq<seq<Account>>, core: UsersByTag)
    requires |sites| == |lists|
    ensures var q := Called(sites, email, refused, lists, core);
            forall i :: 0 <= i < |sites| ==> q.lists[i] == lists[i] || q.lists[i] == sites[i].Next(lists[i])
  {
    CrashedIff(sites, email, refused, lists, core);
    var p := Progress(lists, core, true, false);
    if NoneBlocked(sites, lists) {
      RoundsUnblocked(sites, |sites|, email, refused, p);
    }
  }

  lemma FindFirstBlocked(sites: seq<Site>, lists: seq<seq<Account>>) returns (j: nat)
    requires |sites| == |lists| && !NoneBlocked(sites, lists)
    ensures j < |sites| && FirstBlocked(sites, lists, j)
  {
    j := 0;
    while !sites[j].Blocked(lists[j])
      invariant j < |sites| && forall i :: 0 <= i < j ==> !sites[i].Blocked(lists[i])
      decreases |sites| - j
    {
      j := j + 1;
    }
  }

  /**
   A call panics exactly when the scan of some list does; then the lists before the first such list are stepped
   and the others are as they were.
   */
  lemma CrashedIff(sites: seq<Site>, email: string, refused: set<string>, lists: seq<seq<Account>>, core: UsersByTag)
    requires |sites| == |lists|
    ensures var q := Called(sites, email, refused, lists, core);
            && (q.crashed <==> !NoneBlocked(sites, lists))
            && (q.crashed ==> exists j: nat ::
                  j < |sites| && FirstBlocked(sites, lists, j) && SteppedUpTo(sites, j, lists, q.lists))
  {
    var p := Progress(lists, core, true, false);
    if NoneBlocked(sites, lists) {
      RoundsUnblocked(sites, |sites|, email, refused, p);
    } else {
      var j := FindFirstBlocked(sites, lists);
      RoundsUnblocked(sites, j, email, refused, p);
      RoundsBlocked(sites, |sites|, email, refused, p, j);
    }
  }

  // ---------- the bulk rebuild ----------

  // What the rebuild does on one inbound: nothing, a panic, or a new list of some type.
  datatype Rebuild = Skipped | Panics | Sets(list: seq<Account>, kind: Kind)

  datatype Stock = Stock(lists: seq<seq<Account>>, kinds: seq<Option<Kind>>, crashed: bool)

  function RebuiltOnce(rebuild: Rebuild, k: nat, t: Stock): Stock
    requires k < |t.lists| == |t.kinds|
  {
    if t.crashed then t
    else
      match rebuild
      case Skipped => t
      case Panics => t.(crashed := true)
      case Sets(list, kind) => Stock(t.lists[k := list], t.kinds[k := Some(kind)], false)
  }

  // Config.syncUsers on the first k inbounds; a panic ends it.
  function Rebuilt(plan: seq<Rebuild>, k: nat, s: Stock): (r: Stock)
    requires k <= |plan| == |s.lists| == |s.kinds|
    ensures |r.lists| == |r.kinds| == |plan|
  {
    if k == 0 then s else RebuiltOnce(plan[k - 1], k - 1, Rebuilt(plan, k - 1, s))
  }

  // The first k inbounds are as planned, the others as before.
  ghost predicate RebuiltUpTo(plan: seq<Rebuild>, k: nat, s: Stock, r: Stock)
    requires k <= |plan| == |s.lists| == |s.kinds| == |r.lists| == |r.kinds|
  {
    forall i :: 0 <= i < |plan| ==>
      if i < k && plan[i].Sets? then r.lists[i] == plan[i].list && r.kinds[i] == Some(plan[i].kind)
      else r.lists[i] == s.lists[i] && r.kinds[i] == s.kinds[i]
  }

  // Inbound j is the first on which the rebuild panics.
  ghost predicate FirstPanic(plan: seq<Rebuild>, j: nat) {
    j < |plan| && plan[j].Panics? && forall i :: 0 <= i < j ==> !plan[i].Panics?
  }

  lemma {:induction false} RebuiltUnlessPanic(plan: seq<Rebuild>, k: nat, s: Stock)
    requires k <= |plan| == |s.lists| == |s.kinds| && !s.crashed
    requires forall i :: 0 <= i < k ==> !plan[i].Panics?
    ensures !Rebuilt(plan, k, s).crashed && RebuiltUpTo(plan, k, s, Rebuilt(plan, k, s))
  {
    if k > 0 {
      RebuiltUnlessPanic(plan, k - 1, s);
    }
  }

  lemma {:induction false} RebuiltUntilPanic(plan: seq<Rebuild>, k: nat, s: Stock, j: nat)
    requires j < k <= |plan| == |s.lists| == |s.kinds| && !s.crashed && FirstPanic(plan, j)
    ensures Rebuilt(plan, k, s) == Rebuilt(plan, j, s).(crashed := true)
  {
    if j == k - 1 {
      RebuiltUnlessPanic(plan, j, s);
    } else {
      RebuiltUntilPanic(plan, k - 1, s, j);
    }
  }

  lemma FindFirstPanic(plan: seq<Rebuild>) returns (j: nat)
    requires exists i :: 0 <= i < |plan| && plan[i].Panics?
    ensures FirstPanic(plan, j)
  {
    j := 0;
    while !plan[j].Panics?
      invariant j < |plan| && forall i :: 0 <= i < j ==> !plan[i].Panics?
      decreases |plan| - j
    {
      j := j + 1;
    }
  }

  /**
   The rebuild panics exactly when it does on some inbound. Every inbound that is not skipped has its new list and
   type, whatever was there, and the others are as they were; after a panic that is so of the inbounds before the
   first that panics, and all from there on are as they were.
   */
  lemma RebuiltMeans(plan: seq<Rebuild>, s: Stock)
    requires |plan| == |s.lists| == |s.kinds| && !s.crashed
    ensures var r := Rebuilt(plan, |plan|, s);
            && (r.crashed <==> exists i :: 0 <= i < |plan| && plan[i].Panics?)
            && (!r.crashed ==> RebuiltUpTo(plan, |plan|, s, r))
            && (r.crashed ==> exists j: nat :: FirstPanic(plan, j) && RebuiltUpTo(plan, j, s, r))
  {
    if exists i :: 0 <= i < |plan| && plan[i].Panics? {
      var j := FindFirstPanic(plan);
      RebuiltUnlessPanic(plan, j, s);
      RebuiltUntilPanic(plan, |plan|, s, j);
    } else {
      RebuiltUnlessPanic(plan, |plan|, s);
    }
  }

  // The stock before every round, and after the last.
  lemma RebuildTrace(plan: seq<Rebuild>, s: Stock) returns (trace: seq<Stock>)
    requires |plan| == |s.lists| == |s.kinds|
    ensures |trace| == |plan| + 1 && trace[0] == s && trace[|plan|] == Rebuilt(plan, |plan|, s)
    ensures forall k {:trigger RebuildFollows(plan, trace, k)} :: 0 <= k < |plan| ==> RebuildFollows(plan, trace, k)
  {
    trace := seq(|plan| + 1, (k: nat) requires k <= |plan| => Rebuilt(plan, k, s));
  }

  ghost predicate RebuildFollows(plan: seq<Rebuild>, trace: seq<Stock>, k: nat)
    requires k < |plan| && |trace| == |plan| + 1
  {
    |trace[k].lists| == |trace[k].kinds| == |plan| && trace[k + 1] == RebuiltOnce(plan[k], k, trace[k])
  }

  lemma {:induction false} RebuildTraceStops(plan: seq<Rebuild>, trace: seq<Stock>, k: nat, n: nat)
    requires k <= n < |trace| == |plan| + 1 && trace[k].crashed
    requires forall i {:trigger RebuildFollows(plan, trace, i)} :: 0 <= i < |plan| ==> RebuildFollows(plan, trace, i)
    ensures trace[n] == trace[k]
  {
    if k < n {
      RebuildTraceStops(plan, trace, k, n - 1);
      assert RebuildFollows(plan, trace, n - 1);
    }
  }

  // ---------- a restart ----------

  // The users of one inbound in a core that has just started.
  datatype Image = Image(tag: string, users: Users)

  // The core that has loaded these inbounds; `rest` are the users it loads on the inbounds besides them.
  function Loaded(images: seq<Image>, rest: UsersByTag): UsersByTag {
    if images == [] then rest
    else
      var last := images[|images| - 1];
      Loaded(images[..|images| - 1], rest)[last.tag := last.users]
  }

  ghost predicate DistinctImages(images: seq<Image>) {
    forall i, j :: 0 <= i < j < |images| ==> images[i].tag != images[j].tag
  }

  ghost predicate HasTag(images: seq<Image>, tag: string) {
    exists i :: 0 <= i < |images| && images[i].tag == tag
  }

  /** Each loaded inbound has its users. */
  lemma {:induction false} LoadedHas(images: seq<Image>, rest: UsersByTag, i: nat)
    requires DistinctImages(images) && i < |images|
    ensures var core := Loaded(images, rest); images[i].tag in core && core[images[i].tag] == images[i].users
  {
    var init, last := images[..|images| - 1], images[|images| - 1];
    if i < |init| {
      LoadedHas(init, rest, i);
      assert init[i] == images[i] && images[i].tag != last.tag;
    }
  }

  /** All other inbounds are as in `rest`. */
  lemma {:induction false} LoadedBeside(images: seq<Image>, rest: UsersByTag, tag: string)
    requires !HasTag(images, tag)
    ensures var core := Loaded(images, rest); (tag in core <==> tag in rest) && On(core, tag) == On(rest, tag)
  {
    if images != [] {
      var init, last := images[..|images| - 1], images[|images| - 1];
      assert forall i :: 0 <= i < |init| ==> init[i] == images[i];
      LoadedBeside(init, rest, tag);
      assert last.tag != tag;
    }
  }
}
