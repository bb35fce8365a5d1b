/**
 Agreement of one inbound's stored list with the users that the running core has on it, over runs of user
 syncs, restarts and bulk syncs. Adding a user to the core may fail; removing one fails only if it is absent.
 */
module Agreement {
  import opened Options
  import opened Accounts
  import opened Helper
  import opened ClientLists
  import opened LatestLists
  import opened UserSync

  // The users that a core loading this list ends up with.
  function AccountMap(xs: seq<Account>): map<string, Account> {
    if xs == [] then map[]
    else
      var m, last := AccountMap(xs[..|xs| - 1]), xs[|xs| - 1];
      if last.NilAccount? then m else m[last.email := last]
  }

  // Remove the user from the core, then add the new account, if there is one and the core takes it.
  function LiveStep(env: Env, p: Profile, live: map<string, Account>, user: User, accepts: bool)
    : map<string, Account>
  {
    var sent := Sent(env, p, user);
    if sent.Some? && accepts then (live - {user.email})[user.email := sent.value] else live - {user.email}
  }

  datatype View = View(stored: seq<Account>, live: map<string, Account>)

  datatype Event =
    | Sync(user: User, accepts: bool)     // SyncUser, and whether the core would take an account here
    | Restart(ok: bool)                   // the core restarts with the stored config, or stays down
    | BulkSync(users: seq<User>, ok: bool)  // SyncUsers: rebuild, then restart

  function Load(stored: seq<Account>, ok: bool): map<string, Account> {
    if ok then AccountMap(stored) else map[]
  }

  function Step(env: Env, p: Profile, v: View, ev: Event): View {
    match ev
    case Sync(user, accepts) => View(SyncStep(env, p, v.stored, user), LiveStep(env, p, v.live, user, accepts))
    case Restart(ok) => View(v.stored, Load(v.stored, ok))
    case BulkSync(users, ok) => var stored := BulkList(env, p, users); View(stored, Load(stored, ok))
  }

  function Run(env: Env, p: Profile, v: View, evs: seq<Event>): View {
    if evs == [] then v else Step(env, p, Run(env, p, v, evs[..|evs| - 1]), evs[|evs| - 1])
  }

  // SyncUser reports an error for this inbound: there is an account to add and the core did not take it.
  predicate Refused(env: Env, p: Profile, ev: Event) {
    ev.Sync? && Sent(env, p, ev.user).Some? && !ev.accepts
  }

  // The emails that the config has and the core lacks.
  function Lost(env: Env, p: Profile, v: View, evs: seq<Event>): set<string> {
    if evs == [] then {}
    else
      var init, ev := evs[..|evs| - 1], evs[|evs| - 1];
      match ev
      case Sync(user, accepts) =>
        if Refused(env, p, ev) then Lost(env, p, v, init) + {user.email} else Lost(env, p, v, init) - {user.email}
      case _ => if ev.ok then {} else AccountMap(Run(env, p, v, evs).stored).Keys
  }

  ghost predicate Agrees(v: View, lost: set<string>) {
    Distinct(v.stored) && v.live == AccountMap(v.stored) - lost
  }

  // A bulk sync gets each email once and only ids that parse.
  ghost predicate Sound(env: Env, p: Profile, ev: Event) {
    ev.BulkSync? ==> DistinctEmails(ev.users) && forall u :: u in ev.users ==> IdParses(env, p, u)
  }

  // ---------- account maps ----------

  lemma {:induction false} AccountMapKeys(xs: seq<Account>, e: string)
    ensures e in AccountMap(xs) <==> Mentions(xs, e)
  {
    if xs != [] {
      var init, last := xs[..|xs| - 1], xs[|xs| - 1];
      AccountMapKeys(init, e);
      assert xs == init + [last];
      if Mentions(init, e) {
        var i :| 0 <= i < |init| && IsFor(init[i], e);
        assert IsFor(xs[i], e);
      }
      if IsFor(last, e) {
        assert IsFor(xs[|xs| - 1], e);
      }
      if Mentions(xs, e) && !IsFor(last, e) {
        var i :| 0 <= i < |xs| && IsFor(xs[i], e);
        assert IsFor(init[i], e);
      }
    }
  }

  lemma AccountMapSnoc(xs: seq<Account>, a: Account)
    requires !a.NilAccount?
    ensures AccountMap(xs + [a]) == AccountMap(xs)[a.email := a]
  {
    assert (xs + [a])[..|xs|] == xs;
  }

  lemma {:induction false} AccountMapWithout(xs: seq<Account>, e: string)
    requires Distinct(xs)
    ensures AccountMap(RemoveFirst(xs, e)) == AccountMap(xs) - {e}
  {
    if xs != [] {
      var init, last := xs[..|xs| - 1], xs[|xs| - 1];
      AccountMapWithout(init, e);
      assert last.email == e ==> !Mentions(init, e);
      AccountMapWithoutSnoc(init, last, e);
      assert init + [last] == xs;
    }
  }

  lemma AccountMapWithoutSnoc(init: seq<Account>, last: Account, e: string)
    requires !last.NilAccount? && (last.email == e ==> !Mentions(init, e))
    requires AccountMap(RemoveFirst(init, e)) == AccountMap(init) - {e}
    ensures AccountMap(RemoveFirst(init + [last], e)) == AccountMap(init + [last]) - {e}
  {
    RemoveFirstSnoc(init, last, e);
    AccountMapSnoc(init, last);
    if last.email == e {
      RemoveFirstAbsent(init, e);
      AccountMapKeys(init, e);
    } else {
      AccountMapSnoc(RemoveFirst(init, e), last);
    }
  }

  lemma RemoveFirstSnoc(init: seq<Account>, last: Account, e: string)
    requires !last.NilAccount?
    ensures last.email != e ==> RemoveFirst(init + [last], e) == RemoveFirst(init, e) + [last]
    ensures last.email == e && !Mentions(init, e) ==> RemoveFirst(init + [last], e) == init
  {
    RemoveFirstConcat(init, [last], e);
    if !Mentions(init, e) {
      RemoveFirstAbsent(init, e);
      assert init + [] == init;
    }
  }

  // ---------- one event ----------

  /** Two passes of the key normalisation store what one pass sends, if the cipher is known. */
  lemma StoredIsSent(env: Env, p: Profile, user: User)
    requires ProperCipher(p)
    ensures Stored(env, p, user) == Sent(env, p, user)
  {
    var sent := Sent(env, p, user);
    if sent.Some? && sent.value.Shadowsocks2022? {
      EnsureIsIdempotent(env.sha, user.proxies.shadowsocks.value.password, p.cipher.value);
    }
  }

  lemma SyncStepMap(env: Env, p: Profile, xs: seq<Account>, user: User)
    requires Distinct(xs)
    ensures Distinct(SyncStep(env, p, xs, user))
    ensures var stored := Stored(env, p, user);
            AccountMap(SyncStep(env, p, xs, user)) ==
            if stored.Some? then (AccountMap(xs) - {user.email})[user.email := stored.value]
            else AccountMap(xs) - {user.email}
  {
    var build := StoredBy(env, p);
    StoredByKeepsEmail(env, p);
    StepWithDistinct(build, xs, user);
    AccountMapWithout(xs, user.email);
    StepWithMap(build, xs, user);
  }

  lemma StepWithMap(build: Build, xs: seq<Account>, user: User)
    requires KeepsEmail(build)
    ensures AccountMap(StepWith(build, xs, user)) ==
            if build(user).Some? then AccountMap(RemoveFirst(xs, user.email))[user.email := build(user).value]
            else AccountMap(RemoveFirst(xs, user.email))
  {
    var rest := RemoveFirst(xs, user.email);
    if build(user).Some? {
      AccountMapSnoc(rest, build(user).value);
    } else {
      assert rest + [] == rest;
    }
  }

  /**
   A SyncUser that the core does not refuse keeps (or restores) agreement at its email; a refused one makes
   the two differ there, and nowhere else.
   */
  lemma SyncAgreement(env: Env, p: Profile, v: View, lost: set<string>, ev: Event)
    requires ProperCipher(p) && Agrees(v, lost) && ev.Sync?
    ensures Agrees(Step(env, p, v, ev), if Refused(env, p, ev) then lost + {ev.user.email} else lost - {ev.user.email})
    ensures Refused(env, p, ev) ==> ev.user.email in AccountMap(Step(env, p, v, ev).stored)
  {
    var e, sent := ev.user.email, Sent(env, p, ev.user);
    SyncStepMap(env, p, v.stored, ev.user);
    StoredIsSent(env, p, ev.user);
    UpdateBeside(AccountMap(v.stored), lost, e, if sent.Some? then sent.value else NilAccount);
  }

  lemma SyncFromAgreement(env: Env, p: Profile, v: View, ev: Event)
    requires ProperCipher(p) && Agrees(v, {}) && ev.Sync?
    ensures var after := Step(env, p, v, ev);
            && Agrees(after, if Refused(env, p, ev) then {ev.user.email} else {})
            && (Refused(env, p, ev) ==> ev.user.email in AccountMap(after.stored) && ev.user.email !in after.live)
  {
    SyncAgreement(env, p, v, {}, ev);
    NothingLostBefore(Step(env, p, v, ev), ev.user.email, Refused(env, p, ev));
  }

  lemma NothingLostBefore(after: View, email: string, refused: bool)
    requires Agrees(after, if refused then {} + {email} else {} - {email})
    requires refused ==> email in AccountMap(after.stored)
    ensures Agrees(after, if refused then {email} else {}) && (refused ==> email !in after.live)
  {
    var nobody: set<string> := {};
    assert nobody + {email} == {email} && nobody - {email} == nobody;
  }

  lemma UpdateBeside(m: map<string, Account>, lost: set<string>, e: string, a: Account)
    ensures (m - lost - {e})[e := a] == (m - {e})[e := a] - (lost - {e})
    ensures m - lost - {e} == m - {e} - (lost - {e})
    ensures m - lost - {e} == (m - {e})[e := a] - (lost + {e})
  {
  }

  lemma {:induction false} DistinctListWith(build: Build, users: seq<User>)
    requires KeepsEmail(build) && DistinctEmails(users)
    ensures Distinct(ListWith(build, users))
  {
    if users != [] {
      var init, last := users[..|users| - 1], users[|users| - 1];
      DistinctListWith(build, init);
      assert !HasEmail(init, last.email);
      ListWithMentions(build, init, last.email);
      var xs := ListWith(build, init);
      forall i | 0 <= i < |xs| ensures xs[i].email != last.email {
        assert !IsFor(xs[i], last.email);
      }
    }
  }

  lemma BulkListDistinct(env: Env, p: Profile, users: seq<User>)
    requires ProperCipher(p) && DistinctEmails(users)
    requires forall u :: u in users ==> IdParses(env, p, u)
    ensures Distinct(BulkList(env, p, users))
  {
    BulkIsListWith(env, p, users);
    StoredByKeepsEmail(env, p);
    DistinctListWith(StoredBy(env, p), users);
  }

  // ---------- runs ----------

  /** After any run the core has exactly the stored accounts, except those in Lost. */
  lemma {:induction false} AgreementAlongRun(env: Env, p: Profile, v: View, evs: seq<Event>)
    requires ProperCipher(p) && Agrees(v, {})
    requires forall i :: 0 <= i < |evs| ==> Sound(env, p, evs[i])
    ensures Agrees(Run(env, p, v, evs), Lost(env, p, v, evs))
  {
    if evs != [] {
      var init, ev := evs[..|evs| - 1], evs[|evs| - 1];
      AgreementAlongRun(env, p, v, init);
      var before, lost := Run(env, p, v, init), Lost(env, p, v, init);
      match ev {
        case Sync(_, _) => SyncAgreement(env, p, before, lost, ev);
        case Restart(_) =>
        case BulkSync(users, _) => BulkListDistinct(env, p, users);
      }
    }
  }

  // The event settles whether the core has the stored account of this email.
  predicate Settles(ev: Event, email: string) {
    !ev.Sync? || ev.user.email == email
  }

  // Event i leaves the core without the stored account: its add was refused, or a core that should have loaded it
  // did not come up.
  predicate Leaves(env: Env, p: Profile, v: View, evs: seq<Event>, i: nat, email: string)
    requires i < |evs|
  {
    if evs[i].Sync? then Refused(env, p, evs[i]) && evs[i].user.email == email
    else !evs[i].ok && email in AccountMap(Run(env, p, v, evs[..i + 1]).stored)
  }

  // The last event that settles this email leaves the core without its account.
  ghost predicate LastLeaves(env: Env, p: Profile, v: View, evs: seq<Event>, email: string) {
    exists i :: 0 <= i < |evs| && Leaves(env, p, v, evs, i, email)
        && forall j :: i < j < |evs| ==> !Settles(evs[j], email)
  }

  lemma LeavesInPrefix(env: Env, p: Profile, v: View, init: seq<Event>, ev: Event, i: nat, email: string)
    requires i < |init|
    ensures Leaves(env, p, v, init + [ev], i, email) <==> Leaves(env, p, v, init, i, email)
  {
    assert (init + [ev])[..i + 1] == init[..i + 1];
  }

  lemma LastLeavesSnoc(env: Env, p: Profile, v: View, init: seq<Event>, ev: Event, email: string)
    ensures Settles(ev, email) ==>
              (LastLeaves(env, p, v, init + [ev], email) <==> Leaves(env, p, v, init + [ev], |init|, email))
    ensures !Settles(ev, email) ==>
              (LastLeaves(env, p, v, init + [ev], email) <==> LastLeaves(env, p, v, init, email))
  {
    var evs := init + [ev];
    assert evs[|init|] == ev;
    if !Settles(ev, email) {
      LastLeavesKept(env, p, v, init, ev, email);
    }
  }

  lemma LastLeavesKept(env: Env, p: Profile, v: View, init: seq<Event>, ev: Event, email: string)
    requires !Settles(ev, email)
    ensures LastLeaves(env, p, v, init + [ev], email) <==> LastLeaves(env, p, v, init, email)
  {
    var evs := init + [ev];
    if LastLeaves(env, p, v, init, email) {
      var i :| 0 <= i < |init| && Leaves(env, p, v, init, i, email)
               && forall j :: i < j < |init| ==> !Settles(init[j], email);
      LeavesInPrefix(env, p, v, init, ev, i, email);
      assert forall j :: i < j < |evs| ==> evs[j] == if j < |init| then init[j] else ev;
    }
    if LastLeaves(env, p, v, evs, email) {
      var i :| 0 <= i < |evs| && Leaves(env, p, v, evs, i, email)
               && forall j :: i < j < |evs| ==> !Settles(evs[j], email);
      assert evs[|init|] == ev;
      assert i < |init|;
      LeavesInPrefix(env, p, v, init, ev, i, email);
      assert forall j :: i < j < |init| ==> init[j] == evs[j];
    }
  }

  /**
   An email is lost exactly when the last event that settles it was a sync whose add was refused, or a restart or
   bulk sync after which no core came up while its account was stored.
   */
  lemma {:induction false} LostIffLastLeaves(env: Env, p: Profile, v: View, evs: seq<Event>, email: string)
    ensures email in Lost(env, p, v, evs) <==> LastLeaves(env, p, v, evs, email)
  {
    if evs != [] {
      var init, ev := evs[..|evs| - 1], evs[|evs| - 1];
      LostIffLastLeaves(env, p, v, init, email);
      LastLeavesSnoc(env, p, v, init, ev, email);
      assert evs == init + [ev];
      assert evs[..|init| + 1] == evs;
    }
  }
}
