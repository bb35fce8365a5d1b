/**
 The fast way refines the simple one: any run of SyncUser calls leaves an inbound with the list that the
 bulk rebuild makes from the last version of every user.
 */
module UserSync {
  import opened Options
  import opened Helper
  import opened Accounts
  import opened ClientLists
  import opened LatestLists

  // The stored list after a run of SyncUser calls that starts from xs.
  function RunSync(env: Env, p: Profile, xs: seq<Account>, users: seq<User>): seq<Account> {
    RunWith(StoredBy(env, p), xs, users)
  }

  // The id that the inbound's protocol needs is a UUID.
  ghost predicate IdParses(env: Env, p: Profile, user: User) {
    && (ListKind(p) == Some(VmessKind) && user.proxies.vmess.Some? && p.tag in user.inbounds ==>
          env.parseUuid(user.proxies.vmess.value).Some?)
    && (ListKind(p) == Some(VlessKind) && user.proxies.vless.Some? && p.tag in user.inbounds ==>
          env.parseUuid(user.proxies.vless.value.id).Some?)
  }

  // A Shadowsocks-2022 inbound names one of the ciphers whose key length is known.
  ghost predicate ProperCipher(p: Profile) {
    ListKind(p) == Some(Blake3Kind) ==> KnownCipher(p.cipher.value)
  }

  // ---------- one user ----------

  /** With a proper cipher the two paths store the same account for a user exactly when its id parses. */
  lemma EntryIsStored(env: Env, p: Profile, user: User)
    requires ProperCipher(p)
    ensures IdParses(env, p, user) <==>
              !BulkEntry(env, p, user).Crash? && Pushed(BulkEntry(env, p, user)) == Present(Stored(env, p, user))
    ensures !IdParses(env, p, user) ==>
              BulkEntry(env, p, user) == if p.protocol.VmessProtocol? then Push(NilAccount) else Crash
  {
    if ListKind(p) == Some(Blake3Kind) && user.proxies.shadowsocks.Some? {
      EnsureIsIdempotent(env.sha, user.proxies.shadowsocks.value.password, p.cipher.value);
    }
  }

  lemma {:induction false} BulkIsListWith(env: Env, p: Profile, users: seq<User>)
    requires ProperCipher(p)
    requires forall u :: u in users ==> IdParses(env, p, u)
    ensures BulkRuns(env, p, users) && BulkList(env, p, users) == ListWith(StoredBy(env, p), users)
  {
    if users != [] {
      BulkIsListWith(env, p, users[..|users| - 1]);
      EntryIsStored(env, p, users[|users| - 1]);
      assert users == users[..|users| - 1] + [users[|users| - 1]];
    }
  }

  lemma {:induction false} BulkShowsNil(env: Env, p: Profile, users: seq<User>, u: User)
    requires u in users && BulkEntry(env, p, u) == Push(NilAccount)
    ensures !NoNil(BulkList(env, p, users))
  {
    var init, last := users[..|users| - 1], users[|users| - 1];
    assert users == init + [last];
    var xs := BulkList(env, p, users);
    if last == u {
      assert xs[|xs| - 1].NilAccount?;
    } else {
      BulkShowsNil(env, p, init, u);
      var i :| 0 <= i < |BulkList(env, p, init)| && BulkList(env, p, init)[i].NilAccount?;
      assert xs[i].NilAccount?;
    }
  }

  /**
   Any run of SyncUser calls - repeated emails, changed inbounds, changed proxies - after a bulk sync of
   `base` (possibly empty) leaves the inbound with the list that a bulk sync of the last versions makes,
   in the same order, exactly when the ids of those versions parse. Otherwise the bulk path stores a nil
   pointer or crashes while the incremental path drops the user.
   */
  lemma RunMatchesBulk(env: Env, p: Profile, base: seq<User>, users: seq<User>)
    requires ProperCipher(p) && DistinctEmails(base)
    requires forall u :: u in base ==> IdParses(env, p, u)
    ensures var last := LastVersions(base + users);
            (BulkRuns(env, p, last) && RunSync(env, p, BulkList(env, p, base), users) == BulkList(env, p, last))
            <==> (forall u :: u in last ==> IdParses(env, p, u))
  {
    var last := LastVersions(base + users);
    BulkIsListWith(env, p, base);
    StoredByKeepsEmail(env, p);
    RunIsListWith(StoredBy(env, p), base, users);
    if forall u :: u in last ==> IdParses(env, p, u) {
      BulkIsListWith(env, p, last);
    } else {
      var u :| u in last && !IdParses(env, p, u);
      EntryIsStored(env, p, u);
      if BulkEntry(env, p, u) == Push(NilAccount) {
        BulkShowsNil(env, p, last, u);
        ListWithNoNil(StoredBy(env, p), last);
      }
    }
  }

  /**
   For the hash that is used: on one user with a parsing id the two paths agree exactly if the cipher is proper, the
   inbound takes no account of the user, or hashing the key gives what hashing the password gave.
   */
  lemma PathsAgreeOnUserIff(env: Env, p: Profile, u: User)
    requires IdParses(env, p, u)
    ensures RunSync(env, p, [], [u]) == BulkList(env, p, [u]) <==>
              || ProperCipher(p) || p.tag !in u.inbounds || u.proxies.shadowsocks.None?
              || (var password := u.proxies.shadowsocks.value.password;
                  env.sha(EnsureBase64Password(env.sha, password, p.cipher.value)) == env.sha(password))
  {
    OneUser(env, p, u);
    if ProperCipher(p) {
      EntryIsStored(env, p, u);
    } else if u.proxies.shadowsocks.Some? && p.tag in u.inbounds {
      SecondPassKeepsIff(env.sha, u.proxies.shadowsocks.value.password, p.cipher.value);
    }
  }

  // One SyncUser on an empty list stores what the bulk path stores for that user, whatever the hash.
  ghost predicate PathsAgree(p: Profile) {
    forall env: Env, u: User {:trigger IdParses(env, p, u)} ::
      IdParses(env, p, u) ==> RunSync(env, p, [], [u]) == BulkList(env, p, [u])
  }

  lemma OneUser(env: Env, p: Profile, u: User)
    ensures RunSync(env, p, [], [u]) == Present(Stored(env, p, u))
    ensures BulkList(env, p, [u]) == Pushed(BulkEntry(env, p, u))
  {
    assert [u][..0] == [];
    assert RunWith(StoredBy(env, p), [], []) == [];
  }

  // An unknown cipher and a hash for which one pass and two passes over a key differ.
  lemma ImproperCipherDiffers(p: Profile) returns (env: Env, u: User)
    requires !ProperCipher(p)
    ensures IdParses(env, p, u)
    ensures Pushed(BulkEntry(env, p, u)) != Present(Stored(env, p, u))
  {
    env := Env(SplittingHash(), (s: string) => None);
    u := User("a", Proxies(None, None, None, Some(ShadowsocksProxy("", ""))), [p.tag]);
    UnknownMethodIsNotIdempotent(p.cipher.value);
    assert BulkEntry(env, p, u).account.password == EnsureBase64Password(env.sha, "", p.cipher.value);
  }

  /** The cipher condition of RunMatchesBulk is needed: the two paths agree on an inbound iff it holds. */
  lemma PathsAgreeIffProperCipher(p: Profile)
    ensures PathsAgree(p) <==> ProperCipher(p)
  {
    if ProperCipher(p) {
      forall env: Env, u: User | IdParses(env, p, u) ensures RunSync(env, p, [], [u]) == BulkList(env, p, [u]) {
        OneUser(env, p, u);
        EntryIsStored(env, p, u);
      }
    } else {
      var env, u := ImproperCipherDiffers(p);
      OneUser(env, p, u);
    }
  }
}
