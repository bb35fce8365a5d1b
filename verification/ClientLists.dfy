/**
 What the two ways of maintaining an inbound's client list compute, as functions on sequences:
 the bulk rebuild (Inbound.syncUsers) and one incremental step (isActiveInbound, updateUser, removeUser).
 */
module ClientLists {
  import opened Options
  import opened Helper
  import opened Accounts

  // The protocol of an inbound, by its name in the config.
  datatype Protocol = VmessProtocol | VlessProtocol | TrojanProtocol | ShadowsocksProtocol | OtherProtocol(name: string)

  // The string entries of a header under the keys "Type" and "type".
  datatype Header = Header(upperType: Option<string>, lowerType: Option<string>)

  datatype RawSettings = RawSettings(header: Option<Header>)

  // The part of StreamSettings that decides on the Vless flow; None: no entry, or one of another JSON type.
  datatype StreamSettings = StreamSettings(network: Option<string>, security: Option<string>,
                                           raw: Option<RawSettings>, tcp: Option<RawSettings>)

  // What an inbound keeps unchanged while users come and go.
  datatype Profile = Profile(tag: string, protocol: Protocol, cipher: Option<string>, stream: StreamSettings)

  predicate HasPrefix(s: string, prefix: string) { prefix <= s }

  predicate UsesBlake3(p: Profile) {
    p.cipher.Some? && HasPrefix(p.cipher.value, "2022-blake3")
  }

  // The element type of the inbound's client list; None for a protocol without users.
  function ListKind(p: Profile): Option<Kind> {
    match p.protocol
    case VmessProtocol => Some(VmessKind)
    case VlessProtocol => Some(VlessKind)
    case TrojanProtocol => Some(TrojanKind)
    case ShadowsocksProtocol => Some(if UsesBlake3(p) then Blake3Kind else TcpKind)
    case OtherProtocol(_) => None
  }

  predicate Managed(p: Profile) { ListKind(p).Some? }

  function CheckVless(p: Profile, a: Account): Account
    requires a.Vless?
  {
    if a.flow == "" then a
    else if p.stream.network !in {Some("tcp"), Some("raw"), Some("kcp")} then a.(flow := "")
    else if p.stream.security !in {Some("tls"), Some("reality")} then a.(flow := "")
    else
      var rawMap := if p.stream.raw.Some? then p.stream.raw else p.stream.tcp;
      if rawMap.Some? && rawMap.value.header.Some? && rawMap.value.header.value.upperType == Some("http")
      then a.(flow := "")
      else a
  }

  // The settings in which the header is looked up: "rawSettings", or else "tcpSettings".
  function RawHeader(stream: StreamSettings): Option<Header> {
    if stream.raw.Some? then stream.raw.value.header
    else if stream.tcp.Some? then stream.tcp.value.header
    else None
  }

  // Transport and security between them can carry a flow.
  predicate CarriesFlow(stream: StreamSettings) {
    && (stream.network == Some("tcp") || stream.network == Some("raw") || stream.network == Some("kcp"))
    && (stream.security == Some("tls") || stream.security == Some("reality"))
  }

  predicate HttpUnder(t: Option<string>) { t == Some("http") }

  /**
   The flow of an account is kept exactly if transport and security carry it and the header does not say "http" under
   the key "Type"; otherwise it becomes empty. Nothing else of the account changes.
   */
  lemma VlessFlowKeptIff(p: Profile, a: Account)
    requires a.Vless?
    ensures var flow := CheckVless(p, a).flow;
            && CheckVless(p, a) == a.(flow := flow) && (flow == a.flow || flow == "")
            && (a.flow != "" ==>
                  (flow == a.flow <==>
                   && CarriesFlow(p.stream)
                   && !(RawHeader(p.stream).Some? && HttpUnder(RawHeader(p.stream).value.upperType))))
  {
  }

  // The settings with another entry under "type" in their header, if they have one.
  function Relabelled(raw: Option<RawSettings>, t: Option<string>): Option<RawSettings> {
    match raw
    case Some(RawSettings(Some(header))) => Some(RawSettings(Some(header.(lowerType := t))))
    case _ => raw
  }

  function WithLowerType(p: Profile, t: Option<string>): Profile {
    p.(stream := p.stream.(raw := Relabelled(p.stream.raw, t), tcp := Relabelled(p.stream.tcp, t)))
  }

  /**
   What a header says under the key "type", where Xray's own configs say it, never matters; so over TCP with TLS the
   flow survives a raw header with type "http".
   */
  lemma LowerCaseTypeIsIgnored(p: Profile, t: Option<string>, a: Account)
    requires a.Vless?
    ensures CheckVless(WithLowerType(p, t), a) == CheckVless(p, a)
    ensures var header := Header(None, Some("http"));
            var stream := StreamSettings(Some("tcp"), Some("tls"), Some(RawSettings(Some(header))), None);
            CheckVless(p.(stream := stream), a) == a
  {
  }

  function CheckShadowsocks2022(env: Env, cipher: string, a: Account): Account
    requires a.Shadowsocks2022?
  {
    a.(password := EnsureBase64Password(env.sha, a.password, cipher))
  }

  // ---------- the bulk rebuild ----------

  // What the loop of syncUsers does with one user: nothing, append a pointer (possibly nil), or dereference nil.
  datatype Entry = Skip | Push(account: Account) | Crash

  function BulkEntry(env: Env, p: Profile, user: User): Entry {
    var listed := p.tag in user.inbounds;
    match ListKind(p)
    case None => Skip
    case Some(VmessKind) =>
      if user.proxies.vmess.None? || !listed then Skip else Push(NewVmessAccount(env, user))
    case Some(VlessKind) =>
      if user.proxies.vless.None? || !listed then Skip else
      var account := NewVlessAccount(env, user);
      if account.NilAccount? then Crash else Push(CheckVless(p, account))
    case Some(TrojanKind) =>
      if user.proxies.trojan.None? || !listed then Skip else Push(NewTrojanAccount(user))
    case Some(TcpKind) =>
      if user.proxies.shadowsocks.None? || !listed then Skip else Push(NewShadowsocksTcpAccount(user))
    case Some(Blake3Kind) =>
      if user.proxies.shadowsocks.None? || !listed then Skip
      else Push(CheckShadowsocks2022(env, p.cipher.value, NewShadowsocksAccount(user)))
  }

  // The rebuild runs to its end.
  ghost predicate BulkRuns(env: Env, p: Profile, users: seq<User>) {
    forall u :: u in users ==> !BulkEntry(env, p, u).Crash?
  }

  // It does on the first k users.
  ghost predicate RunsTo(env: Env, p: Profile, users: seq<User>, k: nat)
    requires k <= |users|
  {
    k > 0 ==> RunsTo(env, p, users, k - 1) && !BulkEntry(env, p, users[k - 1]).Crash?
  }

  lemma {:induction false} RunsToAll(env: Env, p: Profile, users: seq<User>, k: nat)
    requires k <= |users|
    ensures RunsTo(env, p, users, k) <==> BulkRuns(env, p, users[..k])
  {
    if k > 0 {
      RunsToAll(env, p, users, k - 1);
      assert users[..k] == users[..k - 1] + [users[k - 1]];
    }
  }

  lemma BulkStops(env: Env, p: Profile, users: seq<User>, i: nat)
    requires i < |users| && BulkEntry(env, p, users[i]).Crash?
    ensures !BulkRuns(env, p, users)
  {
    assert users[i] in users;
  }

  function Pushed(e: Entry): seq<Account> { if e.Push? then [e.account] else [] }

  function BulkList(env: Env, p: Profile, users: seq<User>): seq<Account> {
    if users == [] then []
    else BulkList(env, p, users[..|users| - 1]) + Pushed(BulkEntry(env, p, users[|users| - 1]))
  }

  // ---------- one incremental step ----------

  // isActiveInbound: the account that goes to the running core, if any.
  function ActiveAccount(env: Env, p: Profile, inbounds: seq<string>, settings: ProxySettings): Option<Account>
    requires settings.vless.NilAccount? || settings.vless.Vless?
    requires settings.shadowsocks2022.NilAccount? || settings.shadowsocks2022.Shadowsocks2022?
  {
    if p.tag !in inbounds then None
    else
      match ListKind(p)
      case None => None
      case Some(VlessKind) =>
        if settings.vless.NilAccount? then None else Some(CheckVless(p, settings.vless))
      case Some(VmessKind) => if settings.vmess.NilAccount? then None else Some(settings.vmess)
      case Some(TrojanKind) => if settings.trojan.NilAccount? then None else Some(settings.trojan)
      case Some(Blake3Kind) =>
        if settings.shadowsocks2022.NilAccount? then None
        else Some(CheckShadowsocks2022(env, p.cipher.value, settings.shadowsocks2022))
      case Some(TcpKind) => if settings.shadowsocks.NilAccount? then None else Some(settings.shadowsocks)
  }

  // The account sent to the running core for this user.
  function Sent(env: Env, p: Profile, user: User): Option<Account> {
    ActiveAccount(env, p, user.inbounds, SetupUserAccount(env, user))
  }

  // updateUser normalises a Shadowsocks-2022 key once more before it stores the account.
  function StoredForm(env: Env, p: Profile, a: Account): Account
    requires a.Shadowsocks2022? ==> p.cipher.Some?
  {
    if a.Shadowsocks2022? then CheckShadowsocks2022(env, p.cipher.value, a) else a
  }

  function Stored(env: Env, p: Profile, user: User): Option<Account> {
    match Sent(env, p, user)
    case None => None
    case Some(a) => Some(StoredForm(env, p, a))
  }

  lemma SentHasListKind(env: Env, p: Profile, user: User)
    ensures Sent(env, p, user).Some? ==>
              var a := Sent(env, p, user).value;
              && !a.NilAccount? && a.email == user.email && ListKind(p) == Some(KindOf(a))
  {
  }

  // ---------- whose credentials ----------

  // The ciphers that a plain Shadowsocks account can have.
  predicate ListedCipher(cipher: string) {
    || cipher == "aes-128-gcm" || cipher == "aes-256-gcm"
    || cipher == "chacha20-poly1305" || cipher == "chacha20-ietf-poly1305"
    || cipher == "xchacha20-poly1305" || cipher == "xchacha20-ietf-poly1305" || cipher == "none"
  }

  predicate Is2022(cipher: Option<string>) {
    cipher.Some? && |cipher.value| >= 11 && cipher.value[..11] == "2022-blake3"
  }

  // The flow that a Vless account keeps on the inbound.
  function KeptFlow(stream: StreamSettings, flow: string): string {
    if CarriesFlow(stream) && !(RawHeader(stream).Some? && HttpUnder(RawHeader(stream).value.upperType))
    then flow
    else ""
  }

  // The account is of the type that the inbound's protocol calls for, and carries the user's own email and credentials.
  ghost predicate IsTheUsers(env: Env, p: Profile, user: User, a: Account) {
    && !a.NilAccount? && a.email == user.email
    && match p.protocol
       case VmessProtocol =>
         a.Vmess? && user.proxies.vmess.Some? && env.parseUuid(user.proxies.vmess.value) == Some(a.id)
       case VlessProtocol =>
         && a.Vless? && user.proxies.vless.Some? && env.parseUuid(user.proxies.vless.value.id) == Some(a.id)
         && a.flow == KeptFlow(p.stream, user.proxies.vless.value.flow)
       case TrojanProtocol => a.Trojan? && user.proxies.trojan == Some(a.password)
       case ShadowsocksProtocol =>
         && user.proxies.shadowsocks.Some?
         && var own := user.proxies.shadowsocks.value;
            if Is2022(p.cipher)
            then a.Shadowsocks2022? && IsKeyOf(env.sha, own.password, p.cipher.value, a.password)
            else
              && a.ShadowsocksTcp? && a.password == own.password
              && a.cipher == if ListedCipher(own.cipher) then own.cipher else "none"
       case OtherProtocol(_) => false
  }

  // The user is listed on the inbound and has a proxy of its protocol; with an id that parses, if it has one.
  predicate Eligible(env: Env, p: Profile, user: User) {
    && p.tag in user.inbounds
    && match p.protocol
       case VmessProtocol => user.proxies.vmess.Some? && env.parseUuid(user.proxies.vmess.value).Some?
       case VlessProtocol => user.proxies.vless.Some? && env.parseUuid(user.proxies.vless.value.id).Some?
       case TrojanProtocol => user.proxies.trojan.Some?
       case ShadowsocksProtocol => user.proxies.shadowsocks.Some?
       case OtherProtocol(_) => false
  }

  lemma CipherIsListed(cipher: string)
    ensures cipher in CIPHER_NAMES <==> ListedCipher(cipher)
  {
  }

  lemma PrefixIs2022(p: Profile)
    ensures UsesBlake3(p) <==> Is2022(p.cipher)
  {
    if p.cipher.Some? && |p.cipher.value| >= 11 {
      assert |"2022-blake3"| == 11;
    }
  }

  /** The account sent to the core exists exactly for an eligible user, and is the user's own. */
  lemma SentIsTheUsers(env: Env, p: Profile, user: User)
    ensures Sent(env, p, user).Some? <==> Eligible(env, p, user)
    ensures Sent(env, p, user).Some? ==> IsTheUsers(env, p, user, Sent(env, p, user).value)
  {
    PrefixIs2022(p);
    if user.proxies.shadowsocks.Some? {
      CipherIsListed(user.proxies.shadowsocks.value.cipher);
      if p.cipher.Some? {
        EnsuredKeyIs(env.sha, user.proxies.shadowsocks.value.password, p.cipher.value);
      }
    }
  }

  /** The account that the rebuild stores exists exactly for an eligible user, and is the user's own. */
  lemma RebuiltEntryIsTheUsers(env: Env, p: Profile, user: User)
    ensures var e := BulkEntry(env, p, user);
            && (e.Push? && !e.account.NilAccount? <==> Eligible(env, p, user))
            && (e.Push? && !e.account.NilAccount? ==> IsTheUsers(env, p, user, e.account))
  {
    PrefixIs2022(p);
    if user.proxies.shadowsocks.Some? {
      CipherIsListed(user.proxies.shadowsocks.value.cipher);
      if p.cipher.Some? {
        EnsuredKeyIs(env.sha, user.proxies.shadowsocks.value.password, p.cipher.value);
      }
    }
  }

  // Is this the entry for `email`? A nil entry is nobody's.
  predicate IsFor(a: Account, email: string) { !a.NilAccount? && a.email == email }

  // Deletes the first entry for `email`, as the scan-and-break loops do.
  function RemoveFirst(xs: seq<Account>, email: string): seq<Account> {
    if xs == [] then []
    else if IsFor(xs[0], email) then xs[1..]
    else [xs[0]] + RemoveFirst(xs[1..], email)
  }

  // The scan for `email` dereferences no nil pointer.
  predicate Scannable(xs: seq<Account>, email: string) {
    xs == [] || (!xs[0].NilAccount? && (xs[0].email == email || Scannable(xs[1..], email)))
  }

  // One SyncUser on one inbound's stored list.
  function SyncStep(env: Env, p: Profile, xs: seq<Account>, user: User): seq<Account> {
    StepWith(StoredBy(env, p), xs, user)
  }

  function Present(a: Option<Account>): seq<Account> { if a.Some? then [a.value] else [] }

  // How an inbound makes an account of a user, if it does; the facts about lists do not depend on how.
  type Build = User -> Option<Account>

  function StoredBy(env: Env, p: Profile): Build { (user: User) => Stored(env, p, user) }

  function StepWith(build: Build, xs: seq<Account>, user: User): seq<Account> {
    RemoveFirst(xs, user.email) + Present(build(user))
  }

  ghost predicate KeepsEmail(build: Build) {
    forall user: User :: build(user).Some? ==> IsFor(build(user).value, user.email)
  }

  lemma StoredByKeepsEmail(env: Env, p: Profile)
    ensures KeepsEmail(StoredBy(env, p))
  {
    forall user: User ensures Stored(env, p, user).Some? ==> IsFor(Stored(env, p, user).value, user.email) {
      SentHasListKind(env, p, user);
    }
  }

  // ---------- facts about lists ----------

  ghost predicate NoNil(xs: seq<Account>) {
    forall i :: 0 <= i < |xs| ==> !xs[i].NilAccount?
  }

  ghost predicate OfKind(xs: seq<Account>, kind: Kind) {
    forall i :: 0 <= i < |xs| ==> xs[i].NilAccount? || KindOf(xs[i]) == kind
  }

  ghost predicate Distinct(xs: seq<Account>) {
    && NoNil(xs)
    && (forall i, j :: 0 <= i < j < |xs| ==> xs[i].email != xs[j].email)
  }

  ghost predicate Mentions(xs: seq<Account>, email: string) {
    exists i :: 0 <= i < |xs| && IsFor(xs[i], email)
  }

  // Leaving out element k + 1 of a list is leaving out element k of its rest.
  lemma SplitRest(x: Account, rest: seq<Account>, k: nat)
    requires k < |rest|
    ensures [x] + (rest[..k] + rest[k + 1..]) == ([x] + rest)[..k + 1] + ([x] + rest)[k + 2..]
  {
  }

  lemma {:induction false} RemoveFirstSplit(xs: seq<Account>, email: string, k: nat)
    requires k < |xs| && IsFor(xs[k], email)
    requires forall i :: 0 <= i < k ==> !IsFor(xs[i], email)
    ensures RemoveFirst(xs, email) == xs[..k] + xs[k + 1..]
  {
    if k > 0 {
      var rest := xs[1..];
      assert forall i :: 0 <= i < k - 1 ==> rest[i] == xs[i + 1];
      RemoveFirstSplit(rest, email, k - 1);
      SplitRest(xs[0], rest, k - 1);
      assert xs == [xs[0]] + rest;
    }
  }

  lemma {:induction false} RemoveFirstAbsent(xs: seq<Account>, email: string)
    requires !Mentions(xs, email)
    ensures RemoveFirst(xs, email) == xs
  {
    if xs != [] {
      assert !IsFor(xs[0], email);
      assert forall i :: 0 <= i < |xs| - 1 ==> xs[1..][i] == xs[i + 1];
      RemoveFirstAbsent(xs[1..], email);
    }
  }

  lemma {:induction false} NoNilIsScannable(xs: seq<Account>, email: string)
    requires NoNil(xs)
    ensures Scannable(xs, email)
  {
    if xs != [] {
      assert forall i :: 0 <= i < |xs| - 1 ==> xs[1..][i] == xs[i + 1];
      NoNilIsScannable(xs[1..], email);
    }
  }

  // Element k is the first that ends the scan; it is fine unless that is a nil pointer.
  lemma {:induction false} ScannableIff(xs: seq<Account>, email: string, k: nat)
    requires k < |xs| && (xs[k].NilAccount? || IsFor(xs[k], email))
    requires forall i :: 0 <= i < k ==> !xs[i].NilAccount? && !IsFor(xs[i], email)
    ensures Scannable(xs, email) <==> !xs[k].NilAccount?
  {
    if k > 0 {
      assert forall i :: 0 <= i < k - 1 ==> xs[1..][i] == xs[i + 1];
      ScannableIff(xs[1..], email, k - 1);
    }
  }

  // Where the entries of RemoveFirst come from, and where the entries of xs go.
  lemma RemoveFirstAt(xs: seq<Account>, email: string) returns (k: nat)
    ensures k <= |xs| && |RemoveFirst(xs, email)| == (if k < |xs| then |xs| - 1 else |xs|)
    ensures k < |xs| ==> IsFor(xs[k], email)
    ensures forall i :: 0 <= i < k ==> !IsFor(xs[i], email) && RemoveFirst(xs, email)[i] == xs[i]
    ensures forall i :: k <= i < |RemoveFirst(xs, email)| ==> RemoveFirst(xs, email)[i] == xs[i + 1]
  {
    if Mentions(xs, email) {
      k := 0;
      while !IsFor(xs[k], email)
        invariant k < |xs| && forall i :: 0 <= i < k ==> !IsFor(xs[i], email)
        decreases |xs| - k
      {
        k := k + 1;
      }
      RemoveFirstSplit(xs, email, k);
    } else {
      k := |xs|;
      RemoveFirstAbsent(xs, email);
    }
  }

  // In a list without repeats every entry for `email` goes.
  lemma RemoveFirstDistinct(xs: seq<Account>, email: string)
    requires Distinct(xs)
    ensures Distinct(RemoveFirst(xs, email)) && !Mentions(RemoveFirst(xs, email), email)
  {
    var k := RemoveFirstAt(xs, email);
  }

  lemma StepWithDistinct(build: Build, xs: seq<Account>, user: User)
    requires KeepsEmail(build) && Distinct(xs)
    ensures Distinct(StepWith(build, xs, user))
  {
    RemoveFirstDistinct(xs, user.email);
    var rest := RemoveFirst(xs, user.email);
    forall i | 0 <= i < |rest| ensures rest[i].email != user.email {
      assert !IsFor(rest[i], user.email);
    }
  }
}
