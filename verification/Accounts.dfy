/**
 backend/xray/api/account.go and setupUserAccount (backend/xray/user.go): the users a panel sends and the
 account records built from them. UUID parsing and SHA-256 are parameters, collected in an Env.
 */
module Accounts {
  import opened Options
  import opened Helper

  datatype Env = Env(sha: Hash, parseUuid: string -> Option<string>)

  datatype VlessProxy = VlessProxy(id: string, flow: string)
  datatype ShadowsocksProxy = ShadowsocksProxy(password: string, cipher: string)

  // A nil Proxies message reads as one with no proxy set.
  datatype Proxies = Proxies(vmess: Option<string>, vless: Option<VlessProxy>, trojan: Option<string>,
                             shadowsocks: Option<ShadowsocksProxy>)

  datatype User = User(email: string, proxies: Proxies, inbounds: seq<string>)

  // The five account types, and the nil pointer that a failed constructor returns.
  datatype Account =
    | NilAccount
    | Vmess(email: string, id: string)
    | Vless(email: string, id: string, flow: string)
    | Trojan(email: string, password: string)
    | ShadowsocksTcp(email: string, password: string, cipher: string)
    | Shadowsocks2022(email: string, password: string)

  // The element type of a typed client list.
  datatype Kind = VmessKind | VlessKind | TrojanKind | TcpKind | Blake3Kind

  function KindOf(a: Account): Kind
    requires !a.NilAccount?
  {
    match a
    case Vmess(_, _) => VmessKind
    case Vless(_, _, _) => VlessKind
    case Trojan(_, _) => TrojanKind
    case ShadowsocksTcp(_, _, _) => TcpKind
    case Shadowsocks2022(_, _) => Blake3Kind
  }

  function NewVmessAccount(env: Env, user: User): Account
    requires user.proxies.vmess.Some?
  {
    match env.parseUuid(user.proxies.vmess.value)
    case None => NilAccount
    case Some(id) => Vmess(user.email, id)
  }

  function NewVlessAccount(env: Env, user: User): Account
    requires user.proxies.vless.Some?
  {
    match env.parseUuid(user.proxies.vless.value.id)
    case None => NilAccount
    case Some(id) => Vless(user.email, id, user.proxies.vless.value.flow)
  }

  function NewTrojanAccount(user: User): Account
    requires user.proxies.trojan.Some?
  {
    Trojan(user.email, user.proxies.trojan.value)
  }

  const CIPHER_NAMES: set<string> :=
    {"aes-128-gcm", "aes-256-gcm", "chacha20-poly1305", "chacha20-ietf-poly1305",
     "xchacha20-poly1305", "xchacha20-ietf-poly1305", "none"}

  function NewShadowsocksTcpAccount(user: User): Account
    requires user.proxies.shadowsocks.Some?
  {
    var proxy := user.proxies.shadowsocks.value;
    ShadowsocksTcp(user.email, proxy.password, if proxy.cipher in CIPHER_NAMES then proxy.cipher else "none")
  }

  function NewShadowsocksAccount(user: User): Account
    requires user.proxies.shadowsocks.Some?
  {
    Shadowsocks2022(user.email, user.proxies.shadowsocks.value.password)
  }

  // The accounts of one user, NilAccount where the user has none of that type.
  datatype ProxySettings = ProxySettings(vmess: Account, vless: Account, trojan: Account,
                                         shadowsocks: Account, shadowsocks2022: Account)

  function SetupUserAccount(env: Env, user: User): ProxySettings {
    ProxySettings(
      if user.proxies.vmess.Some? then NewVmessAccount(env, user) else NilAccount,
      if user.proxies.vless.Some? then NewVlessAccount(env, user) else NilAccount,
      if user.proxies.trojan.Some? then NewTrojanAccount(user) else NilAccount,
      if user.proxies.shadowsocks.Some? then NewShadowsocksTcpAccount(user) else NilAccount,
      if user.proxies.shadowsocks.Some? then NewShadowsocksAccount(user) else NilAccount)
  }
}
