/**
 * The session a mailer creates: the protocol-session properties computed from
 * the resolved settings, and the debug flag.
 */
module SessionMapping {
  import opened Wrappers
  import opened Transport
  import opened MailerConfig
  import Decimal

  datatype Session = Session(properties: map<string, string>, debug: bool)

  /** `valueNullOrEmpty` on a string, negated: present and not "". */
  predicate HasText(o: Option<string>) {
    o.Some? && o.value != ""
  }

  const BridgeHost := "localhost"

  /** The proxy is reached through the local bridge: its credentials cannot be handed to the transport. */
  predicate UsesBridge(r: ServerSettings) {
    r.strategy != SMTPS && r.proxy.Some? && HasText(r.proxy.value.username)
  }

  /** SMTP with opportunistic TLS: upgrade if offered, trust any certificate, skip the identity check. */
  function OpportunisticTls(x: Setting): Option<string> {
    match x
    case StartTlsEnable => Some("true")
    case StartTlsRequired => Some("false")
    case SslTrust => Some("*")
    case SslCheckServerIdentity => Some("false")
    case _ => None
  }

  /** SMTP_TLS: the upgrade is enabled, required and the server identity checked. */
  function MandatoryTls(x: Setting): Option<string> {
    match x
    case StartTlsEnable => Some("true")
    case StartTlsRequired => Some("true")
    case SslCheckServerIdentity => Some("true")
    case _ => None
  }

  /** The SOCKS endpoint: the local bridge for a proxy with credentials, the proxy itself otherwise. */
  function Socks(r: ServerSettings, x: Setting): Option<string>
    requires r.proxy.Some?
  {
    match x
    case SocksHost => Some(if UsesBridge(r) then BridgeHost else r.proxy.value.host)
    case SocksPort => Some(Decimal.NatToString(if UsesBridge(r) then r.bridgePort else r.proxy.value.port))
    case _ => None
  }

  /**
   * The value the session gets for setting `x`, if any: host and port always;
   * username and authentication for a username with text; the TLS settings
   * of the strategy; the SOCKS endpoint when a proxy is used outside SMTPS.
   */
  function SettingValue(r: ServerSettings, x: Setting): (v: Option<string>)
    ensures (x == Host || x == Port) ==> v.Some?
    ensures x == QuitWait ==> (v.Some? <==> r.strategy == SMTPS)
    ensures r.strategy == SMTPS && v.Some? ==> x in {Host, Port, Username, Auth, QuitWait}
    ensures r.strategy == SMTP && !r.opportunisticTls && v.Some? ==> x !in {StartTlsEnable, StartTlsRequired, SslTrust, SslCheckServerIdentity}
  {
    match x
    case Host => Some(r.host)
    case Port => Some(Decimal.NatToString(r.port))
    case Username => if HasText(r.username) then Some(r.username.value) else None
    case Auth => if HasText(r.username) then Some("true") else None
    case SocksHost | SocksPort => if r.strategy == SMTPS || r.proxy.None? then None else Socks(r, x)
    case QuitWait => if r.strategy == SMTPS then Some("false") else None
    case _ =>
      match r.strategy
      case SMTP => if r.opportunisticTls then OpportunisticTls(x) else None
      case SMTP_TLS => MandatoryTls(x)
      case SMTPS => None
  }

  const AllSettings: set<Setting> := {
    Host, Port, Username, Auth, StartTlsEnable, StartTlsRequired, SslTrust,
    SslCheckServerIdentity, SocksHost, SocksPort, QuitWait }

  /** The computed properties under the keys of the strategy in use. */
  function Computed(r: ServerSettings): map<string, string> {
    KeyNamesInjective();
    map x | x in AllSettings && SettingValue(r, x).Some? :: KeyName(Key(r.strategy, x)) := SettingValue(r, x).value
  }

  lemma KeyNamesInjective()
    ensures forall a, b :: KeyName(a) == KeyName(b) ==> a == b
  {
    forall a, b
      ensures KeyName(a) == KeyName(b) ==> a == b
    {
      KeyNameInjective(a, b);
    }
  }

  /** The protocol key and the computed properties, then the extra properties, which win on a shared key. */
  function Properties(r: ServerSettings): (p: map<string, string>)
    ensures KeyName(TransportProtocol) in p
    ensures forall k :: k in r.properties ==> k in p && p[k] == r.properties[k]
  {
    map[KeyName(TransportProtocol) := ProtocolName(ProtocolOf(r.strategy))] + Computed(r) + r.properties
  }

  /** The session of resolved settings: debugging as resolved, the protocol key always present. */
  function SessionOf(r: ServerSettings): (s: Session)
    ensures s.debug == r.debug && KeyName(TransportProtocol) in s.properties
  {
    Session(Properties(r), r.debug)
  }

  /** `buildMailer().getSession()`. */
  function BuildSession(b: MailerSettings, c: LoadedConfig, switches: StrategySwitches): (s: Result<Session, Error>)
    ensures s.Success? <==> Layered(b.host, c.smtpHost).Some? && Layered(b.port, c.smtpPort).Some?
    ensures s.Success? ==> s.value.debug == Layered(b.debug, c.debug).GetOr(false)
  {
    var r := Resolve(b, c, switches);
    if r.Failure? then Failure(r.error) else Success(SessionOf(r.value))
  }

  /** The TLS settings of SMTP with opportunistic TLS, before they become session properties. */
  lemma OpportunisticTlsValues(r: ServerSettings)
    requires r.strategy == SMTP && r.opportunisticTls
    ensures SettingValue(r, StartTlsEnable) == Some("true") && SettingValue(r, StartTlsRequired) == Some("false")
    ensures SettingValue(r, SslTrust) == Some("*") && SettingValue(r, SslCheckServerIdentity) == Some("false")
    ensures SettingValue(r, QuitWait) == None
  {
  }

  /** The TLS settings of SMTP without opportunistic TLS: none. */
  lemma PlainSmtpValues(r: ServerSettings)
    requires r.strategy == SMTP && !r.opportunisticTls
    ensures SettingValue(r, StartTlsEnable) == None && SettingValue(r, StartTlsRequired) == None
    ensures SettingValue(r, SslTrust) == None && SettingValue(r, SslCheckServerIdentity) == None
    ensures SettingValue(r, QuitWait) == None
  {
  }

  /** The TLS settings of SMTP_TLS. */
  lemma MandatoryTlsValues(r: ServerSettings)
    requires r.strategy == SMTP_TLS
    ensures SettingValue(r, StartTlsEnable) == Some("true") && SettingValue(r, StartTlsRequired) == Some("true")
    ensures SettingValue(r, SslCheckServerIdentity) == Some("true")
    ensures SettingValue(r, SslTrust) == None && SettingValue(r, QuitWait) == None
  {
  }

  /** The TLS and SOCKS settings of SMTPS. */
  lemma ImplicitTlsValues(r: ServerSettings)
    requires r.strategy == SMTPS
    ensures SettingValue(r, QuitWait) == Some("false")
    ensures SettingValue(r, StartTlsEnable) == None && SettingValue(r, StartTlsRequired) == None
    ensures SettingValue(r, SslTrust) == None && SettingValue(r, SslCheckServerIdentity) == None
    ensures SettingValue(r, SocksHost) == None && SettingValue(r, SocksPort) == None
  {
  }

  /** The SOCKS settings, before they become session properties. */
  lemma SocksValues(r: ServerSettings)
    ensures SettingValue(r, SocksHost).Some? <==> r.strategy != SMTPS && r.proxy.Some?
    ensures SettingValue(r, SocksPort).Some? <==> r.strategy != SMTPS && r.proxy.Some?
    ensures UsesBridge(r) ==>
      SettingValue(r, SocksHost) == Some(BridgeHost) && SettingValue(r, SocksPort) == Some(Decimal.NatToString(r.bridgePort))
    ensures r.strategy != SMTPS && r.proxy.Some? && !UsesBridge(r) ==>
      SettingValue(r, SocksHost) == Some(r.proxy.value.host)
      && SettingValue(r, SocksPort) == Some(Decimal.NatToString(r.proxy.value.port))
  {
  }

  /** The value of key `k` in the session, if it has one. */
  function Get(s: Session, k: string): Option<string> {
    if k in s.properties then Some(s.properties[k]) else None
  }

  /** The value the session has for setting `x` of the strategy in use. */
  function Value(r: ServerSettings, x: Setting): Option<string> {
    Get(SessionOf(r), KeyName(Key(r.strategy, x)))
  }

  /** Setting `x` of the strategy in use, unless an extra property is spelled like it. */
  predicate Free(r: ServerSettings, x: Setting) {
    KeyName(Key(r.strategy, x)) !in r.properties
  }

  /** A setting no extra property overrides has in the session exactly its computed value, or is absent. */
  lemma SettingKey(r: ServerSettings, x: Setting)
    requires Free(r, x)
    ensures Value(r, x) == SettingValue(r, x)
  {
    KeyNamesInjective();
    assert x in AllSettings;
  }

  /** The protocol key names the protocol of the strategy, unless an extra property replaces it. */
  lemma ProtocolKeyValue(r: ServerSettings)
    requires KeyName(TransportProtocol) !in r.properties
    ensures Get(SessionOf(r), "mail.transport.protocol") == Some(if r.strategy == SMTPS then "smtps" else "smtp")
  {
    KeyNamesInjective();
  }

  /** Host and port are always present, the port in decimal. */
  lemma ServerKeys(r: ServerSettings)
    requires Free(r, Host) && Free(r, Port)
    ensures Value(r, Host) == Some(r.host)
    ensures Value(r, Port) == Some(Decimal.NatToString(r.port))
    ensures Decimal.DigitsValue(Value(r, Port).value) == r.port
  {
    SettingKey(r, Host);
    SettingKey(r, Port);
    Decimal.DigitsValueOfNatToString(r.port);
  }

  /** The username and authentication keys are there exactly when a username with text is. */
  lemma AuthKeysIffUsername(r: ServerSettings)
    requires Free(r, Username) && Free(r, Auth)
    ensures Value(r, Username).Some? <==> HasText(r.username)
    ensures Value(r, Auth).Some? <==> HasText(r.username)
    ensures HasText(r.username) ==> Value(r, Username) == r.username && Value(r, Auth) == Some("true")
  {
    SettingKey(r, Username);
    SettingKey(r, Auth);
  }

  /**
   * The SOCKS keys are there exactly when a proxy is used outside SMTPS; they
   * name the local bridge when the proxy has credentials, the proxy otherwise.
   */
  lemma SocksKeys(r: ServerSettings)
    requires Free(r, SocksHost) && Free(r, SocksPort)
    ensures Value(r, SocksHost).Some? <==> r.strategy != SMTPS && r.proxy.Some?
    ensures Value(r, SocksPort).Some? <==> r.strategy != SMTPS && r.proxy.Some?
    ensures UsesBridge(r) ==>
      Value(r, SocksHost) == Some(BridgeHost) && Value(r, SocksPort) == Some(Decimal.NatToString(r.bridgePort))
    ensures r.strategy != SMTPS && r.proxy.Some? && !UsesBridge(r) ==>
      Value(r, SocksHost) == Some(r.proxy.value.host)
      && Value(r, SocksPort) == Some(Decimal.NatToString(r.proxy.value.port))
  {
    SocksValues(r);
    SettingKey(r, SocksHost);
    SettingKey(r, SocksPort);
  }

  /** Through the bridge, the SOCKS port is the bridge port, not the proxy's own port. */
  lemma BridgeHidesProxyPort(r: ServerSettings)
    requires UsesBridge(r) && r.bridgePort != r.proxy.value.port
    requires Free(r, SocksHost) && Free(r, SocksPort)
    ensures Value(r, SocksPort) != Some(Decimal.NatToString(r.proxy.value.port))
  {
    SocksKeys(r);
    Decimal.NatToStringInjective(r.bridgePort, r.proxy.value.port);
  }

  /** The TLS keys no extra property overrides. */
  predicate TlsKeysFree(r: ServerSettings) {
    Free(r, StartTlsEnable) && Free(r, StartTlsRequired) && Free(r, SslTrust)
    && Free(r, SslCheckServerIdentity) && Free(r, QuitWait)
  }

  /** SMTP with opportunistic TLS: upgrade if offered, trust any certificate, no identity check. */
  lemma OpportunisticTlsKeys(r: ServerSettings)
    requires r.strategy == SMTP && r.opportunisticTls && TlsKeysFree(r)
    ensures Value(r, StartTlsEnable) == Some("true")
    ensures Value(r, StartTlsRequired) == Some("false")
    ensures Value(r, SslTrust) == Some("*")
    ensures Value(r, SslCheckServerIdentity) == Some("false")
    ensures Value(r, QuitWait) == None
  {
    OpportunisticTlsValues(r);
    SettingKey(r, StartTlsEnable);
    SettingKey(r, StartTlsRequired);
    SettingKey(r, SslTrust);
    SettingKey(r, SslCheckServerIdentity);
    SettingKey(r, QuitWait);
  }

  /** SMTP without opportunistic TLS: no TLS key at all. */
  lemma PlainSmtpHasNoTlsKeys(r: ServerSettings)
    requires r.strategy == SMTP && !r.opportunisticTls && TlsKeysFree(r)
    ensures Value(r, StartTlsEnable) == None && Value(r, StartTlsRequired) == None
    ensures Value(r, SslTrust) == None && Value(r, SslCheckServerIdentity) == None
    ensures Value(r, QuitWait) == None
  {
    PlainSmtpValues(r);
    SettingKey(r, StartTlsEnable);
    SettingKey(r, StartTlsRequired);
    SettingKey(r, SslTrust);
    SettingKey(r, SslCheckServerIdentity);
    SettingKey(r, QuitWait);
  }

  /** SMTP_TLS: the upgrade is enabled, required and verified, whatever opportunistic TLS says. */
  lemma MandatoryTlsKeys(r: ServerSettings)
    requires r.strategy == SMTP_TLS && TlsKeysFree(r)
    ensures Value(r, StartTlsEnable) == Some("true")
    ensures Value(r, StartTlsRequired) == Some("true")
    ensures Value(r, SslCheckServerIdentity) == Some("true")
    ensures Value(r, SslTrust) == None && Value(r, QuitWait) == None
  {
    MandatoryTlsValues(r);
    SettingKey(r, StartTlsEnable);
    SettingKey(r, StartTlsRequired);
    SettingKey(r, SslCheckServerIdentity);
    SettingKey(r, SslTrust);
    SettingKey(r, QuitWait);
  }

  /** SMTPS: no STARTTLS keys, no SOCKS keys, and no wait for the reply to QUIT. */
  lemma ImplicitTlsKeys(r: ServerSettings)
    requires r.strategy == SMTPS && TlsKeysFree(r)
    requires Free(r, SocksHost) && Free(r, SocksPort)
    ensures Value(r, QuitWait) == Some("false")
    ensures Value(r, StartTlsEnable) == None && Value(r, StartTlsRequired) == None
    ensures Value(r, SslTrust) == None && Value(r, SslCheckServerIdentity) == None
    ensures Value(r, SocksHost) == None && Value(r, SocksPort) == None
  {
    ImplicitTlsValues(r);
    SettingKey(r, QuitWait);
    SettingKey(r, StartTlsEnable);
    SettingKey(r, StartTlsRequired);
    SettingKey(r, SslTrust);
    SettingKey(r, SslCheckServerIdentity);
    SettingKey(r, SocksHost);
    SettingKey(r, SocksPort);
  }

  /** An extra property appears verbatim, whatever the computed value of its key. */
  lemma ExtraPropertiesWin(r: ServerSettings, k: string)
    requires k in r.properties
    ensures Get(SessionOf(r), k) == Some(r.properties[k])
  {
  }

  /**
   * Every property is an extra one, the protocol key, or a key of the
   * protocol in use: an SMTPS session has no "mail.smtp." key and the other way round.
   */
  lemma OnlyStrategyKeys(r: ServerSettings, k: string)
    requires Get(SessionOf(r), k).Some? && k !in r.properties
    ensures k == KeyName(TransportProtocol) || exists x :: k == KeyName(Key(r.strategy, x))
  {
  }
}
