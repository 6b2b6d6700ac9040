/**
 * The settings a mailer is built from, in three layers: what the mailer
 * builder was told explicitly, what the loaded configuration holds, and the
 * compiled defaults. An explicit value (or an explicit `null`) wins over the
 * configuration, which wins over the default.
 */
module MailerConfig {
  import opened Wrappers
  import opened Transport

  /** A builder field: never touched, set to a value, or set to `null`/cleared. */
  datatype Explicit<T> = Unset | SetTo(value: T) | Cleared

  /** A Java argument that may be `null`, as a builder field. */
  function Given<T>(o: Option<T>): Explicit<T> {
    if o.Some? then SetTo(o.value) else Cleared
  }

  /** The properties the configuration loader recognises; each may be missing. */
  datatype LoadedConfig = LoadedConfig(
    debug: Option<bool>,
    transportStrategy: Option<TransportStrategy>,
    smtpHost: Option<string>,
    smtpPort: Option<nat>,
    smtpUsername: Option<string>,
    smtpPassword: Option<string>,
    proxyHost: Option<string>,
    proxyPort: Option<nat>,
    proxyUsername: Option<string>,
    proxyPassword: Option<string>,
    proxyBridgePort: Option<nat>,
    opportunisticTls: Option<bool>)

  const NoConfig := LoadedConfig(None, None, None, None, None, None, None, None, None, None, None, None)

  /**
   * The process-wide opportunistic-TLS switch of each strategy, for the
   * strategies on which it was set.
   */
  type StrategySwitches = map<TransportStrategy, bool>

  /** The state of a mailer builder. */
  datatype MailerSettings = MailerSettings(
    host: Explicit<string>,
    port: Explicit<nat>,
    username: Explicit<string>,
    password: Explicit<string>,
    strategy: Explicit<TransportStrategy>,
    debug: Explicit<bool>,
    proxyHost: Explicit<string>,
    proxyPort: Explicit<nat>,
    proxyUsername: Explicit<string>,
    proxyPassword: Explicit<string>,
    bridgePort: Explicit<nat>,
    properties: map<string, string>)

  /** A builder nothing was called on yet. */
  const NewBuilder := MailerSettings(Unset, Unset, Unset, Unset, Unset, Unset,
                                     Unset, Unset, Unset, Unset, Unset, map[])

  /** `withSMTPServer(host, port, username, password)`: all four are set, `null` included. */
  function WithSMTPServer(b: MailerSettings, host: Option<string>, port: Option<nat>,
                          username: Option<string>, password: Option<string>): (r: MailerSettings)
    ensures forall c, switches :: Resolve(r, c, switches).Success? <==> host.Some? && port.Some?
    ensures forall c, switches :: Resolve(r, c, switches).Success? ==>
      var s := Resolve(r, c, switches).value;
      s.host == host.value && s.port == port.value && s.username == username && s.password == password
  {
    b.(host := Given(host), port := Given(port), username := Given(username), password := Given(password))
  }

  /** `withSMTPServer(host, port)`: the credentials are left as they were. */
  function WithSMTPServerHostPort(b: MailerSettings, host: Option<string>, port: Option<nat>): (r: MailerSettings)
    ensures r.username == b.username && r.password == b.password
    ensures forall c, switches :: Resolve(r, c, switches).Success? <==> host.Some? && port.Some?
    ensures forall c, switches :: Resolve(r, c, switches).Success? ==>
      var s := Resolve(r, c, switches).value;
      && s.host == host.value && s.port == port.value
      && s.username == Layered(b.username, c.smtpUsername) && s.password == Layered(b.password, c.smtpPassword)
  {
    b.(host := Given(host), port := Given(port))
  }

  /** `withTransportStrategy(s)`: the strategy wins over any configuration. */
  function WithTransportStrategy(b: MailerSettings, s: TransportStrategy): (r: MailerSettings)
    ensures forall c, switches :: Resolve(r, c, switches).Success? <==> Resolve(b, c, switches).Success?
    ensures forall c, switches :: Resolve(r, c, switches).Success? ==> Resolve(r, c, switches).value.strategy == s
  {
    b.(strategy := SetTo(s))
  }

  /** `withDebugLogging(on)`: the flag wins over any configuration. */
  function WithDebugLogging(b: MailerSettings, on: bool): (r: MailerSettings)
    ensures forall c, switches :: Resolve(r, c, switches).Success? <==> Resolve(b, c, switches).Success?
    ensures forall c, switches :: Resolve(r, c, switches).Success? ==> Resolve(r, c, switches).value.debug == on
  {
    b.(debug := SetTo(on))
  }

  /** `withProxy(host, port)`: the proxy credentials are left as they were. */
  function WithProxy(b: MailerSettings, host: Option<string>, port: Option<nat>): (r: MailerSettings)
    ensures r.proxyUsername == b.proxyUsername && r.proxyPassword == b.proxyPassword
    ensures forall c, switches :: Resolve(r, c, switches).Success? <==> Resolve(b, c, switches).Success?
    ensures forall c, switches :: Resolve(r, c, switches).Success? ==>
      Resolve(r, c, switches).value.proxy
        == if host.Some? && port.Some? then
             Some(ProxySettings(host.value, port.value,
                                Layered(b.proxyUsername, c.proxyUsername), Layered(b.proxyPassword, c.proxyPassword)))
           else None
  {
    b.(proxyHost := Given(host), proxyPort := Given(port))
  }

  /** `withProxy(host, port, username, password)`. */
  function WithAuthenticatedProxy(b: MailerSettings, host: Option<string>, port: Option<nat>,
                                  username: Option<string>, password: Option<string>): (r: MailerSettings)
    ensures forall c, switches :: Resolve(r, c, switches).Success? <==> Resolve(b, c, switches).Success?
    ensures forall c, switches :: Resolve(r, c, switches).Success? ==>
      Resolve(r, c, switches).value.proxy
        == if host.Some? && port.Some? then Some(ProxySettings(host.value, port.value, username, password)) else None
  {
    b.(proxyHost := Given(host), proxyPort := Given(port),
       proxyUsername := Given(username), proxyPassword := Given(password))
  }

  /** `withProxyBridgePort(port)`: the port wins over any configuration. */
  function WithProxyBridgePort(b: MailerSettings, port: nat): (r: MailerSettings)
    ensures forall c, switches :: Resolve(r, c, switches).Success? <==> Resolve(b, c, switches).Success?
    ensures forall c, switches :: Resolve(r, c, switches).Success? ==> Resolve(r, c, switches).value.bridgePort == port
  {
    b.(bridgePort := SetTo(port))
  }

  /** `clearProxy()`: host, port and credentials of the proxy are cleared. */
  function ClearProxy(b: MailerSettings): (r: MailerSettings)
    ensures forall c, switches :: Resolve(r, c, switches).Success? ==> Resolve(r, c, switches).value.proxy.None?
  {
    b.(proxyHost := Cleared, proxyPort := Cleared, proxyUsername := Cleared, proxyPassword := Cleared)
  }

  /** `withProperty(key, value)`: a later value for the same key replaces an earlier one. */
  function WithProperty(b: MailerSettings, key: string, value: string): (r: MailerSettings)
    ensures key in r.properties && r.properties[key] == value
    ensures r.properties.Keys == b.properties.Keys + {key}
  {
    b.(properties := b.properties[key := value])
  }

  const DefaultStrategy := SMTP
  const DefaultDebug := false
  const DefaultOpportunisticTls := true
  const DefaultBridgePort: nat := 1080

  /** One field: the explicit value or `null`, else the loaded value. */
  function Layered<T>(e: Explicit<T>, loaded: Option<T>): Option<T> {
    match e
    case SetTo(v) => Some(v)
    case Cleared => None
    case Unset => loaded
  }

  datatype ProxySettings = ProxySettings(host: string, port: nat, username: Option<string>, password: Option<string>)

  /** Everything a session is created from. */
  datatype ServerSettings = ServerSettings(
    strategy: TransportStrategy,
    host: string,
    port: nat,
    username: Option<string>,
    password: Option<string>,
    proxy: Option<ProxySettings>,
    bridgePort: nat,
    opportunisticTls: bool,
    debug: bool,
    properties: map<string, string>)

  datatype Error = MissingHost | MissingPort

  function ResolvedStrategy(b: MailerSettings, c: LoadedConfig): TransportStrategy {
    Layered(b.strategy, c.transportStrategy).GetOr(DefaultStrategy)
  }

  /** A switch set on the strategy itself, else the loaded configuration, else on. */
  function ResolvedOpportunisticTls(s: TransportStrategy, c: LoadedConfig, switches: StrategySwitches): bool {
    if s in switches then switches[s] else c.opportunisticTls.GetOr(DefaultOpportunisticTls)
  }

  /** A proxy is used when both its host and its port are known. */
  function ResolvedProxy(b: MailerSettings, c: LoadedConfig): Option<ProxySettings> {
    var host := Layered(b.proxyHost, c.proxyHost);
    var port := Layered(b.proxyPort, c.proxyPort);
    if host.Some? && port.Some? then
      Some(ProxySettings(host.value, port.value,
                         Layered(b.proxyUsername, c.proxyUsername),
                         Layered(b.proxyPassword, c.proxyPassword)))
    else None
  }

  /** The settings of `buildMailer()`: every field layered, a missing server refused. */
  function Resolve(b: MailerSettings, c: LoadedConfig, switches: StrategySwitches): (r: Result<ServerSettings, Error>)
    ensures r.Success? <==> Layered(b.host, c.smtpHost).Some? && Layered(b.port, c.smtpPort).Some?
    ensures Layered(b.host, c.smtpHost).None? ==> r == Failure(MissingHost)
    ensures r.Success? ==> r.value.properties == b.properties
    ensures r.Success? ==>
      (r.value.proxy.Some? <==> Layered(b.proxyHost, c.proxyHost).Some? && Layered(b.proxyPort, c.proxyPort).Some?)
  {
    var host := Layered(b.host, c.smtpHost);
    var port := Layered(b.port, c.smtpPort);
    if host.None? then Failure(MissingHost)
    else if port.None? then Failure(MissingPort)
    else
      var s := ResolvedStrategy(b, c);
      Success(ServerSettings(
        s, host.value, port.value,
        Layered(b.username, c.smtpUsername),
        Layered(b.password, c.smtpPassword),
        ResolvedProxy(b, c),
        Layered(b.bridgePort, c.proxyBridgePort).GetOr(DefaultBridgePort),
        ResolvedOpportunisticTls(s, c, switches),
        Layered(b.debug, c.debug).GetOr(DefaultDebug),
        b.properties))
  }

  /** A field set explicitly, to a value or to `null`, takes nothing from the configuration. */
  lemma ExplicitFieldsWin(b: MailerSettings, c: LoadedConfig, switches: StrategySwitches)
    ensures b.host.SetTo? && b.port.SetTo? ==> Resolve(b, c, switches).Success?
    ensures Resolve(b, c, switches).Success? ==>
      var r := Resolve(b, c, switches).value;
      && (b.host.SetTo? ==> r.host == b.host.value) && (b.port.SetTo? ==> r.port == b.port.value)
      && (b.username.SetTo? ==> r.username == Some(b.username.value))
      && (b.username.Cleared? ==> r.username.None?)
      && (b.password.SetTo? ==> r.password == Some(b.password.value))
      && (b.password.Cleared? ==> r.password.None?)
      && (b.strategy.SetTo? ==> r.strategy == b.strategy.value)
      && (b.strategy.Cleared? ==> r.strategy == SMTP)
      && (b.debug.SetTo? ==> r.debug == b.debug.value)
      && (b.debug.Cleared? ==> !r.debug)
      && (b.bridgePort.SetTo? ==> r.bridgePort == b.bridgePort.value)
      && (b.bridgePort.Cleared? ==> r.bridgePort == 1080)
      && (b.proxyHost.Cleared? || b.proxyPort.Cleared? ==> r.proxy.None?)
      && (b.proxyHost.SetTo? && b.proxyPort.SetTo? ==>
            r.proxy.Some? && r.proxy.value.host == b.proxyHost.value && r.proxy.value.port == b.proxyPort.value)
      && (r.proxy.Some? && b.proxyUsername.SetTo? ==> r.proxy.value.username == Some(b.proxyUsername.value))
      && (r.proxy.Some? && b.proxyUsername.Cleared? ==> r.proxy.value.username.None?)
      && (r.proxy.Some? && b.proxyPassword.SetTo? ==> r.proxy.value.password == Some(b.proxyPassword.value))
      && (r.proxy.Some? && b.proxyPassword.Cleared? ==> r.proxy.value.password.None?)
      && r.properties == b.properties
  {
  }

  /** A field the builder was never told about takes the configuration's value, else the default. */
  lemma UnsetFieldsFallBack(b: MailerSettings, c: LoadedConfig, switches: StrategySwitches)
    requires Resolve(b, c, switches).Success?
    ensures var r := Resolve(b, c, switches).value;
      && (b.host.Unset? ==> c.smtpHost == Some(r.host))
      && (b.port.Unset? ==> c.smtpPort == Some(r.port))
      && (b.username.Unset? ==> r.username == c.smtpUsername)
      && (b.password.Unset? ==> r.password == c.smtpPassword)
      && (b.strategy.Unset? ==> r.strategy == c.transportStrategy.GetOr(SMTP))
      && (b.debug.Unset? ==> r.debug == c.debug.GetOr(false))
      && (b.bridgePort.Unset? ==> r.bridgePort == c.proxyBridgePort.GetOr(1080))
      && (b.proxyHost.Unset? && b.proxyPort.Unset? ==> (r.proxy.Some? <==> c.proxyHost.Some? && c.proxyPort.Some?))
      && (r.proxy.Some? && b.proxyHost.Unset? ==> c.proxyHost == Some(r.proxy.value.host))
      && (r.proxy.Some? && b.proxyPort.Unset? ==> c.proxyPort == Some(r.proxy.value.port))
      && (r.proxy.Some? && b.proxyUsername.Unset? ==> r.proxy.value.username == c.proxyUsername)
      && (r.proxy.Some? && b.proxyPassword.Unset? ==> r.proxy.value.password == c.proxyPassword)
  {
  }

  /** With every field explicit, two configurations that agree on opportunistic TLS give the same settings. */
  lemma FullyExplicitIgnoresConfig(b: MailerSettings, c1: LoadedConfig, c2: LoadedConfig, switches: StrategySwitches)
    requires !b.host.Unset? && !b.port.Unset? && !b.username.Unset? && !b.password.Unset?
    requires !b.strategy.Unset? && !b.debug.Unset? && !b.bridgePort.Unset?
    requires !b.proxyHost.Unset? && !b.proxyPort.Unset? && !b.proxyUsername.Unset? && !b.proxyPassword.Unset?
    requires c1.opportunisticTls == c2.opportunisticTls
    ensures Resolve(b, c1, switches) == Resolve(b, c2, switches)
  {
  }

  /** A builder nothing was called on takes every field from the configuration, else the default. */
  lemma NewBuilderTakesConfig(c: LoadedConfig, switches: StrategySwitches)
    requires c.smtpHost.Some? && c.smtpPort.Some?
    ensures Resolve(NewBuilder, c, switches).Success?
    ensures var r := Resolve(NewBuilder, c, switches).value;
      && r.strategy == c.transportStrategy.GetOr(SMTP)
      && r.host == c.smtpHost.value && r.port == c.smtpPort.value
      && r.username == c.smtpUsername && r.password == c.smtpPassword
      && (r.proxy.Some? <==> c.proxyHost.Some? && c.proxyPort.Some?)
      && (r.proxy.Some? ==> r.proxy.value == ProxySettings(c.proxyHost.value, c.proxyPort.value, c.proxyUsername, c.proxyPassword))
      && r.bridgePort == c.proxyBridgePort.GetOr(1080)
      && r.debug == c.debug.GetOr(false)
      && r.properties == map[]
  {
  }

  /**
   * Opportunistic TLS: a switch set on the strategy beats the configuration,
   * which beats the default of on.
   */
  lemma OpportunisticTlsPrecedence(b: MailerSettings, c: LoadedConfig, switches: StrategySwitches)
    requires Resolve(b, c, switches).Success?
    ensures var r := Resolve(b, c, switches).value;
      && (r.strategy in switches ==> r.opportunisticTls == switches[r.strategy])
      && (r.strategy !in switches && c.opportunisticTls.Some? ==> r.opportunisticTls == c.opportunisticTls.value)
      && (r.strategy !in switches && c.opportunisticTls.None? ==> r.opportunisticTls)
  {
  }

  /** `clearProxy()` removes the proxy whatever the configuration holds, and changes nothing else. */
  lemma ClearProxyRemovesProxy(b: MailerSettings, c: LoadedConfig, switches: StrategySwitches)
    ensures Resolve(ClearProxy(b), c, switches).Success? <==> Resolve(b, c, switches).Success?
    ensures Resolve(b, c, switches).Success? ==>
      Resolve(ClearProxy(b), c, switches).value == Resolve(b, c, switches).value.(proxy := None)
  {
  }

  /** `withProxy(host, port)` on a builder without proxy credentials uses those of the configuration. */
  lemma ProxyCredentialsFromConfig(b: MailerSettings, c: LoadedConfig, switches: StrategySwitches,
                                   host: string, port: nat)
    requires b.proxyUsername.Unset? && b.proxyPassword.Unset?
    requires Resolve(b, c, switches).Success?
    ensures Resolve(WithProxy(b, Some(host), Some(port)), c, switches).Success?
    ensures Resolve(WithProxy(b, Some(host), Some(port)), c, switches).value.proxy
         == Some(ProxySettings(host, port, c.proxyUsername, c.proxyPassword))
  {
  }

  /** Without configuration, `withSMTPServer(host, port)` is `withSMTPServer(host, port, null, null)`. */
  lemma ShortServerFormWithoutConfig(host: string, port: nat, switches: StrategySwitches)
    ensures Resolve(WithSMTPServerHostPort(NewBuilder, Some(host), Some(port)), NoConfig, switches)
         == Resolve(WithSMTPServer(NewBuilder, Some(host), Some(port), None, None), NoConfig, switches)
  {
  }

  /** `withProperty` keeps the last value given for a key and leaves other keys alone. */
  lemma WithPropertyLastWins(b: MailerSettings, key: string, v1: string, v2: string, other: string)
    requires other != key
    ensures WithProperty(WithProperty(b, key, v1), key, v2).properties[key] == v2
    ensures other in b.properties ==> WithProperty(b, key, v1).properties[other] == b.properties[other]
    ensures other !in b.properties ==> other !in WithProperty(b, key, v1).properties
  {
  }
}
