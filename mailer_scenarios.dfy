/**
 * The sessions of the mailer test class, derived from the model: each lemma
 * builds the mailer the test builds, against the configuration it loads, and
 * states every property the test asserts, under the key the session spells.
 */
module MailerScenarios {
  import opened Wrappers
  import opened Transport
  import opened MailerConfig
  import opened SessionMapping
  import Decimal

  /** The configuration loaded before every test. */
  const TestConfig := LoadedConfig(
    debug := Some(true),
    transportStrategy := Some(SMTP_TLS),
    smtpHost := Some("smtp.default.com"),
    smtpPort := Some(25),
    smtpUsername := Some("username smtp"),
    smtpPassword := Some("password smtp"),
    proxyHost := Some("proxy.default.com"),
    proxyPort := Some(1080),
    proxyUsername := Some("username proxy"),
    proxyPassword := Some("password proxy"),
    proxyBridgePort := Some(1081),
    opportunisticTls := None)

  /** The test configuration with opportunistic TLS turned off on top. */
  const NoOpportunisticTlsConfig := TestConfig.(opportunisticTls := Some(false))

  /** The builder of `createFullyConfiguredMailer(authenticateProxy, prefix, strategy)`, before `buildMailer()`. */
  function FullyConfigured(authenticateProxy: bool, prefix: string, s: TransportStrategy): (b: MailerSettings)
    ensures b.properties == map["extra1" := prefix + "value1", "extra2" := prefix + "value2"]
    ensures forall c, switches :: Resolve(b, c, switches).Success?
    ensures forall c, switches ::
      var r := Resolve(b, c, switches).value;
      && r.host == prefix + "smtp host" && r.port == 25
      && r.username == Some(prefix + "username smtp") && r.password == Some(prefix + "password smtp")
      && r.strategy == s && r.debug
    ensures forall c, switches :: s == SMTPS ==> Resolve(b, c, switches).value.proxy.None?
    ensures forall c, switches :: s == SMTP_TLS && authenticateProxy ==>
      var r := Resolve(b, c, switches).value;
      && r.proxy == Some(ProxySettings(prefix + "proxy host", 1080, Some(prefix + "username proxy"), Some(prefix + "password proxy")))
      && r.bridgePort == 999
    ensures forall c, switches :: s == SMTP_TLS && !authenticateProxy ==>
      Resolve(b, c, switches).value.proxy
        == Some(ProxySettings(prefix + "proxy host", 1080, c.proxyUsername, c.proxyPassword))
  {
    var server := WithDebugLogging(WithTransportStrategy(
      WithSMTPServer(NewBuilder, Some(prefix + "smtp host"), Some(25),
                     Some(prefix + "username smtp"), Some(prefix + "password smtp")), s), true);
    var proxied :=
      if s == SMTP_TLS then
        if authenticateProxy then
          WithProxyBridgePort(WithAuthenticatedProxy(server, Some(prefix + "proxy host"), Some(1080),
                                                     Some(prefix + "username proxy"), Some(prefix + "password proxy")), 999)
        else WithProxy(server, Some(prefix + "proxy host"), Some(1080))
      else if s == SMTPS then ClearProxy(server)
      else server;
    WithProperty(WithProperty(proxied, "extra1", prefix + "value1"), "extra2", prefix + "value2")
  }

  /** The spelling of the server keys of SMTP and SMTP_TLS. */
  lemma SmtpServerKeySpellings()
    ensures KeyName(Key(SMTP, Host)) == "mail.smtp." + "host" && KeyName(Key(SMTP, Port)) == "mail.smtp." + "port"
    ensures KeyName(Key(SMTP, Username)) == "mail.smtp." + "username" && KeyName(Key(SMTP, Auth)) == "mail.smtp." + "auth"
  {
  }

  /** The spelling of the keys of SMTPS. */
  lemma SmtpsKeySpellings()
    ensures KeyName(Key(SMTPS, Host)) == "mail.smtps." + "host" && KeyName(Key(SMTPS, Port)) == "mail.smtps." + "port"
    ensures KeyName(Key(SMTPS, Username)) == "mail.smtps." + "username" && KeyName(Key(SMTPS, Auth)) == "mail.smtps." + "auth"
    ensures KeyName(Key(SMTPS, QuitWait)) == "mail.smtps." + "quitwait"
  {
  }

  /** The spelling of the STARTTLS keys. */
  lemma StartTlsKeySpellings()
    ensures KeyName(Key(SMTP, StartTlsEnable)) == "mail.smtp." + "starttls.enable"
    ensures KeyName(Key(SMTP, StartTlsRequired)) == "mail.smtp." + "starttls.required"
  {
  }

  /** The spelling of the key that says which certificates to trust. */
  lemma TrustKeySpelling()
    ensures KeyName(Key(SMTP, SslTrust)) == "mail.smtp." + "ssl.trust"
  {
  }

  /** The spelling of the key that turns the server identity check on or off. */
  lemma IdentityCheckKeySpelling()
    ensures KeyName(Key(SMTP, SslCheckServerIdentity)) == "mail.smtp." + "ssl.checkserveridentity"
  {
  }

  /** The spelling of the SOCKS keys. */
  lemma SocksKeySpellings()
    ensures KeyName(Key(SMTP, SocksHost)) == "mail.smtp." + "socks.host"
    ensures KeyName(Key(SMTP, SocksPort)) == "mail.smtp." + "socks.port"
  {
  }

  /** The ports of the tests, as the session writes them. */
  lemma PortTexts()
    ensures Decimal.NatToString(25) == "25" && Decimal.NatToString(999) == "999"
    ensures Decimal.NatToString(1080) == "1080" && Decimal.NatToString(1081) == "1081"
  {
  }


  /** Every key of the session starts with "mail.". */
  lemma KeyNameInitial(k: PropertyKey)
    ensures |KeyName(k)| > 5 && KeyName(k)[..5] == "mail."
  {
  }

  /** Extra properties whose keys do not start with 'm' leave every setting free. */
  lemma ExtrasFree(r: ServerSettings)
    requires forall k :: k in r.properties ==> k == [] || k[0] != 'm'
    ensures forall x :: Free(r, x)
  {
    forall x
      ensures Free(r, x)
    {
      KeyNameInitial(Key(r.strategy, x));
    }
  }

  /** The protocol key and the two extra properties of `createFullyConfiguredMailer`. */
  lemma ProtocolAndExtras(r: ServerSettings, prefix: string)
    requires r.properties == map["extra1" := prefix + "value1", "extra2" := prefix + "value2"]
    ensures Get(SessionOf(r), "mail.transport.protocol") == Some(if r.strategy == SMTPS then "smtps" else "smtp")
    ensures Get(SessionOf(r), "extra1") == Some(prefix + "value1")
    ensures Get(SessionOf(r), "extra2") == Some(prefix + "value2")
  {
    ProtocolKeyValue(r);
    ExtraPropertiesWin(r, "extra1");
    ExtraPropertiesWin(r, "extra2");
  }

  // Lines 48-76: `withSMTPServer(host, 25, null, null)` without configuration; the test's host is "host".

  function MinimalWithoutConfigSettings(host: string, switches: StrategySwitches): ServerSettings {
    ServerSettings(SMTP, host, 25, None, None, None, 1080,
                   ResolvedOpportunisticTls(SMTP, NoConfig, switches), false, map[])
  }

  lemma MinimalWithoutConfigResolves(host: string, switches: StrategySwitches)
    ensures Resolve(WithSMTPServer(NewBuilder, Some(host), Some(25), None, None), NoConfig, switches)
         == Success(MinimalWithoutConfigSettings(host, switches))
  {
  }

  lemma MinimalWithoutConfigAccount(r: ServerSettings, host: string, switches: StrategySwitches)
    requires r == MinimalWithoutConfigSettings(host, switches)
    ensures Value(r, Host) == Some(host) && Value(r, Port) == Some("25")
    ensures Value(r, Username) == None && Value(r, Auth) == None
  {
    PortTexts();
    ServerKeys(r);
    AuthKeysIffUsername(r);
  }

  lemma MinimalWithoutConfigTransport(r: ServerSettings, host: string, switches: StrategySwitches)
    requires r == MinimalWithoutConfigSettings(host, switches)
    requires SMTP in switches ==> switches[SMTP]
    ensures Value(r, StartTlsEnable) == Some("true") && Value(r, StartTlsRequired) == Some("false")
    ensures Value(r, SslTrust) == Some("*") && Value(r, SslCheckServerIdentity) == Some("false")
    ensures Value(r, SocksHost) == None && Value(r, SocksPort) == None
  {
    OpportunisticTlsKeys(r);
    SocksKeys(r);
  }

  /**
   * The minimal mailer without configuration, on a process where SMTP's
   * opportunistic TLS was not switched off: no debugging, opportunistic TLS,
   * no authentication, no proxy.
   */
  lemma MinimalConstructorWithoutConfig(host: string, switches: StrategySwitches)
    requires SMTP in switches ==> switches[SMTP]
    ensures BuildSession(WithSMTPServer(NewBuilder, Some(host), Some(25), None, None), NoConfig, switches).Success?
    ensures var r := Resolve(WithSMTPServer(NewBuilder, Some(host), Some(25), None, None), NoConfig, switches).value;
      && !SessionOf(r).debug
      && Get(SessionOf(r), "mail.transport.protocol") == Some("smtp")
      && Value(r, Host) == Some(host) && Value(r, Port) == Some("25")
      && Value(r, StartTlsEnable) == Some("true") && Value(r, StartTlsRequired) == Some("false")
      && Value(r, SslTrust) == Some("*") && Value(r, SslCheckServerIdentity) == Some("false")
      && Value(r, Username) == None && Value(r, Auth) == None
      && Value(r, SocksHost) == None && Value(r, SocksPort) == None
  {
    var r := MinimalWithoutConfigSettings(host, switches);
    MinimalWithoutConfigResolves(host, switches);
    assert Resolve(WithSMTPServer(NewBuilder, Some(host), Some(25), None, None), NoConfig, switches).value == r;
    MinimalWithoutConfigAccount(r, host, switches);
    MinimalWithoutConfigTransport(r, host, switches);
    ProtocolKeyValue(r);
  }

  /** `withSMTPServer("host", 25)` gives the same session without configuration. */
  lemma MinimalConstructorAlternative(switches: StrategySwitches)
    ensures BuildSession(WithSMTPServerHostPort(NewBuilder, Some("host"), Some(25)), NoConfig, switches)
         == BuildSession(WithSMTPServer(NewBuilder, Some("host"), Some(25), None, None), NoConfig, switches)
  {
    ShortServerFormWithoutConfig("host", 25, switches);
  }

  // Lines 79-102: SMTP_TLS through a proxy without credentials, without configuration.

  function AnonymousProxySettings(prefix: string, switches: StrategySwitches): ServerSettings {
    ServerSettings(SMTP_TLS, prefix + "smtp host", 25, Some(prefix + "username smtp"), Some(prefix + "password smtp"),
                   Some(ProxySettings(prefix + "proxy host", 1080, None, None)), 1080,
                   ResolvedOpportunisticTls(SMTP_TLS, NoConfig, switches), true,
                   map["extra1" := prefix + "value1", "extra2" := prefix + "value2"])
  }

  lemma AnonymousProxyResolves(prefix: string, switches: StrategySwitches)
    ensures Resolve(FullyConfigured(false, prefix, SMTP_TLS), NoConfig, switches)
         == Success(AnonymousProxySettings(prefix, switches))
  {
  }

  lemma AnonymousProxyAccount(r: ServerSettings, prefix: string, switches: StrategySwitches)
    requires r == AnonymousProxySettings(prefix, switches)
    ensures Value(r, Host) == Some(prefix + "smtp host") && Value(r, Port) == Some("25")
    ensures Value(r, Username) == Some(prefix + "username smtp") && Value(r, Auth) == Some("true")
  {
    ExtrasFree(r);
    PortTexts();
    ServerKeys(r);
    AuthKeysIffUsername(r);
  }

  lemma AnonymousProxyTransport(r: ServerSettings, prefix: string, switches: StrategySwitches)
    requires r == AnonymousProxySettings(prefix, switches)
    ensures Value(r, StartTlsEnable) == Some("true") && Value(r, StartTlsRequired) == Some("true")
    ensures Value(r, SslCheckServerIdentity) == Some("true")
    ensures Value(r, SocksHost) == Some(prefix + "proxy host") && Value(r, SocksPort) == Some("1080")
  {
    ExtrasFree(r);
    PortTexts();
    MandatoryTlsKeys(r);
    SocksKeys(r);
  }

  /** A proxy without credentials is handed to the transport as it is; the test uses the empty prefix. */
  lemma AnonymousProxyConstructorWithoutConfig(prefix: string, switches: StrategySwitches)
    ensures BuildSession(FullyConfigured(false, prefix, SMTP_TLS), NoConfig, switches).Success?
    ensures var r := Resolve(FullyConfigured(false, prefix, SMTP_TLS), NoConfig, switches).value;
      && SessionOf(r).debug
      && Get(SessionOf(r), "mail.transport.protocol") == Some("smtp")
      && Value(r, Host) == Some(prefix + "smtp host") && Value(r, Port) == Some("25")
      && Value(r, StartTlsEnable) == Some("true") && Value(r, StartTlsRequired) == Some("true")
      && Value(r, SslCheckServerIdentity) == Some("true")
      && Value(r, Username) == Some(prefix + "username smtp") && Value(r, Auth) == Some("true")
      && Value(r, SocksHost) == Some(prefix + "proxy host") && Value(r, SocksPort) == Some("1080")
      && Get(SessionOf(r), "extra1") == Some(prefix + "value1")
      && Get(SessionOf(r), "extra2") == Some(prefix + "value2")
  {
    var r := AnonymousProxySettings(prefix, switches);
    AnonymousProxyResolves(prefix, switches);
    assert Resolve(FullyConfigured(false, prefix, SMTP_TLS), NoConfig, switches).value == r;
    AnonymousProxyAccount(r, prefix, switches);
    AnonymousProxyTransport(r, prefix, switches);
    ProtocolAndExtras(r, prefix);
  }

  // Lines 105-127: SMTP_TLS through a proxy with credentials and bridge port 999, without configuration.

  function AuthenticatedProxySettings(prefix: string, switches: StrategySwitches): ServerSettings {
    ServerSettings(SMTP_TLS, prefix + "smtp host", 25, Some(prefix + "username smtp"), Some(prefix + "password smtp"),
                   Some(ProxySettings(prefix + "proxy host", 1080, Some(prefix + "username proxy"), Some(prefix + "password proxy"))),
                   999, ResolvedOpportunisticTls(SMTP_TLS, NoConfig, switches), true,
                   map["extra1" := prefix + "value1", "extra2" := prefix + "value2"])
  }

  lemma AuthenticatedProxyResolves(prefix: string, switches: StrategySwitches)
    ensures Resolve(FullyConfigured(true, prefix, SMTP_TLS), NoConfig, switches)
         == Success(AuthenticatedProxySettings(prefix, switches))
  {
  }

  lemma AuthenticatedProxyAccount(r: ServerSettings, prefix: string, switches: StrategySwitches)
    requires r == AuthenticatedProxySettings(prefix, switches)
    ensures Value(r, Host) == Some(prefix + "smtp host") && Value(r, Port) == Some("25")
    ensures Value(r, Username) == Some(prefix + "username smtp") && Value(r, Auth) == Some("true")
  {
    ExtrasFree(r);
    PortTexts();
    ServerKeys(r);
    AuthKeysIffUsername(r);
  }

  lemma AuthenticatedProxyTransport(r: ServerSettings, prefix: string, switches: StrategySwitches)
    requires r == AuthenticatedProxySettings(prefix, switches)
    ensures Value(r, StartTlsEnable) == Some("true") && Value(r, StartTlsRequired) == Some("true")
    ensures Value(r, SslCheckServerIdentity) == Some("true")
    ensures Value(r, SocksHost) == Some("localhost") && Value(r, SocksPort) == Some("999")
  {
    ExtrasFree(r);
    PortTexts();
    MandatoryTlsKeys(r);
    SocksKeys(r);
  }

  /**
   * A proxy with credentials is reached through the local bridge, on the
   * bridge port given; the test uses the empty prefix.
   */
  lemma MaximumConstructorWithoutConfig(prefix: string, switches: StrategySwitches)
    ensures BuildSession(FullyConfigured(true, prefix, SMTP_TLS), NoConfig, switches).Success?
    ensures var r := Resolve(FullyConfigured(true, prefix, SMTP_TLS), NoConfig, switches).value;
      && SessionOf(r).debug
      && Get(SessionOf(r), "mail.transport.protocol") == Some("smtp")
      && Value(r, Host) == Some(prefix + "smtp host") && Value(r, Port) == Some("25")
      && Value(r, StartTlsEnable) == Some("true") && Value(r, StartTlsRequired) == Some("true")
      && Value(r, SslCheckServerIdentity) == Some("true")
      && Value(r, Username) == Some(prefix + "username smtp") && Value(r, Auth) == Some("true")
      && Value(r, SocksHost) == Some("localhost") && Value(r, SocksPort) == Some("999")
      && Get(SessionOf(r), "extra1") == Some(prefix + "value1")
      && Get(SessionOf(r), "extra2") == Some(prefix + "value2")
  {
    var r := AuthenticatedProxySettings(prefix, switches);
    AuthenticatedProxyResolves(prefix, switches);
    assert Resolve(FullyConfigured(true, prefix, SMTP_TLS), NoConfig, switches).value == r;
    AuthenticatedProxyAccount(r, prefix, switches);
    AuthenticatedProxyTransport(r, prefix, switches);
    ProtocolAndExtras(r, prefix);
  }

  // Lines 130-146: a builder nothing was called on, against the test configuration.

  function ConfiguredSettings(c: LoadedConfig, s: TransportStrategy, switches: StrategySwitches): ServerSettings {
    ServerSettings(s, "smtp.default.com", 25, Some("username smtp"), Some("password smtp"),
                   Some(ProxySettings("proxy.default.com", 1080, Some("username proxy"), Some("password proxy"))),
                   1081, ResolvedOpportunisticTls(s, c, switches), true, map[])
  }

  lemma MinimalWithConfigResolves(c: LoadedConfig, switches: StrategySwitches)
    requires c == TestConfig
    ensures Resolve(NewBuilder, c, switches) == Success(ConfiguredSettings(c, SMTP_TLS, switches))
  {
  }

  /** Server and credentials from the configuration, under any strategy but SMTPS. */
  lemma ConfiguredAccount(r: ServerSettings, c: LoadedConfig, s: TransportStrategy, switches: StrategySwitches)
    requires r == ConfiguredSettings(c, s, switches) && s != SMTPS
    ensures Value(r, Host) == Some("smtp.default.com") && Value(r, Port) == Some("25")
    ensures Value(r, Username) == Some("username smtp") && Value(r, Auth) == Some("true")
    ensures Value(r, SocksHost) == Some("localhost") && Value(r, SocksPort) == Some("1081")
  {
    PortTexts();
    ServerKeys(r);
    AuthKeysIffUsername(r);
    SocksKeys(r);
  }

  /** Every value comes from the configuration: SMTP_TLS, credentials, and the proxy through the bridge. */
  lemma MinimalConstructorWithConfig(c: LoadedConfig, switches: StrategySwitches)
    requires c == TestConfig
    ensures BuildSession(NewBuilder, c, switches).Success?
    ensures var r := Resolve(NewBuilder, c, switches).value;
      && SessionOf(r).debug
      && Get(SessionOf(r), "mail.transport.protocol") == Some("smtp")
      && Value(r, Host) == Some("smtp.default.com") && Value(r, Port) == Some("25")
      && Value(r, StartTlsEnable) == Some("true") && Value(r, StartTlsRequired) == Some("true")
      && Value(r, SslCheckServerIdentity) == Some("true")
      && Value(r, Username) == Some("username smtp") && Value(r, Auth) == Some("true")
      && Value(r, SocksHost) == Some("localhost") && Value(r, SocksPort) == Some("1081")
  {
    var r := ConfiguredSettings(c, SMTP_TLS, switches);
    MinimalWithConfigResolves(c, switches);
    assert Resolve(NewBuilder, c, switches).value == r;
    ConfiguredAccount(r, c, SMTP_TLS, switches);
    MandatoryTlsKeys(r);
    ProtocolKeyValue(r);
  }

  // Lines 149-199: SMTP against the test configuration with opportunistic TLS turned off.

  lemma ConfiguredSmtpResolves(c: LoadedConfig, switches: StrategySwitches)
    requires c == NoOpportunisticTlsConfig
    ensures Resolve(WithTransportStrategy(NewBuilder, SMTP), c, switches) == Success(ConfiguredSettings(c, SMTP, switches))
  {
  }

  /** The configuration turns opportunistic TLS off, and no switch on SMTP turns it back on: no TLS key. */
  lemma MinimalConstructorWithConfigOpportunisticTls(c: LoadedConfig, switches: StrategySwitches)
    requires c == NoOpportunisticTlsConfig && SMTP !in switches
    ensures BuildSession(WithTransportStrategy(NewBuilder, SMTP), c, switches).Success?
    ensures var r := Resolve(WithTransportStrategy(NewBuilder, SMTP), c, switches).value;
      && SessionOf(r).debug
      && Get(SessionOf(r), "mail.transport.protocol") == Some("smtp")
      && Value(r, Host) == Some("smtp.default.com") && Value(r, Port) == Some("25")
      && Value(r, StartTlsEnable) == None && Value(r, StartTlsRequired) == None
      && Value(r, SslCheckServerIdentity) == None
      && Value(r, Username) == Some("username smtp") && Value(r, Auth) == Some("true")
      && Value(r, SocksHost) == Some("localhost") && Value(r, SocksPort) == Some("1081")
  {
    var r := ConfiguredSettings(c, SMTP, switches);
    ConfiguredSmtpResolves(c, switches);
    assert Resolve(WithTransportStrategy(NewBuilder, SMTP), c, switches).value == r;
    ConfiguredAccount(r, c, SMTP, switches);
    ProtocolKeyValue(r);
    PlainSmtpHasNoTlsKeys(r);
  }

  /**
   * Switching SMTP's opportunistic TLS on beats the configuration that turns
   * it off (the test is named after the configuration it overrides).
   */
  lemma MinimalConstructorWithConfigOpportunisticTlsManuallyDisabled(c: LoadedConfig, switches: StrategySwitches)
    requires c == NoOpportunisticTlsConfig && SMTP in switches && switches[SMTP]
    ensures BuildSession(WithTransportStrategy(NewBuilder, SMTP), c, switches).Success?
    ensures var r := Resolve(WithTransportStrategy(NewBuilder, SMTP), c, switches).value;
      && SessionOf(r).debug
      && Get(SessionOf(r), "mail.transport.protocol") == Some("smtp")
      && Value(r, Host) == Some("smtp.default.com") && Value(r, Port) == Some("25")
      && Value(r, StartTlsEnable) == Some("true") && Value(r, StartTlsRequired) == Some("false")
      && Value(r, SslTrust) == Some("*") && Value(r, SslCheckServerIdentity) == Some("false")
      && Value(r, Username) == Some("username smtp") && Value(r, Auth) == Some("true")
      && Value(r, SocksHost) == Some("localhost") && Value(r, SocksPort) == Some("1081")
  {
    var r := ConfiguredSettings(c, SMTP, switches);
    ConfiguredSmtpResolves(c, switches);
    assert Resolve(WithTransportStrategy(NewBuilder, SMTP), c, switches).value == r;
    ConfiguredAccount(r, c, SMTP, switches);
    ProtocolKeyValue(r);
    OpportunisticTlsKeys(r);
  }

  // Lines 202-240: the fully configured mailer with prefix "overridden ", against the test configuration.

  function OverriddenSettings(prefix: string, s: TransportStrategy, c: LoadedConfig, switches: StrategySwitches): ServerSettings {
    ServerSettings(s, prefix + "smtp host", 25, Some(prefix + "username smtp"), Some(prefix + "password smtp"),
                   if s == SMTPS then None
                   else Some(ProxySettings(prefix + "proxy host", 1080, Some("username proxy"), Some("password proxy"))),
                   1081, ResolvedOpportunisticTls(s, c, switches), true,
                   map["extra1" := prefix + "value1", "extra2" := prefix + "value2"])
  }

  lemma OverriddenResolves(prefix: string, s: TransportStrategy, c: LoadedConfig, switches: StrategySwitches)
    requires c == TestConfig && s != SMTP
    ensures Resolve(FullyConfigured(false, prefix, s), c, switches) == Success(OverriddenSettings(prefix, s, c, switches))
  {
  }

  /** The builder's server and credentials, under either strategy the tests use. */
  lemma OverriddenAccount(r: ServerSettings, prefix: string, s: TransportStrategy, c: LoadedConfig, switches: StrategySwitches)
    requires r == OverriddenSettings(prefix, s, c, switches)
    ensures Value(r, Host) == Some(prefix + "smtp host") && Value(r, Port) == Some("25")
    ensures Value(r, Username) == Some(prefix + "username smtp") && Value(r, Auth) == Some("true")
  {
    ExtrasFree(r);
    PortTexts();
    ServerKeys(r);
    AuthKeysIffUsername(r);
  }

  lemma OverriddenTransport(r: ServerSettings, prefix: string, c: LoadedConfig, switches: StrategySwitches)
    requires r == OverriddenSettings(prefix, SMTP_TLS, c, switches)
    ensures Value(r, StartTlsEnable) == Some("true") && Value(r, StartTlsRequired) == Some("true")
    ensures Value(r, SslCheckServerIdentity) == Some("true")
    ensures Value(r, SocksHost) == Some("localhost") && Value(r, SocksPort) == Some("1081")
  {
    ExtrasFree(r);
    PortTexts();
    MandatoryTlsKeys(r);
    SocksKeys(r);
  }

  /**
   * The builder's values beat the configuration's; the proxy credentials the
   * builder does not give come from the configuration, so the bridge is used.
   */
  lemma MaximumConstructorWithConfig(prefix: string, c: LoadedConfig, switches: StrategySwitches)
    requires c == TestConfig
    ensures BuildSession(FullyConfigured(false, prefix, SMTP_TLS), c, switches).Success?
    ensures var r := Resolve(FullyConfigured(false, prefix, SMTP_TLS), c, switches).value;
      && SessionOf(r).debug
      && Get(SessionOf(r), "mail.transport.protocol") == Some("smtp")
      && Value(r, Host) == Some(prefix + "smtp host") && Value(r, Port) == Some("25")
      && Value(r, StartTlsEnable) == Some("true") && Value(r, StartTlsRequired) == Some("true")
      && Value(r, SslCheckServerIdentity) == Some("true")
      && Value(r, Username) == Some(prefix + "username smtp") && Value(r, Auth) == Some("true")
      && Value(r, SocksHost) == Some("localhost") && Value(r, SocksPort) == Some("1081")
      && Get(SessionOf(r), "extra1") == Some(prefix + "value1")
      && Get(SessionOf(r), "extra2") == Some(prefix + "value2")
  {
    var r := OverriddenSettings(prefix, SMTP_TLS, c, switches);
    OverriddenResolves(prefix, SMTP_TLS, c, switches);
    assert Resolve(FullyConfigured(false, prefix, SMTP_TLS), c, switches).value == r;
    OverriddenAccount(r, prefix, SMTP_TLS, c, switches);
    OverriddenTransport(r, prefix, c, switches);
    ProtocolAndExtras(r, prefix);
  }

  lemma OverriddenSmtpsTransport(r: ServerSettings, prefix: string, c: LoadedConfig, switches: StrategySwitches)
    requires r == OverriddenSettings(prefix, SMTPS, c, switches)
    ensures Value(r, QuitWait) == Some("false")
    ensures Value(r, SocksHost) == None && Value(r, SocksPort) == None
  {
    ExtrasFree(r);
    ImplicitTlsKeys(r);
  }

  /** SMTPS with the proxy cleared: the "mail.smtps." keys, no wait for QUIT, and no SOCKS key. */
  lemma MaximumConstructorWithConfigTls(prefix: string, c: LoadedConfig, switches: StrategySwitches)
    requires c == TestConfig
    ensures BuildSession(FullyConfigured(false, prefix, SMTPS), c, switches).Success?
    ensures var r := Resolve(FullyConfigured(false, prefix, SMTPS), c, switches).value;
      && SessionOf(r).debug
      && Get(SessionOf(r), "mail.transport.protocol") == Some("smtps")
      && Value(r, Host) == Some(prefix + "smtp host") && Value(r, Port) == Some("25")
      && Value(r, QuitWait) == Some("false")
      && Value(r, Username) == Some(prefix + "username smtp") && Value(r, Auth) == Some("true")
      && Value(r, SocksHost) == None && Value(r, SocksPort) == None
      && Get(SessionOf(r), "extra1") == Some(prefix + "value1")
      && Get(SessionOf(r), "extra2") == Some(prefix + "value2")
  {
    var r := OverriddenSettings(prefix, SMTPS, c, switches);
    OverriddenResolves(prefix, SMTPS, c, switches);
    assert Resolve(FullyConfigured(false, prefix, SMTPS), c, switches).value == r;
    OverriddenAccount(r, prefix, SMTPS, c, switches);
    OverriddenSmtpsTransport(r, prefix, c, switches);
    ProtocolAndExtras(r, prefix);
  }
}
