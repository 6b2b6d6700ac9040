/**
 * The transport strategies and the session property keys each of them uses.
 * A key is "mail.<protocol>.<setting>", so SMTP and SMTP_TLS share their
 * keys and SMTPS has its own; "mail.transport.protocol" names the protocol.
 */
module Transport {
  datatype TransportStrategy = SMTP | SMTP_TLS | SMTPS

  /** The protocol a strategy speaks. */
  datatype Protocol = Smtp | Smtps

  function ProtocolOf(s: TransportStrategy): Protocol {
    if s == SMTPS then Smtps else Smtp
  }

  function ProtocolName(p: Protocol): string {
    match p
    case Smtp => "smtp"
    case Smtps => "smtps"
  }

  /** The settings a strategy has a key for. */
  datatype Setting =
    | Host | Port | Username | Auth
    | StartTlsEnable | StartTlsRequired | SslTrust | SslCheckServerIdentity
    | SocksHost | SocksPort | QuitWait

  function SettingName(k: Setting): string {
    match k
    case Host => "host"
    case Port => "port"
    case Username => "username"
    case Auth => "auth"
    case StartTlsEnable => "starttls.enable"
    case StartTlsRequired => "starttls.required"
    case SslTrust => "ssl.trust"
    case SslCheckServerIdentity => "ssl.checkserveridentity"
    case SocksHost => "socks.host"
    case SocksPort => "socks.port"
    case QuitWait => "quitwait"
  }

  /** A session property key, before it is spelled out. */
  datatype PropertyKey = TransportProtocol | Keyed(protocol: Protocol, setting: Setting)

  /** The key of setting `k` under strategy `s`. */
  function Key(s: TransportStrategy, k: Setting): PropertyKey {
    Keyed(ProtocolOf(s), k)
  }

  /** "mail.smtp." or "mail.smtps.". */
  function KeyPrefix(p: Protocol): (t: string)
    ensures |t| == |ProtocolName(p)| + 6
  {
    "mail." + ProtocolName(p) + "."
  }

  /** The key as the session spells it. */
  function KeyName(k: PropertyKey): string {
    match k
    case TransportProtocol => "mail.transport.protocol"
    case Keyed(p, x) => KeyPrefix(p) + SettingName(x)
  }

  lemma SettingNameInjective(a: Setting, b: Setting)
    ensures SettingName(a) == SettingName(b) <==> a == b
  {
  }

  /** The characters of a prefix that tell the protocols and the protocol key apart. */
  lemma KeyPrefixChars(p: Protocol)
    ensures KeyPrefix(p)[5] == 's'
    ensures KeyPrefix(p)[9] == if p == Smtps then 's' else '.'
  {
  }

  lemma SplitAt(p: string, x: string, q: string, y: string)
    requires |p| == |q| && p + x == q + y
    ensures p == q && x == y
  {
    assert p == (p + x)[..|p|];
    assert q == (q + y)[..|q|];
    assert x == (p + x)[|p|..];
    assert y == (q + y)[|q|..];
  }

  /** Two keys are spelled the same exactly when they are the same key. */
  lemma KeyNameInjective(a: PropertyKey, b: PropertyKey)
    ensures KeyName(a) == KeyName(b) <==> a == b
  {
    if a.Keyed? && b.Keyed? && KeyName(a) == KeyName(b) {
      var pa, pb := KeyPrefix(a.protocol), KeyPrefix(b.protocol);
      KeyPrefixChars(a.protocol);
      KeyPrefixChars(b.protocol);
      assert KeyName(a)[9] == pa[9] && KeyName(b)[9] == pb[9];
      SplitAt(pa, SettingName(a.setting), pb, SettingName(b.setting));
      SettingNameInjective(a.setting, b.setting);
    } else if a.Keyed? && b.TransportProtocol? {
      KeyPrefixChars(a.protocol);
      assert KeyName(a)[5] != KeyName(b)[5];
    } else if a.TransportProtocol? && b.Keyed? {
      KeyPrefixChars(b.protocol);
      assert KeyName(a)[5] != KeyName(b)[5];
    }
  }

  /** SMTP and SMTP_TLS use the same keys; SMTPS spells every setting differently. */
  lemma StrategyKeys(x: Setting)
    ensures KeyName(Key(SMTP_TLS, x)) == KeyName(Key(SMTP, x))
    ensures KeyName(Key(SMTPS, x)) != KeyName(Key(SMTP, x))
  {
    KeyNameInjective(Key(SMTPS, x), Key(SMTP, x));
  }
}
