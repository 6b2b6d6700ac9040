# simple-java-mail: the `Email` value and the session-property mapping

This Dafny project models two parts of simple-java-mail.

**The `Email` object** (`Email.java`). An `Email` is built once from the state
staged in an `EmailPopulatingBuilder`. The constructor takes each value,
the lists and the header map as read-only views. It then settles the two notification targets:
- a requested disposition notification without a target goes to the reply-to
  recipient, else to the sender;
- a requested return receipt gets the same fallback, but its guard tests the
  builder's *disposition* target, as the source does.

After construction only the message id changes, through `internalSetId`. The
model also covers `equals`/`hashCode` and the text of `toString`.

**The session a mailer creates** (the behaviour `MailerTest.java` pins down).
A mailer builder is layered over the loaded configuration and compiled
defaults. The result is a set of resolved server settings. Those settings
become the JavaMail session properties of the transport strategy in use:
- SMTP, SMTP_TLS and SMTPS each have their own TLS keys;
- username and `auth` keys appear only with a username;
- a proxy without credentials is handed to the transport directly;
- a proxy with credentials is replaced by the local bridge on `localhost`;
- extra properties are added on top.

Every `createMailSession_*` test is restated as a lemma about the model.

Modules:
- `Wrappers`: `Option` and `Result`.
- `Decimal`: the decimal text of a port number and its parse.
- `EmailModel`: recipients, the builder state, and the rule that turns the
  builder state into the fields of an `Email`.
- `EmailText`: the text of `toString`, as functions of the fields.
- `Emails`: the `Email` class.
  - Java `final` fields are `const`s.
  - `id` and the two notification targets are `var`s.
  - It also holds the null-builder check and the header iteration order.
- `Transport`: strategies, protocols, settings and the spelling of each key.
- `MailerConfig`: the mailer builder, the loaded configuration, and their
  layering into `ServerSettings`.
- `SessionMapping`: the value of every setting under a strategy, and the
  session properties.
- `MailerScenarios`: the test class's configuration, its
  `createFullyConfiguredMailer` helper, and one lemma per test.

The scenario lemmas name a session key as `Value(r, Host)`: the value of
setting `Host` under the key of `r`'s strategy. The `*Spellings` lemmas fix
how each key is written, for example "mail.smtp.host". `Transport.StrategyKeys`
shows that SMTP_TLS uses SMTP's keys.

## Model

| member | source | states |
|---|---|---|
| Emails.NewEmail | src/main/java/org/simplejavamail/email/Email.java:124-125 | a missing builder is refused with an empty-argument error naming "builder", and only then; otherwise a new email holds exactly the fields the builder determines |
| Emails.Email.constructor | src/main/java/org/simplejavamail/email/Email.java:124-165 | after copying and the two conditional reassignments, the fields are `FromBuilder(builder)` |
| EmailModel.FromBuilder | src/main/java/org/simplejavamail/email/Email.java:124-163 | a requested disposition notification has a target whenever the builder has a sender or a reply-to address; so does a requested return receipt when the builder has no disposition target |
| EmailModel.FromBuilderCopiesFields | src/main/java/org/simplejavamail/email/Email.java:126-145 | every field other than the two notification targets is the builder's value; recipients keep their order, and attachments and embedded images stay separate lists |
| EmailModel.DispositionFallsBack | src/main/java/org/simplejavamail/email/Email.java:147-154 | a requested disposition notification with no target goes to reply-to when present, else to from |
| EmailModel.DispositionKept | src/main/java/org/simplejavamail/email/Email.java:143-154 | not requested, or a target given: the builder's disposition target is kept as it was |
| EmailModel.ReturnReceiptFallsBack | src/main/java/org/simplejavamail/email/Email.java:156-163 | return receipt requested and no disposition target: reply-to, else from, whatever return-receipt target the builder had |
| EmailModel.ReturnReceiptKept | src/main/java/org/simplejavamail/email/Email.java:144-163 | return receipt not requested, or a disposition target given: the builder's return-receipt target is kept, even when it is absent |
| EmailModel.ReturnReceiptGuardReadsDispositionTarget | src/main/java/org/simplejavamail/email/Email.java:156 | the guard reads the disposition target: an explicit return-receipt target is overwritten by the sender, and a requested receipt without a target stays without one when a disposition target exists |
| Emails.Email.InternalSetId | src/main/java/org/simplejavamail/email/Email.java:173-175 | `id` becomes the given id and every other field is unchanged |
| Emails.Email.Equals | src/main/java/org/simplejavamail/email/Email.java:184-187 | only an `Email` can be equal to an email, and an email always equals itself |
| Emails.EqualsReflexive | src/main/java/org/simplejavamail/email/Email.java:184-187 | an email equals itself |
| Emails.EqualsNull | src/main/java/org/simplejavamail/email/Email.java:184-187 | no email equals `null` |
| Emails.EqualsSymmetric | src/main/java/org/simplejavamail/email/Email.java:184-187 | equality of emails is symmetric |
| Emails.EqualsTransitive | src/main/java/org/simplejavamail/email/Email.java:184-187 | equality of emails is transitive |
| Emails.EqualsOtherClass | src/main/java/org/simplejavamail/email/Email.java:185 | an object of another class is never equal to an email |
| Emails.HashCodeAgreesWithEquals | src/main/java/org/simplejavamail/email/Email.java:178-187 | equal emails have equal hash codes |
| Emails.SameBuilderEqual | src/main/java/org/simplejavamail/email/Email.java:184-187 | two emails built from the same builder are equal |
| Emails.Email.ToString | src/main/java/org/simplejavamail/email/Email.java:190-224 | the text is `Render` of the current fields, with the headers in some iteration order of the header map |
| Emails.KeyOrder | src/main/java/org/simplejavamail/email/Email.java:210-212 | the iteration lists every header name exactly once |
| EmailText.Render | src/main/java/org/simplejavamail/email/Email.java:190-224 | the text starts with "Email{" and ends with "\n}" |
| EmailText.RenderLeftToRight | src/main/java/org/simplejavamail/email/Email.java:191-222 | the text is the fixed part, then the disposition, return-receipt, headers, embedded-image, attachment and forwarding sections in that order, then "\n}" |
| EmailText.DispositionSectionInserted | src/main/java/org/simplejavamail/email/Email.java:202-205 | requesting a disposition notification inserts its section right after the recipients and changes nothing else |
| EmailText.ReturnReceiptSectionInserted | src/main/java/org/simplejavamail/email/Email.java:206-209 | requesting a return receipt inserts its section after the disposition section, if any, and changes nothing else |
| EmailText.HeadersSectionInserted | src/main/java/org/simplejavamail/email/Email.java:210-212 | with headers, the text is the text without headers plus the headers section inserted right after the flag sections, nothing else changed; the section is empty exactly when there is no header |
| EmailText.EmbeddedImagesSectionInserted | src/main/java/org/simplejavamail/email/Email.java:213-215 | with embedded images, the text is the text without them plus their section inserted right after the headers section, nothing else changed |
| EmailText.AttachmentsSectionInserted | src/main/java/org/simplejavamail/email/Email.java:216-218 | with attachments, the text is the text without them plus their section inserted right after the embedded-image section, nothing else changed |
| EmailText.ForwardingMarkerIffForwarding | src/main/java/org/simplejavamail/email/Email.java:219-222 | the text ends with ",\n\tforwardingEmail=true\n}" exactly when a message is forwarded |
| EmailText.MinimalRendering | src/main/java/org/simplejavamail/email/Email.java:191-200 | no flag, no header, image or attachment, and no forwarded message: only the fixed part and "\n}" |
| Decimal.DigitsValueOfNatToString | src/test/java/org/simplejavamail/mailer/MailerTest.java:57 | the port text reads back as the port |
| Decimal.NatToStringInjective | src/test/java/org/simplejavamail/mailer/MailerTest.java:124 | two ports have the same text exactly when they are equal |
| Transport.KeyNameInjective | src/test/java/org/simplejavamail/mailer/MailerTest.java:56-68 | two session keys are spelled the same exactly when they are the same key |
| Transport.StrategyKeys | src/test/java/org/simplejavamail/mailer/MailerTest.java:232-237 | SMTP_TLS uses SMTP's keys, and SMTPS spells every setting differently |
| MailerConfig.WithSMTPServer | src/test/java/org/simplejavamail/mailer/MailerTest.java:259 | the mailer resolves exactly when host and port are given, and then with exactly the given host, port, username and password, whatever the configuration holds |
| MailerConfig.WithTransportStrategy | src/test/java/org/simplejavamail/mailer/MailerTest.java:260 | the resolved strategy is the given one, and whether the mailer resolves does not change |
| MailerConfig.WithDebugLogging | src/test/java/org/simplejavamail/mailer/MailerTest.java:261 | the resolved debug flag is the given one, and whether the mailer resolves does not change |
| MailerConfig.WithAuthenticatedProxy | src/test/java/org/simplejavamail/mailer/MailerTest.java:266 | the resolved proxy is the given host, port and credentials when host and port are given, and no proxy otherwise |
| MailerConfig.WithProxyBridgePort | src/test/java/org/simplejavamail/mailer/MailerTest.java:267 | the resolved bridge port is the given one, and whether the mailer resolves does not change |
| MailerConfig.ClearProxy | src/test/java/org/simplejavamail/mailer/MailerTest.java:272 | the resolved mailer has no proxy, whatever the configuration holds |
| MailerConfig.WithProperty | src/test/java/org/simplejavamail/mailer/MailerTest.java:276-277 | the extra properties then map the key to the value, and their keys are the earlier keys plus that key |
| MailerConfig.WithSMTPServerHostPort | src/test/java/org/simplejavamail/mailer/MailerTest.java:71 | the two-argument server form leaves the credentials as they were; the mailer resolves exactly when host and port are given, and then with exactly that host and port and the credentials the builder or the configuration holds |
| MailerConfig.WithProxy | src/test/java/org/simplejavamail/mailer/MailerTest.java:269 | the two-argument proxy form leaves the proxy credentials as they were and does not change whether the mailer resolves; the resolved proxy is the given host and port with the credentials the builder or the configuration holds, or no proxy when the host or the port is null |
| MailerConfig.Resolve | src/test/java/org/simplejavamail/mailer/MailerTest.java:130-146 | building a mailer succeeds exactly when the builder or the configuration knows the host and the port, and a missing host is the error reported first; the extra properties are the builder's; a proxy exists exactly when its host and port are known |
| MailerConfig.UnsetFieldsFallBack | src/test/java/org/simplejavamail/mailer/MailerTest.java:130-146 | a field the builder was never told about takes the configuration's value, else its default: SMTP, debugging off, bridge port 1080 |
| MailerConfig.ExplicitFieldsWin | src/test/java/org/simplejavamail/mailer/MailerTest.java:202-222 | for every builder that resolves, its server explicit or configured: a field set on the builder keeps its value, and one set to null stays absent or takes its default, whatever the configuration holds: server, credentials, strategy, debugging, proxy and bridge port; an explicit host and port always resolve |
| MailerConfig.FullyExplicitIgnoresConfig | src/test/java/org/simplejavamail/mailer/MailerTest.java:257-279 | with every field explicit, the configuration changes nothing except through opportunistic TLS |
| MailerConfig.NewBuilderTakesConfig | src/test/java/org/simplejavamail/mailer/MailerTest.java:130-146 | an untouched builder takes every field from the configuration, else the default |
| MailerConfig.OpportunisticTlsPrecedence | src/test/java/org/simplejavamail/mailer/MailerTest.java:149-199 | a switch set on the strategy beats the configuration, which beats the default of on |
| MailerConfig.ClearProxyRemovesProxy | src/test/java/org/simplejavamail/mailer/MailerTest.java:271-273 | clearing the proxy removes it whatever the configuration holds and changes nothing else |
| MailerConfig.ProxyCredentialsFromConfig | src/test/java/org/simplejavamail/mailer/MailerTest.java:204-219 | a proxy given without credentials takes the configuration's credentials |
| MailerConfig.ShortServerFormWithoutConfig | src/test/java/org/simplejavamail/mailer/MailerTest.java:71-74 | without configuration, the two-argument server form equals the four-argument form with null credentials |
| MailerConfig.WithPropertyLastWins | src/test/java/org/simplejavamail/mailer/MailerTest.java:275-278 | a later extra property with the same key replaces the earlier one and leaves the others alone |
| SessionMapping.SettingValue | src/test/java/org/simplejavamail/mailer/MailerTest.java:56-69 | host and port always have a value; quitwait has one exactly under SMTPS; SMTPS sets only host, port, username, auth and quitwait; SMTP without opportunistic TLS sets no TLS value |
| SessionMapping.Properties | src/test/java/org/simplejavamail/mailer/MailerTest.java:59-101 | the protocol key is always present, and every extra property appears with its own value |
| SessionMapping.SessionOf | src/test/java/org/simplejavamail/mailer/MailerTest.java:53-59 | the session's debug flag is the resolved one, and the protocol key is present |
| SessionMapping.BuildSession | src/test/java/org/simplejavamail/mailer/MailerTest.java:52-56 | `getSession()` gives a session exactly when host and port are known, with debugging as the builder or the configuration sets it, off by default |
| SessionMapping.OpportunisticTlsValues | src/test/java/org/simplejavamail/mailer/MailerTest.java:60-63 | SMTP with opportunistic TLS: enable "true", required "false", trust "*", identity check "false" |
| SessionMapping.PlainSmtpValues | src/test/java/org/simplejavamail/mailer/MailerTest.java:162-164 | SMTP without opportunistic TLS: no TLS setting at all |
| SessionMapping.MandatoryTlsValues | src/test/java/org/simplejavamail/mailer/MailerTest.java:92-94 | SMTP_TLS: enable, required and identity check all "true" |
| SessionMapping.SocksValues | src/test/java/org/simplejavamail/mailer/MailerTest.java:98-124 | the SOCKS settings exist exactly when a proxy is used outside SMTPS: the bridge for a proxy with credentials, the proxy itself otherwise |
| SessionMapping.ImplicitTlsValues | src/test/java/org/simplejavamail/mailer/MailerTest.java:232-235 | SMTPS: quitwait "false", no STARTTLS setting and no SOCKS setting |
| SessionMapping.SettingKey | src/test/java/org/simplejavamail/mailer/MailerTest.java:56-68 | a key no extra property overrides holds exactly the computed value of its setting, or is absent |
| SessionMapping.ProtocolKeyValue | src/test/java/org/simplejavamail/mailer/MailerTest.java:58 | "mail.transport.protocol" is "smtps" under SMTPS and "smtp" otherwise |
| SessionMapping.ServerKeys | src/test/java/org/simplejavamail/mailer/MailerTest.java:56-57 | host and port are always present, and the port's text reads back as the port |
| SessionMapping.AuthKeysIffUsername | src/test/java/org/simplejavamail/mailer/MailerTest.java:65-97 | the username and auth keys are present exactly when a username with text is; then they hold it and "true" |
| SessionMapping.SocksKeys | src/test/java/org/simplejavamail/mailer/MailerTest.java:98-124 | SOCKS keys exactly when a proxy is used outside SMTPS: "localhost" and the bridge port for a proxy with credentials, the proxy's own host and port otherwise |
| SessionMapping.BridgeHidesProxyPort | src/test/java/org/simplejavamail/mailer/MailerTest.java:122-124 | through the bridge, the SOCKS port is not the proxy's own port |
| SessionMapping.OpportunisticTlsKeys | src/test/java/org/simplejavamail/mailer/MailerTest.java:60-63 | the session of SMTP with opportunistic TLS holds the soft TLS keys and no quitwait key |
| SessionMapping.PlainSmtpHasNoTlsKeys | src/test/java/org/simplejavamail/mailer/MailerTest.java:162-164 | the session of SMTP without opportunistic TLS holds no TLS key |
| SessionMapping.MandatoryTlsKeys | src/test/java/org/simplejavamail/mailer/MailerTest.java:92-94 | the session of SMTP_TLS requires STARTTLS and the identity check, with no trust-all key |
| SessionMapping.ImplicitTlsKeys | src/test/java/org/simplejavamail/mailer/MailerTest.java:232-235 | the session of SMTPS has quitwait "false" and no STARTTLS or SOCKS key |
| SessionMapping.ExtraPropertiesWin | src/test/java/org/simplejavamail/mailer/MailerTest.java:100-101 | an extra property appears with exactly its given value |
| SessionMapping.OnlyStrategyKeys | src/test/java/org/simplejavamail/mailer/MailerTest.java:232-237 | every property is an extra one, the protocol key, or a key of the protocol in use |
| MailerScenarios.FullyConfigured | src/test/java/org/simplejavamail/mailer/MailerTest.java:257-279 | `createFullyConfiguredMailer` resolves under every configuration, to the prefixed server and credentials, the given strategy and debugging on, with the two prefixed extra properties; under SMTP_TLS the prefixed proxy on 1080, with its own credentials and bridge port 999 when authenticated and the configuration's credentials otherwise; under SMTPS no proxy |
| MailerScenarios.SmtpServerKeySpellings | src/test/java/org/simplejavamail/mailer/MailerTest.java:56-66 | the host, port, username and auth keys of SMTP are "mail.smtp.host", "mail.smtp.port", "mail.smtp.username" and "mail.smtp.auth" |
| MailerScenarios.SmtpsKeySpellings | src/test/java/org/simplejavamail/mailer/MailerTest.java:232-237 | SMTPS writes its keys with "mail.smtps.", including quitwait |
| MailerScenarios.StartTlsKeySpellings | src/test/java/org/simplejavamail/mailer/MailerTest.java:60-61 | the STARTTLS keys are "mail.smtp.starttls.enable" and "mail.smtp.starttls.required" |
| MailerScenarios.TrustKeySpelling | src/test/java/org/simplejavamail/mailer/MailerTest.java:62 | the trust key is "mail.smtp.ssl.trust" |
| MailerScenarios.IdentityCheckKeySpelling | src/test/java/org/simplejavamail/mailer/MailerTest.java:63 | the identity-check key is "mail.smtp.ssl.checkserveridentity" |
| MailerScenarios.SocksKeySpellings | src/test/java/org/simplejavamail/mailer/MailerTest.java:67-68 | the SOCKS keys are "mail.smtp.socks.host" and "mail.smtp.socks.port" |
| MailerScenarios.PortTexts | src/test/java/org/simplejavamail/mailer/MailerTest.java:124 | ports 25, 999, 1080 and 1081 are written "25", "999", "1080" and "1081" |
| MailerScenarios.ProtocolAndExtras | src/test/java/org/simplejavamail/mailer/MailerTest.java:275-278 | the extra properties of the helper appear verbatim beside the protocol key |
| MailerScenarios.MinimalWithoutConfigResolves | src/test/java/org/simplejavamail/mailer/MailerTest.java:50-52 | the minimal mailer without configuration resolves to SMTP, no credentials, no proxy, no debugging |
| MailerScenarios.MinimalWithoutConfigAccount | src/test/java/org/simplejavamail/mailer/MailerTest.java:56-66 | host and port "25", and no username or auth key |
| MailerScenarios.MinimalWithoutConfigTransport | src/test/java/org/simplejavamail/mailer/MailerTest.java:60-68 | unless SMTP was switched off: the soft TLS values, and no SOCKS key |
| MailerScenarios.MinimalConstructorWithoutConfig | src/test/java/org/simplejavamail/mailer/MailerTest.java:48-69 | the session of `withSMTPServer(host, 25, null, null)`: every value and absence the test asserts, and debug off |
| MailerScenarios.MinimalConstructorAlternative | src/test/java/org/simplejavamail/mailer/MailerTest.java:71-74 | `withSMTPServer("host", 25)` gives the same session |
| MailerScenarios.AnonymousProxyResolves | src/test/java/org/simplejavamail/mailer/MailerTest.java:83 | the helper without proxy credentials and without configuration resolves to a proxy without credentials |
| MailerScenarios.AnonymousProxyAccount | src/test/java/org/simplejavamail/mailer/MailerTest.java:88-97 | the builder's host, port "25", username, and auth "true" |
| MailerScenarios.AnonymousProxyTransport | src/test/java/org/simplejavamail/mailer/MailerTest.java:92-99 | mandatory TLS, and the proxy's own host and port "1080" |
| MailerScenarios.AnonymousProxyConstructorWithoutConfig | src/test/java/org/simplejavamail/mailer/MailerTest.java:79-102 | every value the test asserts, for any prefix |
| MailerScenarios.AuthenticatedProxyResolves | src/test/java/org/simplejavamail/mailer/MailerTest.java:109 | the helper with proxy credentials resolves to bridge port 999 |
| MailerScenarios.AuthenticatedProxyAccount | src/test/java/org/simplejavamail/mailer/MailerTest.java:113-122 | the builder's host, port "25", username, and auth "true" |
| MailerScenarios.AuthenticatedProxyTransport | src/test/java/org/simplejavamail/mailer/MailerTest.java:117-124 | mandatory TLS, and SOCKS through "localhost" on "999" |
| MailerScenarios.MaximumConstructorWithoutConfig | src/test/java/org/simplejavamail/mailer/MailerTest.java:105-127 | every value the test asserts, for any prefix |
| MailerScenarios.MinimalWithConfigResolves | src/test/java/org/simplejavamail/mailer/MailerTest.java:131 | an untouched builder over the test configuration resolves to the configuration's values |
| MailerScenarios.ConfiguredAccount | src/test/java/org/simplejavamail/mailer/MailerTest.java:134-145 | under any strategy but SMTPS: the configured host, port "25", username, auth "true", and the bridge on "localhost" and "1081" |
| MailerScenarios.MinimalConstructorWithConfig | src/test/java/org/simplejavamail/mailer/MailerTest.java:130-146 | every value the test asserts |
| MailerScenarios.ConfiguredSmtpResolves | src/test/java/org/simplejavamail/mailer/MailerTest.java:154 | SMTP over the configuration with opportunistic TLS off resolves to the configuration's values |
| MailerScenarios.MinimalConstructorWithConfigOpportunisticTls | src/test/java/org/simplejavamail/mailer/MailerTest.java:149-171 | with no switch on SMTP, no STARTTLS or identity-check key, and every other value the test asserts |
| MailerScenarios.MinimalConstructorWithConfigOpportunisticTlsManuallyDisabled | src/test/java/org/simplejavamail/mailer/MailerTest.java:174-199 | SMTP switched on beats the configuration: the soft TLS keys, and every other value the test asserts |
| MailerScenarios.OverriddenResolves | src/test/java/org/simplejavamail/mailer/MailerTest.java:204-227 | the helper over the test configuration takes the builder's values and the configuration's proxy credentials, and no proxy under SMTPS |
| MailerScenarios.OverriddenAccount | src/test/java/org/simplejavamail/mailer/MailerTest.java:208-237 | under either strategy: the builder's host, port "25", username, and auth "true" |
| MailerScenarios.OverriddenTransport | src/test/java/org/simplejavamail/mailer/MailerTest.java:212-219 | under SMTP_TLS: mandatory TLS, and the bridge on "localhost" and "1081" |
| MailerScenarios.MaximumConstructorWithConfig | src/test/java/org/simplejavamail/mailer/MailerTest.java:202-222 | every value the test asserts, for any prefix |
| MailerScenarios.OverriddenSmtpsTransport | src/test/java/org/simplejavamail/mailer/MailerTest.java:234-237 | under SMTPS: quitwait "false" and no SOCKS key |
| MailerScenarios.MaximumConstructorWithConfigTls | src/test/java/org/simplejavamail/mailer/MailerTest.java:225-240 | every value the test asserts under the "mail.smtps." keys, for any prefix |

## Left out

- The MIME round trip of `testParser` (MailerTest.java:243-255): the converter to and from JavaMail messages is not part of this model.
- `EqualsHelper.equalsEmail` is not part of this model. `equals` compares every modelled field; which fields the helper really compares is not modelled.
- JavaMail objects (`Session`, `MimeMessage`, `DataSource`) are opaque handles or plain records. A session is its property map plus its debug flag.
- The local SOCKS bridge, connecting and sending are I/O. The model only decides whether the bridge is used.
- Parsing of configuration text and the process-wide configuration are out. The loaded configuration is a parameter, and so are the per-strategy opportunistic-TLS switches.
- `usingSession(session)` (MailerTest.java:72) wraps an existing JavaMail session and is not modelled.
- Builder validation, reply/forward derivation and the other `EmailPopulatingBuilder` methods are not part of this model. Only the builder state that the `Email` constructor reads is modelled.
- The read-only views of Email.java:126-129 (`unmodifiableList`, `unmodifiableMap`) and their aliasing of the builder's collections are not modelled: the model's email holds values, so a later change to the builder cannot show through.
- MailerConfig.Resolve: refusing a mailer whose host or port neither the builder nor the configuration knows (MissingHost, MissingPort) is a choice of this model; the tests only build mailers that have both.
- Getters: `Email.Data()` exposes every field at once in place of one getter per field.
- `toString` of `Recipient`, `AttachmentResource` and the forwarded message comes from classes that are not part of this model. The model renders them with fixed stand-in texts.
- The model treats the order of the header map as any order, since a hash map fixes none.
- SMTP as the strategy and opportunistic TLS on are the defaults MailerTest.java:56-64 shows. Bridge port 1080, when neither the builder nor the configuration gives one, is a choice of this model: no test shows a default bridge port.
- SMTPS together with a proxy is never exercised by the tests, because the SMTPS test clears the proxy. This model emits no SOCKS key under SMTPS; the tests never show what SMTPS does with a proxy.
- An extra property whose key equals a computed key is never exercised by the tests. This model lets the extra property win, as properties set last on a `Properties` object replace earlier ones.
- SessionMapping.SettingValue: several absences are this model's own choice, and no test shows them: under SMTPS, no `starttls.enable`, `starttls.required`, `ssl.trust` or `ssl.checkserveridentity` key (MailerTest.java:225-240 checks only host, port, protocol, quitwait, username and auth); under SMTP_TLS and under SMTP without opportunistic TLS, no `ssl.trust` key (MailerTest.java:92-94 and 162-164 do not check it). The lemmas PlainSmtpValues, MandatoryTlsValues, ImplicitTlsValues, PlainSmtpHasNoTlsKeys, MandatoryTlsKeys and ImplicitTlsKeys state these absences of the model, not of the tests.
- SMTP_TLS with opportunistic TLS turned off is never exercised by the tests. The model always requires STARTTLS under SMTP_TLS.
- A proxy with a host but no port, or a port but no host, is treated as no proxy.
- An empty username or an empty proxy username counts as absent, as `valueNullOrEmpty` treats it: no auth keys, and a proxy reached without the bridge. No test pins this case; it is a choice of this model.
- The passwords are carried in the settings but are not mapped to any session key, since the tests assert none.
- The generic debug key is not modelled. The debug flag is the session's own flag, as `session.getDebug()` reads it.
- MailerScenarios.MinimalConstructorWithoutConfig: states the session for any host, not only "host". The other scenario lemmas likewise hold for any prefix, not only the tests' "" and "overridden ".
- MailerScenarios.MinimalConstructorWithConfigOpportunisticTls: requires that no switch is set on SMTP. MailerTest.java:179 switches SMTP's opportunistic TLS on for the whole process and nothing visible switches it off, so the test at MailerTest.java:149-171 holds only when the test at MailerTest.java:174-199 has not run before it in the same process.
