/**
 * The value side of an email: recipients, attachments, the staged state of a
 * builder, and the rule by which that state becomes the fields of an `Email`
 * (src/main/java/org/simplejavamail/email/Email.java, constructor).
 */
module EmailModel {
  import opened Wrappers

  datatype RecipientType = TO | CC | BCC

  /** A named address tagged TO, CC or BCC; `name` is the optional display name. */
  datatype Recipient = Recipient(name: Option<string>, address: string, kind: RecipientType)

  /** The method of an iCalendar body (the values of section 3.2 of RFC 5546). */
  datatype CalendarMethod = PUBLISH | REQUEST | REPLY | ADD | CANCEL | REFRESH | COUNTER | DECLINECOUNTER

  /** Handle on binary content owned by an external data source; never inspected here. */
  datatype DataSource = DataSource(handle: nat)

  datatype AttachmentResource = AttachmentResource(name: string, dataSource: DataSource)

  /** Handle on an external wire-format message that is being forwarded. */
  datatype MimeMessage = MimeMessage(handle: nat)

  /** What the `Email` constructor reads from the builder, getter by getter. */
  datatype EmailPopulatingBuilder = EmailPopulatingBuilder(
    id: Option<string>,
    fromRecipient: Option<Recipient>,
    replyToRecipient: Option<Recipient>,
    bounceToRecipient: Option<Recipient>,
    text: Option<string>,
    textHTML: Option<string>,
    calendarMethod: Option<CalendarMethod>,
    textCalendar: Option<string>,
    subject: Option<string>,
    recipients: seq<Recipient>,
    embeddedImages: seq<AttachmentResource>,
    attachments: seq<AttachmentResource>,
    headers: map<string, string>,
    useDispositionNotificationTo: bool,
    dispositionNotificationTo: Option<Recipient>,
    useReturnReceiptTo: bool,
    returnReceiptTo: Option<Recipient>,
    emailToForward: Option<MimeMessage>)

  /** The fields of an `Email`, as one value. */
  datatype EmailData = EmailData(
    id: Option<string>,
    fromRecipient: Option<Recipient>,
    replyToRecipient: Option<Recipient>,
    bounceToRecipient: Option<Recipient>,
    text: Option<string>,
    textHTML: Option<string>,
    calendarMethod: Option<CalendarMethod>,
    textCalendar: Option<string>,
    subject: Option<string>,
    recipients: seq<Recipient>,
    embeddedImages: seq<AttachmentResource>,
    attachments: seq<AttachmentResource>,
    headers: map<string, string>,
    useDispositionNotificationTo: bool,
    dispositionNotificationTo: Option<Recipient>,
    useReturnReceiptTo: bool,
    returnReceiptTo: Option<Recipient>,
    emailToForward: Option<MimeMessage>)

  /** `MiscUtil.valueNullOrEmpty` applied to a recipient: only `null` qualifies. */
  predicate ValueNullOrEmpty(r: Option<Recipient>) {
    r.None?
  }

  /** Where a notification goes when none was named: reply-to if set, else from. */
  function DefaultNotificationTarget(b: EmailPopulatingBuilder): Option<Recipient> {
    if b.replyToRecipient.Some? then b.replyToRecipient else b.fromRecipient
  }

  /** The disposition-notification target the constructor settles on. */
  function ResolvedDispositionNotificationTo(b: EmailPopulatingBuilder): Option<Recipient> {
    if b.useDispositionNotificationTo && ValueNullOrEmpty(b.dispositionNotificationTo)
    then DefaultNotificationTarget(b)
    else b.dispositionNotificationTo
  }

  /**
   * The return-receipt target the constructor settles on. The guard looks at the
   * builder's disposition-notification target, not its return-receipt target.
   */
  function ResolvedReturnReceiptTo(b: EmailPopulatingBuilder): Option<Recipient> {
    if b.useReturnReceiptTo && ValueNullOrEmpty(b.dispositionNotificationTo)
    then DefaultNotificationTarget(b)
    else b.returnReceiptTo
  }

  /** The fields of the `Email` built from `b`. */
  function FromBuilder(b: EmailPopulatingBuilder): (e: EmailData)
    ensures e.useDispositionNotificationTo && (b.fromRecipient.Some? || b.replyToRecipient.Some?)
            ==> e.dispositionNotificationTo.Some?
    ensures e.useReturnReceiptTo && b.dispositionNotificationTo.None? && (b.fromRecipient.Some? || b.replyToRecipient.Some?)
            ==> e.returnReceiptTo.Some?
  {
    EmailData(
      b.id, b.fromRecipient, b.replyToRecipient, b.bounceToRecipient,
      b.text, b.textHTML, b.calendarMethod, b.textCalendar, b.subject,
      b.recipients, b.embeddedImages, b.attachments, b.headers,
      b.useDispositionNotificationTo, ResolvedDispositionNotificationTo(b),
      b.useReturnReceiptTo, ResolvedReturnReceiptTo(b),
      b.emailToForward)
  }

  /** Everything except the two notification targets is the builder's value, unchanged. */
  predicate CopiesBuilder(e: EmailData, b: EmailPopulatingBuilder) {
    && e.id == b.id
    && e.fromRecipient == b.fromRecipient
    && e.replyToRecipient == b.replyToRecipient
    && e.bounceToRecipient == b.bounceToRecipient
    && e.text == b.text
    && e.textHTML == b.textHTML
    && e.calendarMethod == b.calendarMethod
    && e.textCalendar == b.textCalendar
    && e.subject == b.subject
    && e.recipients == b.recipients
    && e.embeddedImages == b.embeddedImages
    && e.attachments == b.attachments
    && e.headers == b.headers
    && e.useDispositionNotificationTo == b.useDispositionNotificationTo
    && e.useReturnReceiptTo == b.useReturnReceiptTo
    && e.emailToForward == b.emailToForward
  }

  lemma FromBuilderCopiesFields(b: EmailPopulatingBuilder)
    ensures CopiesBuilder(FromBuilder(b), b)
    ensures |FromBuilder(b).recipients| == |b.recipients|
    ensures forall i :: 0 <= i < |b.recipients| ==> FromBuilder(b).recipients[i] == b.recipients[i]
    ensures FromBuilder(b).attachments == b.attachments && FromBuilder(b).embeddedImages == b.embeddedImages
  {
  }

  /** Disposition notification requested without a target: reply-to wins over from. */
  lemma DispositionFallsBack(b: EmailPopulatingBuilder)
    requires b.useDispositionNotificationTo && b.dispositionNotificationTo.None?
    ensures b.replyToRecipient.Some? ==> FromBuilder(b).dispositionNotificationTo == b.replyToRecipient
    ensures b.replyToRecipient.None? ==> FromBuilder(b).dispositionNotificationTo == b.fromRecipient
  {
  }

  /** Not requested, or an explicit target given: the builder's target stays as it was. */
  lemma DispositionKept(b: EmailPopulatingBuilder)
    requires !b.useDispositionNotificationTo || b.dispositionNotificationTo.Some?
    ensures FromBuilder(b).dispositionNotificationTo == b.dispositionNotificationTo
  {
  }

  /** Return receipt requested and no disposition target: reply-to, else from, whatever the builder named. */
  lemma ReturnReceiptFallsBack(b: EmailPopulatingBuilder)
    requires b.useReturnReceiptTo && b.dispositionNotificationTo.None?
    ensures b.replyToRecipient.Some? ==> FromBuilder(b).returnReceiptTo == b.replyToRecipient
    ensures b.replyToRecipient.None? ==> FromBuilder(b).returnReceiptTo == b.fromRecipient
  {
  }

  /** A disposition target given, or no return receipt requested: the builder's return-receipt target stays, even when absent. */
  lemma ReturnReceiptKept(b: EmailPopulatingBuilder)
    requires !b.useReturnReceiptTo || b.dispositionNotificationTo.Some?
    ensures FromBuilder(b).returnReceiptTo == b.returnReceiptTo
  {
  }

  /**
   * An explicitly named return-receipt target is replaced when no disposition
   * target is named, and a return receipt requested without a target stays
   * without one when a disposition target is named.
   */
  lemma ReturnReceiptGuardReadsDispositionTarget(from: Recipient, explicit: Recipient, disposition: Recipient)
    requires from != explicit
    ensures FromBuilder(BuilderWith(Some(from), None, true, None, true, Some(explicit))).returnReceiptTo == Some(from)
    ensures FromBuilder(BuilderWith(Some(from), None, true, None, true, Some(explicit))).returnReceiptTo != Some(explicit)
    ensures FromBuilder(BuilderWith(Some(from), None, true, Some(disposition), true, None)).returnReceiptTo == None
  {
  }

  /** A builder with only the fields the notification rule reads set. */
  function BuilderWith(from: Option<Recipient>, replyTo: Option<Recipient>,
                       useDisposition: bool, disposition: Option<Recipient>,
                       useReturnReceipt: bool, returnReceipt: Option<Recipient>): EmailPopulatingBuilder
  {
    EmailPopulatingBuilder(None, from, replyTo, None, None, None, None, None, None,
                           [], [], [], map[], useDisposition, disposition,
                           useReturnReceipt, returnReceipt, None)
  }
}
