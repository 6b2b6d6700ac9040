/**
 * The `Email` object (src/main/java/org/simplejavamail/email/Email.java): the
 * Java `final` fields are `const`s, the three fields the class reassigns after
 * construction (`id`, `dispositionNotificationTo`, `returnReceiptTo`) are `var`s.
 */
module Emails {
  import opened Wrappers
  import opened EmailModel
  import opened EmailText

  /** Why construction was refused: the named argument was missing. */
  datatype Error = EmptyArgument(argument: string)

  class Email {
    var id: Option<string>
    const fromRecipient: Option<Recipient>
    const replyToRecipient: Option<Recipient>
    const bounceToRecipient: Option<Recipient>
    const text: Option<string>
    const textHTML: Option<string>
    const calendarMethod: Option<CalendarMethod>
    const textCalendar: Option<string>
    const subject: Option<string>
    const recipients: seq<Recipient>
    const embeddedImages: seq<AttachmentResource>
    const attachments: seq<AttachmentResource>
    const headers: map<string, string>
    const useDispositionNotificationTo: bool
    var dispositionNotificationTo: Option<Recipient>
    const useReturnReceiptTo: bool
    var returnReceiptTo: Option<Recipient>
    const emailToForward: Option<MimeMessage>

    /** The current values of all fields. */
    function Data(): EmailData
      reads this
    {
      EmailData(id, fromRecipient, replyToRecipient, bounceToRecipient,
                text, textHTML, calendarMethod, textCalendar, subject,
                recipients, embeddedImages, attachments, headers,
                useDispositionNotificationTo, dispositionNotificationTo,
                useReturnReceiptTo, returnReceiptTo, emailToForward)
    }

    /**
     * Copies every value from the builder, then replaces a missing notification
     * target by reply-to, else from, when that notification is requested.
     */
    constructor (builder: EmailPopulatingBuilder)
      ensures Data() == FromBuilder(builder)
    {
      recipients := builder.recipients;
      embeddedImages := builder.embeddedImages;
      attachments := builder.attachments;
      headers := builder.headers;
      id := builder.id;
      fromRecipient := builder.fromRecipient;
      replyToRecipient := builder.replyToRecipient;
      bounceToRecipient := builder.bounceToRecipient;
      text := builder.text;
      textHTML := builder.textHTML;
      calendarMethod := builder.calendarMethod;
      textCalendar := builder.textCalendar;
      subject := builder.subject;
      useDispositionNotificationTo := builder.useDispositionNotificationTo;
      useReturnReceiptTo := builder.useReturnReceiptTo;
      dispositionNotificationTo := builder.dispositionNotificationTo;
      returnReceiptTo := builder.returnReceiptTo;
      emailToForward := builder.emailToForward;
      new;
      if useDispositionNotificationTo && ValueNullOrEmpty(builder.dispositionNotificationTo) {
        if builder.replyToRecipient.Some? {
          dispositionNotificationTo := builder.replyToRecipient;
        } else {
          dispositionNotificationTo := builder.fromRecipient;
        }
      }
      if useReturnReceiptTo && ValueNullOrEmpty(builder.dispositionNotificationTo) {
        if builder.replyToRecipient.Some? {
          returnReceiptTo := builder.replyToRecipient;
        } else {
          returnReceiptTo := builder.fromRecipient;
        }
      }
    }

    /** Records the message id assigned when the email was sent; nothing else changes. */
    method InternalSetId(newId: string)
      modifies this`id
      ensures Data() == old(Data()).(id := Some(newId))
    {
      id := Some(newId);
    }

    /** Every email hashes to the same value. */
    function HashCode(): int {
      0
    }

    /** Identity, or another `Email` whose fields all hold equal values. */
    predicate Equals(o: object?)
      reads this, o
      ensures Equals(o) ==> o is Email
      ensures this == o ==> Equals(o)
    {
      this == o || (o != null && o is Email && (o as Email).Data() == Data())
    }

    /**
     * The text of the email: the fixed part, then each optional section in the
     * order the fields are declared, then the closing brace. The headers appear
     * in the iteration order of the map, which the model leaves open.
     */
    method ToString() returns (s: string)
      ensures exists order :: IsKeyOrder(order, headers) && s == Render(Data(), order)
    {
      var order := KeyOrder(headers);
      s := Render(Data(), order);
    }
  }

  /**
   * The order in which a map hands out its keys: every key once. Which key
   * comes next is left open, as it is for a hash map.
   */
  method KeyOrder(h: map<string, string>) returns (order: seq<string>)
    ensures IsKeyOrder(order, h)
  {
    var rest := h.Keys;
    order := [];
    while rest != {}
      invariant rest <= h.Keys
      invariant KeysOf(order, h)
      invariant forall i :: 0 <= i < |order| ==> order[i] !in rest
      invariant forall k :: k in h ==> k in rest || k in order
      invariant forall i, j :: 0 <= i < j < |order| ==> order[i] != order[j]
      decreases rest
    {
      var k :| k in rest;
      order := order + [k];
      rest := rest - {k};
    }
  }

  /** `checkNonEmptyArgument(builder, "builder")`, then the constructor. */
  method NewEmail(builder: Option<EmailPopulatingBuilder>) returns (r: Result<Email, Error>)
    ensures builder.None? <==> r.Failure?
    ensures builder.None? ==> r == Failure(EmptyArgument("builder"))
    ensures builder.Some? ==> r.Success? && fresh(r.value) && r.value.Data() == FromBuilder(builder.value)
  {
    if builder.None? {
      return Failure(EmptyArgument("builder"));
    }
    var e := new Email(builder.value);
    return Success(e);
  }

  lemma EqualsReflexive(a: Email)
    ensures a.Equals(a)
  {
  }

  lemma EqualsNull(a: Email)
    ensures !a.Equals(null)
  {
  }

  lemma EqualsSymmetric(a: Email, b: Email)
    ensures a.Equals(b) <==> b.Equals(a)
  {
  }

  lemma EqualsTransitive(a: Email, b: Email, c: Email)
    requires a.Equals(b) && b.Equals(c)
    ensures a.Equals(c)
  {
  }

  /** An object of another class is never equal to an email. */
  lemma EqualsOtherClass(a: Email, o: object)
    requires !(o is Email)
    ensures !a.Equals(o)
  {
  }

  /** Equal emails have equal hash codes. */
  lemma HashCodeAgreesWithEquals(a: Email, b: Email)
    requires a.Equals(b)
    ensures a.HashCode() == b.HashCode()
  {
  }

  /** Two emails built from the same builder are equal, though distinct objects. */
  lemma SameBuilderEqual(a: Email, b: Email, builder: EmailPopulatingBuilder)
    requires a.Data() == FromBuilder(builder) && b.Data() == FromBuilder(builder)
    ensures a.Equals(b)
  {
  }
}
