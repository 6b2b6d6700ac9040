/**
 * The text `Email.toString` produces (Email.java lines 190-224), as functions of
 * the email's fields. Java renders `null` as "null", a `List` as "[a, b]" and a
 * `Map` as "{k=v, ...}" in the map's own iteration order; that order is not
 * fixed, so the rendering of the headers takes it as `order`.
 */
module EmailText {
  import opened Wrappers
  import opened EmailModel
  import Decimal

  /** Java's string concatenation of a possibly-null string. */
  function OptText(o: Option<string>): string {
    match o
    case None => "null"
    case Some(v) => v
  }

  function KindText(k: RecipientType): string {
    match k
    case TO => "TO"
    case CC => "CC"
    case BCC => "BCC"
  }

  function RecipientText(r: Recipient): (t: string)
    ensures |t| > 0 && t[|t| - 1] == '}'
  {
    "Recipient{name='" + OptText(r.name) + "', address='" + r.address + "', type=" + KindText(r.kind) + "}"
  }

  /** The characters a rendered list, map or recipient, or "null", ends with. */
  predicate IsClosing(c: char) {
    c == ']' || c == '}' || c == 'l'
  }

  /** `t` is empty or ends with a closing character. */
  predicate EndsClosed(t: string) {
    t == "" || IsClosing(t[|t| - 1])
  }

  function OptRecipientText(o: Option<Recipient>): (t: string)
    ensures |t| > 0 && EndsClosed(t)
  {
    match o
    case None => "null"
    case Some(r) => RecipientText(r)
  }

  function AttachmentText(a: AttachmentResource): string {
    "AttachmentResource{name='" + a.name + "', dataSource=" + Decimal.NatToString(a.dataSource.handle) + "}"
  }

  /** The items separated by ", ". */
  function Join(items: seq<string>): string {
    if |items| == 0 then ""
    else if |items| == 1 then items[0]
    else Join(items[..|items| - 1]) + ", " + items[|items| - 1]
  }

  /** `AbstractCollection.toString`: the items in order between brackets. */
  function ListText(items: seq<string>): (t: string)
    ensures |t| >= 2 && t[0] == '[' && t[|t| - 1] == ']'
  {
    "[" + Join(items) + "]"
  }

  function RecipientItems(rs: seq<Recipient>): (items: seq<string>)
    ensures |items| == |rs|
    ensures forall i :: 0 <= i < |rs| ==> items[i] == RecipientText(rs[i])
  {
    if rs == [] then [] else RecipientItems(rs[..|rs| - 1]) + [RecipientText(rs[|rs| - 1])]
  }

  function RecipientsText(rs: seq<Recipient>): string {
    ListText(RecipientItems(rs))
  }

  function AttachmentItems(rs: seq<AttachmentResource>): (items: seq<string>)
    ensures |items| == |rs|
    ensures forall i :: 0 <= i < |rs| ==> items[i] == AttachmentText(rs[i])
  {
    if rs == [] then [] else AttachmentItems(rs[..|rs| - 1]) + [AttachmentText(rs[|rs| - 1])]
  }

  function AttachmentsText(rs: seq<AttachmentResource>): string {
    ListText(AttachmentItems(rs))
  }

  /** Every entry of `order` is a key of `h`. */
  predicate KeysOf(order: seq<string>, h: map<string, string>) {
    forall i :: 0 <= i < |order| ==> order[i] in h
  }

  /** `order` lists every key of `h` exactly once: an iteration order of the map. */
  ghost predicate IsKeyOrder(order: seq<string>, h: map<string, string>) {
    && KeysOf(order, h)
    && (forall k :: k in h ==> k in order)
    && (forall i, j :: 0 <= i < j < |order| ==> order[i] != order[j])
  }

  /** The entries "k=v" of `h`, in `order`. */
  function Entries(order: seq<string>, h: map<string, string>): (items: seq<string>)
    requires KeysOf(order, h)
    ensures |items| == |order|
    ensures forall i :: 0 <= i < |order| ==> items[i] == order[i] + "=" + h[order[i]]
  {
    if order == [] then []
    else
      var k := order[|order| - 1];
      Entries(order[..|order| - 1], h) + [k + "=" + h[k]]
  }

  /** `AbstractMap.toString`: the entries "k=v" in `order` between braces. */
  function MapText(order: seq<string>, h: map<string, string>): (t: string)
    requires KeysOf(order, h)
    ensures |t| >= 2 && t[0] == '{' && t[|t| - 1] == '}'
  {
    "{" + Join(Entries(order, h)) + "}"
  }

  lemma PrefixOfConcat(a: string, b: string)
    ensures (a + b)[..|a|] == a && (a + b)[|a|..] == b
  {
  }

  lemma PrefixKept(a: string, b: string, n: nat)
    requires n <= |a|
    ensures (a + b)[..n] == a[..n]
  {
  }

  lemma SuffixKept(a: string, b: string, n: nat)
    requires n <= |b|
    ensures (a + b)[|a + b| - n..] == b[|b| - n..]
  {
  }

  lemma ConcatAssoc(a: string, b: string, c: string)
    ensures (a + b) + c == a + (b + c)
  {
  }

  lemma LastOfConcat(a: string, b: string)
    requires |b| > 0
    ensures (a + b)[|a + b| - 1] == b[|b| - 1]
  {
  }

  /** The parts one after the other. */
  function Concat(parts: seq<string>): string {
    if |parts| == 0 then "" else Concat(parts[..|parts| - 1]) + parts[|parts| - 1]
  }

  lemma {:induction false} ConcatStartsWithFirst(parts: seq<string>)
    requires |parts| > 0
    ensures |parts[0]| <= |Concat(parts)| && Concat(parts)[..|parts[0]|] == parts[0]
  {
    if |parts| > 1 {
      var init := parts[..|parts| - 1];
      ConcatStartsWithFirst(init);
      assert init[0] == parts[0];
      PrefixOfConcat(Concat(init), parts[|parts| - 1]);
    }
  }

  /** The fixed part: id, participants, bodies, subject and recipients. */
  function Head(d: EmailData): (t: string)
    ensures |t| > 6 && t[..6] == "Email{" && t[|t| - 1] == ']'
  {
    var parts := [
      "Email{",
      "\n\tid=", OptText(d.id),
      "\n\tfromRecipient=", OptRecipientText(d.fromRecipient),
      ",\n\treplyToRecipient=", OptRecipientText(d.replyToRecipient),
      ",\n\tbounceToRecipient=", OptRecipientText(d.bounceToRecipient),
      ",\n\ttext='", OptText(d.text), "'",
      ",\n\ttextHTML='", OptText(d.textHTML), "'",
      ",\n\ttextCalendar='", OptText(d.textCalendar), "'",
      ",\n\tsubject='", OptText(d.subject), "'",
      ",\n\trecipients=", RecipientsText(d.recipients)];
    ConcatStartsWithFirst(parts);
    LastOfConcat(Concat(parts[..|parts| - 1]), parts[|parts| - 1]);
    Concat(parts)
  }

  function DispositionSection(target: Option<Recipient>): (t: string)
    ensures |t| > 0 && EndsClosed(t)
  {
    var r := OptRecipientText(target);
    LastOfConcat(",\n\tuseDispositionNotificationTo=true,\n\t\tdispositionNotificationTo=", r);
    ",\n\tuseDispositionNotificationTo=true,\n\t\tdispositionNotificationTo=" + r
  }

  /** The disposition section when requested, else nothing. */
  function DispositionPart(use: bool, target: Option<Recipient>): (t: string)
    ensures EndsClosed(t)
  {
    if use then DispositionSection(target) else ""
  }

  function ReturnReceiptSection(target: Option<Recipient>): (t: string)
    ensures |t| > 0 && EndsClosed(t)
  {
    var r := OptRecipientText(target);
    LastOfConcat(",\n\tuseReturnReceiptTo=true,\n\t\treturnReceiptTo=", r);
    ",\n\tuseReturnReceiptTo=true,\n\t\treturnReceiptTo=" + r
  }

  /** The return-receipt section when requested, else nothing. */
  function ReturnReceiptPart(use: bool, target: Option<Recipient>): (t: string)
    ensures EndsClosed(t)
  {
    if use then ReturnReceiptSection(target) else ""
  }

  /** The headers section: present exactly when there is a header. */
  function HeadersSection(headers: map<string, string>, order: seq<string>): (t: string)
    requires KeysOf(order, headers)
    ensures |t| == 0 <==> |headers| == 0
    ensures EndsClosed(t)
  {
    if |headers| > 0 then
      LastOfConcat(",\n\theaders=", MapText(order, headers));
      ",\n\theaders=" + MapText(order, headers)
    else ""
  }

  /** The embedded-images section: present exactly when there is an embedded image. */
  function EmbeddedImagesSection(images: seq<AttachmentResource>): (t: string)
    ensures |t| == 0 <==> |images| == 0
    ensures EndsClosed(t)
  {
    if |images| > 0 then
      LastOfConcat(",\n\tembeddedImages=", AttachmentsText(images));
      ",\n\tembeddedImages=" + AttachmentsText(images)
    else ""
  }

  /** The attachments section: present exactly when there is an attachment. */
  function AttachmentsSection(attachments: seq<AttachmentResource>): (t: string)
    ensures |t| == 0 <==> |attachments| == 0
    ensures EndsClosed(t)
  {
    if |attachments| > 0 then
      LastOfConcat(",\n\tattachments=", AttachmentsText(attachments));
      ",\n\tattachments=" + AttachmentsText(attachments)
    else ""
  }

  const ForwardSection := ",\n\tforwardingEmail=true"

  /** The header, embedded-image and attachment sections, each present only when non-empty. */
  function CollectionSections(headers: map<string, string>, order: seq<string>,
                              images: seq<AttachmentResource>, attachments: seq<AttachmentResource>): (t: string)
    requires KeysOf(order, headers)
    ensures EndsClosed(t)
  {
    var i := EmbeddedImagesSection(images);
    var a := AttachmentsSection(attachments);
    EndsInConcat(i, a);
    EndsInConcat(HeadersSection(headers, order), i + a);
    HeadersSection(headers, order) + (i + a)
  }

  /** The return-receipt section, if requested, then the collection sections. */
  function AfterDisposition(d: EmailData, order: seq<string>): (t: string)
    requires KeysOf(order, d.headers)
    ensures EndsClosed(t)
  {
    var c := CollectionSections(d.headers, order, d.embeddedImages, d.attachments);
    EndsInConcat(ReturnReceiptPart(d.useReturnReceiptTo, d.returnReceiptTo), c);
    ReturnReceiptPart(d.useReturnReceiptTo, d.returnReceiptTo) + c
  }

  /** Everything after the fixed part and before the forwarding marker. */
  function Sections(d: EmailData, order: seq<string>): (t: string)
    requires KeysOf(order, d.headers)
    ensures EndsClosed(t)
  {
    var rest := AfterDisposition(d, order);
    EndsInConcat(DispositionPart(d.useDispositionNotificationTo, d.dispositionNotificationTo), rest);
    DispositionPart(d.useDispositionNotificationTo, d.dispositionNotificationTo) + rest
  }

  /** Everything before the forwarding marker and the closing brace. */
  function Content(d: EmailData, order: seq<string>): (t: string)
    requires KeysOf(order, d.headers)
    ensures |t| > 6 && t[..6] == "Email{" && IsClosing(t[|t| - 1])
  {
    var h := Head(d);
    var rest := Sections(d, order);
    PrefixKept(h, rest, 6);
    EndsInConcat(h, rest);
    h + rest
  }

  /** The forwarding marker, if a message is forwarded, and the closing brace. */
  function Tail(forwarded: Option<MimeMessage>): (t: string)
    ensures |t| >= 2 && t[|t| - 2..] == "\n}"
  {
    var f := if forwarded.Some? then ForwardSection else "";
    SuffixKept(f, "\n}", 2);
    f + "\n}"
  }

  /** `Email.toString`, for the headers iterated in `order`. */
  function Render(d: EmailData, order: seq<string>): (s: string)
    requires KeysOf(order, d.headers)
    ensures |s| >= 8 && s[..6] == "Email{" && s[|s| - 2..] == "\n}"
  {
    var c := Content(d, order);
    var t := Tail(d.emailToForward);
    PrefixKept(c, t, 6);
    SuffixKept(c, t, 2);
    c + t
  }

  predicate EndsWith(s: string, suffix: string) {
    |suffix| <= |s| && s[|s| - |suffix|..] == suffix
  }

  lemma EndsInConcat(a: string, b: string)
    requires EndsClosed(a) && EndsClosed(b)
    ensures EndsClosed(a + b)
  {
    if b != "" {
      LastOfConcat(a, b);
    } else {
      assert a + b == a;
    }
  }

  /** The text ends with the forwarding marker exactly when a message is being forwarded. */
  lemma ForwardingMarkerIffForwarding(d: EmailData, order: seq<string>)
    requires KeysOf(order, d.headers)
    ensures EndsWith(Render(d, order), ForwardSection + "\n}") <==> d.emailToForward.Some?
  {
    var c := Content(d, order);
    var s := Render(d, order);
    var marker := ForwardSection + "\n}";
    if d.emailToForward.Some? {
      assert s == c + marker;
      SuffixKept(c, marker, |marker|);
    } else {
      assert s == c + "\n}";
      assert s[|s| - 3] == c[|c| - 1] != 'e';
      assert marker[|marker| - 3] == 'e';
      assert |marker| <= |s| ==> s[|s| - |marker|..][|marker| - 3] == s[|s| - 3];
    }
  }

  /** `on` is `off` with `x` inserted at position `k`. */
  predicate InsertedAt(on: string, off: string, k: int, x: string) {
    0 <= k <= |off| && on == off[..k] + x + off[k..]
  }

  /** Placing `x` between `a` and `b` is inserting it into `a + b` at position `|a|`. */
  lemma InsertBetween(a: string, x: string, b: string)
    ensures var s := a + b; |a| <= |s| && a + (x + b) == s[..|a|] + x + s[|a|..]
  {
    PrefixOfConcat(a, b);
  }

  /**
   * Requesting a disposition notification inserts its section right after the
   * recipients and changes nothing else in the text.
   */
  lemma DispositionSectionInserted(d: EmailData, order: seq<string>)
    requires KeysOf(order, d.headers)
    ensures var off := Render(d.(useDispositionNotificationTo := false), order);
            var on := Render(d.(useDispositionNotificationTo := true), order);
            var k := |Head(d)|;
            k <= |off| && on == off[..k] + DispositionSection(d.dispositionNotificationTo) + off[k..]
  {
    var off := d.(useDispositionNotificationTo := false);
    var on := d.(useDispositionNotificationTo := true);
    var h, x := Head(d), DispositionSection(d.dispositionNotificationTo);
    var a, t := AfterDisposition(d, order), Tail(d.emailToForward);
    assert Head(off) == Head(on) == h;
    assert AfterDisposition(off, order) == AfterDisposition(on, order) == a;
    assert Sections(off, order) == "" + a == a;
    assert Sections(on, order) == x + a;
    ConcatAssoc(h, a, t);
    ConcatAssoc(h, x + a, t);
    ConcatAssoc(x, a, t);
    InsertBetween(h, x, a + t);
  }

  /** Requesting a return receipt inserts its section after the disposition section, if any, and changes nothing else. */
  lemma ReturnReceiptSectionInserted(d: EmailData, order: seq<string>)
    requires KeysOf(order, d.headers)
    ensures var off := Render(d.(useReturnReceiptTo := false), order);
            var on := Render(d.(useReturnReceiptTo := true), order);
            var k := |Head(d)| + (if d.useDispositionNotificationTo then |DispositionSection(d.dispositionNotificationTo)| else 0);
            k <= |off| && on == off[..k] + ReturnReceiptSection(d.returnReceiptTo) + off[k..]
  {
    var off := d.(useReturnReceiptTo := false);
    var on := d.(useReturnReceiptTo := true);
    var h, p := Head(d), DispositionPart(d.useDispositionNotificationTo, d.dispositionNotificationTo);
    var x := ReturnReceiptSection(d.returnReceiptTo);
    var c, t := CollectionSections(d.headers, order, d.embeddedImages, d.attachments), Tail(d.emailToForward);
    assert Head(off) == Head(on) == h;
    assert AfterDisposition(off, order) == "" + c == c;
    assert AfterDisposition(on, order) == x + c;
    // off: (h + (p + c)) + t, on: (h + (p + (x + c))) + t
    ConcatAssoc(h, p + c, t);
    ConcatAssoc(p, c, t);
    ConcatAssoc(h, p, c + t);
    ConcatAssoc(h, p + (x + c), t);
    ConcatAssoc(p, x + c, t);
    ConcatAssoc(x, c, t);
    ConcatAssoc(h, p, x + (c + t));
    InsertBetween(h + p, x, c + t);
  }

  /** The two flag parts: the disposition section, then the return-receipt section, each when requested. */
  function FlagParts(d: EmailData): string {
    DispositionPart(d.useDispositionNotificationTo, d.dispositionNotificationTo)
    + ReturnReceiptPart(d.useReturnReceiptTo, d.returnReceiptTo)
  }

  /** The rendering as the fixed part, the flag parts, the collection sections and the tail. */
  lemma RenderAroundCollections(d: EmailData, order: seq<string>)
    requires KeysOf(order, d.headers)
    ensures Render(d, order)
      == Head(d) + FlagParts(d) + CollectionSections(d.headers, order, d.embeddedImages, d.attachments)
         + Tail(d.emailToForward)
  {
    ConcatAssoc(DispositionPart(d.useDispositionNotificationTo, d.dispositionNotificationTo),
                ReturnReceiptPart(d.useReturnReceiptTo, d.returnReceiptTo),
                CollectionSections(d.headers, order, d.embeddedImages, d.attachments));
    ConcatAssoc(Head(d), FlagParts(d), CollectionSections(d.headers, order, d.embeddedImages, d.attachments));
  }

  /** Placing `x` inside the middle part `a + b` of `p + (a + b) + t` is inserting it at `|p| + |a|`. */
  lemma InsertedInMiddle(p: string, a: string, x: string, b: string, t: string, on: string, off: string, k: int)
    requires on == p + (a + x + b) + t && off == p + (a + b) + t && k == |p| + |a|
    ensures InsertedAt(on, off, k, x)
  {
    ConcatAssoc(a + x, b, t);
    ConcatAssoc(a, x, b + t);
    ConcatAssoc(p, a + x + b, t);
    ConcatAssoc(p, a, x + (b + t));
    ConcatAssoc(a, b, t);
    ConcatAssoc(p, a + b, t);
    ConcatAssoc(p, a, b + t);
    InsertBetween(p + a, x, b + t);
  }

  /**
   * Two emails that render the same fixed part, flag parts and tail, and whose
   * collection sections differ by `x` placed after `a`, render texts that differ
   * by `x` inserted at that place.
   */
  lemma CollectionsDifferBy(d: EmailData, order: seq<string>, od: EmailData, oorder: seq<string>,
                            a: string, x: string, b: string, k: int)
    requires KeysOf(order, d.headers) && KeysOf(oorder, od.headers)
    requires Head(od) == Head(d) && FlagParts(od) == FlagParts(d) && Tail(od.emailToForward) == Tail(d.emailToForward)
    requires CollectionSections(d.headers, order, d.embeddedImages, d.attachments) == a + x + b
    requires CollectionSections(od.headers, oorder, od.embeddedImages, od.attachments) == a + b
    requires k == |Head(d)| + |FlagParts(d)| + |a|
    ensures InsertedAt(Render(d, order), Render(od, oorder), k, x)
  {
    RenderAroundCollections(d, order);
    RenderAroundCollections(od, oorder);
    InsertedInMiddle(Head(d) + FlagParts(d), a, x, b, Tail(d.emailToForward), Render(d, order), Render(od, oorder), k);
  }

  /** Dropping a collection changes neither the fixed part, nor the flag parts, nor the tail. */
  lemma SameFrame(d: EmailData, od: EmailData)
    requires od == d.(headers := od.headers, embeddedImages := od.embeddedImages, attachments := od.attachments)
    ensures Head(od) == Head(d) && FlagParts(od) == FlagParts(d) && Tail(od.emailToForward) == Tail(d.emailToForward)
  { }

  /** The collection sections, with the (possibly empty) headers section first. */
  lemma CollectionsHeadersFirst(d: EmailData, order: seq<string>)
    requires KeysOf(order, d.headers)
    ensures CollectionSections(d.headers, order, d.embeddedImages, d.attachments)
            == "" + HeadersSection(d.headers, order) + (EmbeddedImagesSection(d.embeddedImages) + AttachmentsSection(d.attachments))
  { }

  /** Without headers, only the later collection sections are left. */
  lemma CollectionsWithoutHeaders(d: EmailData, order: seq<string>)
    requires KeysOf(order, d.headers)
    ensures var od := d.(headers := map[]);
            CollectionSections(od.headers, [], od.embeddedImages, od.attachments)
            == "" + (EmbeddedImagesSection(d.embeddedImages) + AttachmentsSection(d.attachments))
  {
    assert HeadersSection(map[], []) == "";
  }

  /** The collection sections, left to right. */
  lemma CollectionsLeftToRight(d: EmailData, order: seq<string>)
    requires KeysOf(order, d.headers)
    ensures CollectionSections(d.headers, order, d.embeddedImages, d.attachments)
            == HeadersSection(d.headers, order) + EmbeddedImagesSection(d.embeddedImages) + AttachmentsSection(d.attachments)
  {
    ConcatAssoc(HeadersSection(d.headers, order), EmbeddedImagesSection(d.embeddedImages), AttachmentsSection(d.attachments));
  }

  /** Without embedded images, the headers and attachments sections are left. */
  lemma CollectionsWithoutEmbeddedImages(d: EmailData, order: seq<string>)
    requires KeysOf(order, d.headers)
    ensures var od := d.(embeddedImages := []);
            CollectionSections(od.headers, order, od.embeddedImages, od.attachments)
            == HeadersSection(d.headers, order) + AttachmentsSection(d.attachments)
  {
    assert EmbeddedImagesSection([]) == "";
  }

  /** The collection sections, left to right, with nothing after the attachments. */
  lemma CollectionsAttachmentsLast(d: EmailData, order: seq<string>)
    requires KeysOf(order, d.headers)
    ensures CollectionSections(d.headers, order, d.embeddedImages, d.attachments)
            == HeadersSection(d.headers, order) + EmbeddedImagesSection(d.embeddedImages) + AttachmentsSection(d.attachments) + ""
  {
    CollectionsLeftToRight(d, order);
  }

  /** Without attachments, the headers and embedded-images sections are left. */
  lemma CollectionsWithoutAttachments(d: EmailData, order: seq<string>)
    requires KeysOf(order, d.headers)
    ensures var od := d.(attachments := []);
            CollectionSections(od.headers, order, od.embeddedImages, od.attachments)
            == HeadersSection(d.headers, order) + EmbeddedImagesSection(d.embeddedImages) + ""
  {
    var hs, es := HeadersSection(d.headers, order), EmbeddedImagesSection(d.embeddedImages);
    assert AttachmentsSection([]) == "";
    assert es + "" == es;
  }

  /**
   * The headers section sits right after the flag sections: the text is the
   * text without headers, with that section inserted there.
   */
  lemma HeadersSectionInserted(d: EmailData, order: seq<string>)
    requires KeysOf(order, d.headers)
    ensures InsertedAt(Render(d, order), Render(d.(headers := map[]), []),
                       |Head(d) + FlagParts(d)|, HeadersSection(d.headers, order))
  {
    SameFrame(d, d.(headers := map[]));
    CollectionsHeadersFirst(d, order);
    CollectionsWithoutHeaders(d, order);
    CollectionsDifferBy(d, order, d.(headers := map[]), [], "", HeadersSection(d.headers, order),
                        EmbeddedImagesSection(d.embeddedImages) + AttachmentsSection(d.attachments),
                        |Head(d) + FlagParts(d)|);
  }

  /**
   * The embedded-images section sits right after the headers section: the
   * text is the text without embedded images, with that section inserted there.
   */
  lemma EmbeddedImagesSectionInserted(d: EmailData, order: seq<string>)
    requires KeysOf(order, d.headers)
    ensures InsertedAt(Render(d, order), Render(d.(embeddedImages := []), order),
                       |Head(d) + FlagParts(d) + HeadersSection(d.headers, order)|,
                       EmbeddedImagesSection(d.embeddedImages))
  {
    SameFrame(d, d.(embeddedImages := []));
    CollectionsLeftToRight(d, order);
    CollectionsWithoutEmbeddedImages(d, order);
    CollectionsDifferBy(d, order, d.(embeddedImages := []), order, HeadersSection(d.headers, order),
                        EmbeddedImagesSection(d.embeddedImages), AttachmentsSection(d.attachments),
                        |Head(d) + FlagParts(d) + HeadersSection(d.headers, order)|);
  }

  /**
   * The attachments section sits right after the embedded images, before any
   * forwarding marker: the text is the text without attachments, with that
   * section inserted there.
   */
  lemma AttachmentsSectionInserted(d: EmailData, order: seq<string>)
    requires KeysOf(order, d.headers)
    ensures InsertedAt(Render(d, order), Render(d.(attachments := []), order),
                       |Head(d) + FlagParts(d) + HeadersSection(d.headers, order) + EmbeddedImagesSection(d.embeddedImages)|,
                       AttachmentsSection(d.attachments))
  {
    SameFrame(d, d.(attachments := []));
    CollectionsAttachmentsLast(d, order);
    CollectionsWithoutAttachments(d, order);
    CollectionsDifferBy(d, order, d.(attachments := []), order,
                        HeadersSection(d.headers, order) + EmbeddedImagesSection(d.embeddedImages),
                        AttachmentsSection(d.attachments), "",
                        |Head(d) + FlagParts(d) + HeadersSection(d.headers, order) + EmbeddedImagesSection(d.embeddedImages)|);
  }

  /** With no flag, no collection entry and nothing forwarded, only the fixed part appears. */
  lemma MinimalRendering(d: EmailData)
    requires !d.useDispositionNotificationTo && !d.useReturnReceiptTo
    requires d.headers == map[] && d.embeddedImages == [] && d.attachments == []
    requires d.emailToForward.None?
    ensures KeysOf([], d.headers)
    ensures Render(d, []) == Head(d) + "\n}"
  {
    assert Sections(d, []) == "";
  }

  /** The order the text is built in, left to right, is the rendering. */
  lemma RenderLeftToRight(d: EmailData, order: seq<string>)
    requires KeysOf(order, d.headers)
    ensures Render(d, order)
      == Head(d)
         + DispositionPart(d.useDispositionNotificationTo, d.dispositionNotificationTo)
         + ReturnReceiptPart(d.useReturnReceiptTo, d.returnReceiptTo)
         + HeadersSection(d.headers, order)
         + EmbeddedImagesSection(d.embeddedImages)
         + AttachmentsSection(d.attachments)
         + (if d.emailToForward.Some? then ForwardSection else "")
         + "\n}"
  {
    LeftFold(Head(d),
             DispositionPart(d.useDispositionNotificationTo, d.dispositionNotificationTo),
             ReturnReceiptPart(d.useReturnReceiptTo, d.returnReceiptTo),
             HeadersSection(d.headers, order),
             EmbeddedImagesSection(d.embeddedImages),
             AttachmentsSection(d.attachments),
             if d.emailToForward.Some? then ForwardSection else "",
             "\n}");
  }

  /** The nesting `Render` uses, regrouped to the left. */
  lemma LeftFold(a: string, b: string, c: string, x: string, y: string, z: string, f: string, e: string)
    ensures (a + (b + (c + (x + (y + z))))) + (f + e) == ((((((a + b) + c) + x) + y) + z) + f) + e
  {
    ConcatAssoc(x, y, z);
    ConcatAssoc(c, x + y, z);
    ConcatAssoc(c, x, y);
    ConcatAssoc(b, (c + x) + y, z);
    ConcatAssoc(b, c + x, y);
    ConcatAssoc(b, c, x);
    ConcatAssoc(a, ((b + c) + x) + y, z);
    ConcatAssoc(a, (b + c) + x, y);
    ConcatAssoc(a, b + c, x);
    ConcatAssoc(a, b, c);
    ConcatAssoc(a + (b + (c + (x + (y + z)))), f, e);
  }
}
