/**
 * The booking hand-off: the modal composes a greeting from the optional
 * name, business and note fields and the chosen service's prefilled
 * text, and opens a WhatsApp deep link that carries it, percent-encoded,
 * as the `text` query parameter. Nothing is sent to a server and nothing
 * can fail; opening the link is left to the browser.
 */
module Booking {
  import opened Wrappers
  import opened Text
  import opened UriEncoding

  /** The agency's WhatsApp number, as the deep link spells it. */
  const WhatsAppNumber: string := "27619229670"
  /** Who the greeting names when the name field is left empty. */
  const DefaultName: string := "a potential client"
  /** Everything of a deep link up to the encoded message. */
  const WaPrefix: string := "https://wa.me/" + WhatsAppNumber + "?text="

  /** A service card: its identifier, title and the text a booking for it always carries. */
  datatype Service = Service(id: string, title: string, msg: string)

  ghost predicate StartsWith(s: string, p: string) {
    |p| <= |s| && s[..|p|] == p
  }

  ghost predicate EndsWith(s: string, p: string) {
    |p| <= |s| && s[|s| - |p|..] == p
  }

  /** The name the greeting uses: the field as typed, not trimmed, or the default when it is empty. */
  function Who(name: string): (who: string)
    ensures who != []
    ensures name != [] ==> who == name
    ensures name == [] ==> who == DefaultName
  {
    if name == "" then DefaultName else name
  }

  /** " from <business>" when a business was given. */
  function FromClause(business: string): (clause: string)
    ensures clause == [] <==> business == []
    ensures business != [] ==> |clause| == 6 + |business| && clause[6..] == business
  {
    if business == "" then "" else " from " + business
  }

  /** The "Additional info" paragraph, built from the trimmed note, when there is anything left of it. */
  function InfoClause(note: string): (clause: string)
    ensures clause == [] <==> Trim(note) == []
    ensures Trim(note) != [] ==> |clause| == 19 + |Trim(note)| && clause[19..] == Trim(note)
  {
    var custom := Trim(note);
    if custom == "" then "" else "\n\nAdditional info: " + custom
  }

  /** "Hi! I'm <who>" followed by the optional business clause. */
  function Opening(name: string, business: string): string {
    "Hi! I'm " + Who(name) + FromClause(business)
  }

  /** The part of the message before the optional note: the opening, a blank line and the service's text. */
  function Head(name: string, business: string, service: Service): string {
    Opening(name, business) + ".\n\n" + service.msg
  }

  /** handleBook's message: the head, then the note's paragraph if there is one. */
  function BookingMessage(name: string, business: string, note: string, service: Service): string {
    Head(name, business, service) + InfoClause(note)
  }

  // Facts about concatenation, stated over arbitrary strings. Without them
  // the greeting and clause lemmas below make the solver unfold the
  // message's literal text, which runs out of resource.

  lemma PrefixOfAppend(s: string, p: string, q: string)
    requires StartsWith(s, p)
    ensures StartsWith(s + q, p)
  {
    assert (s + q)[..|p|] == s[..|p|];
  }

  lemma SuffixOfConcat(p: string, q: string)
    ensures EndsWith(p + q, q)
  {
    assert (p + q)[|p|..] == q;
  }

  lemma Regroup(a: string, b: string, c: string)
    ensures a + (b + c) == a + b + c
  {
  }

  /** The message opens with "Hi! I'm " and the name, or the default name when the field is empty. */
  lemma GreetingPrefix(name: string, business: string, note: string, service: Service)
    ensures StartsWith(BookingMessage(name, business, note, service), "Hi! I'm " + Who(name))
  {
    var g := "Hi! I'm " + Who(name);
    PrefixOfAppend(g, g, FromClause(business));
    PrefixOfAppend(Opening(name, business), g, ".\n\n");
    PrefixOfAppend(Opening(name, business) + ".\n\n", g, service.msg);
    PrefixOfAppend(Head(name, business, service), g, InfoClause(note));
  }

  /** An empty name field reads exactly as if the client had typed "a potential client". */
  lemma EmptyNameIsDefault(business: string, note: string, service: Service)
    ensures BookingMessage("", business, note, service) == BookingMessage(DefaultName, business, note, service)
  {
  }

  /** With a business given, the greeting names it right after the name. */
  lemma BusinessClausePresent(name: string, business: string, note: string, service: Service)
    requires business != []
    ensures StartsWith(BookingMessage(name, business, note, service), "Hi! I'm " + Who(name) + " from " + business + ".\n\n")
  {
    var g := "Hi! I'm " + Who(name);
    var p := g + " from " + business + ".\n\n";
    Regroup(g, " from ", business);
    assert Opening(name, business) + ".\n\n" == p;
    PrefixOfAppend(p, p, service.msg);
    PrefixOfAppend(Head(name, business, service), p, InfoClause(note));
  }

  /** Without a business, the name is followed at once by the service's text. */
  lemma BusinessClauseAbsent(name: string, business: string, note: string, service: Service)
    requires business == []
    ensures StartsWith(BookingMessage(name, business, note, service), "Hi! I'm " + Who(name) + ".\n\n" + service.msg)
  {
  }

  /** Without a usable note, the message ends with the service's text. */
  lemma NoteClauseAbsent(name: string, business: string, note: string, service: Service)
    requires Trim(note) == []
    ensures EndsWith(BookingMessage(name, business, note, service), ".\n\n" + service.msg)
  {
  }

  /** With a usable note, the service's text is followed by the note's paragraph, which ends the message. */
  lemma NoteClausePresent(name: string, business: string, note: string, service: Service)
    requires Trim(note) != []
    ensures EndsWith(BookingMessage(name, business, note, service), ".\n\n" + service.msg + "\n\nAdditional info: " + Trim(note))
  {
    var o, d, l := Opening(name, business), ".\n\n", "\n\nAdditional info: ";
    var t := d + service.msg + l + Trim(note);
    assert InfoClause(note) == l + Trim(note);
    Regroup(d + service.msg, l, Trim(note));
    Regroup(o, d, service.msg);
    Regroup(o, d + service.msg, l + Trim(note));
    SuffixOfConcat(o, t);
  }

  /** The message is exactly as long as the clauses that are present. */
  lemma MessageLength(name: string, business: string, note: string, service: Service)
    ensures |BookingMessage(name, business, note, service)|
            == 8 + |Who(name)| + (if business == [] then 0 else 6 + |business|) + 3 + |service.msg|
               + (if Trim(note) == [] then 0 else 19 + |Trim(note)|)
  {
  }

  /** Only the trimmed note matters: padding it with white space does not change the message. */
  lemma NoteOnlyMattersTrimmed(name: string, business: string, note: string, service: Service)
    ensures BookingMessage(name, business, note, service) == BookingMessage(name, business, Trim(note), service)
  {
    TrimIdempotent(note);
  }

  /** A blank note is the same as no note. */
  lemma BlankNoteIsNoNote(name: string, business: string, note: string, service: Service)
    requires AllWhiteSpace(note)
    ensures BookingMessage(name, business, note, service) == Head(name, business, service)
  {
    TrimEmptyIffBlank(note);
  }

  /** The message carries the note faithfully: two notes give the same message exactly when they trim to the same text. */
  lemma NoteDeterminesMessage(name: string, business: string, note1: string, note2: string, service: Service)
    ensures BookingMessage(name, business, note1, service) == BookingMessage(name, business, note2, service)
            <==> Trim(note1) == Trim(note2)
  {
    var h := Head(name, business, service);
    var m1, m2 := BookingMessage(name, business, note1, service), BookingMessage(name, business, note2, service);
    if m1 == m2 {
      var c1, c2 := InfoClause(note1), InfoClause(note2);
      assert c1 == m1[|h|..] == m2[|h|..] == c2;
      if Trim(note1) != [] && Trim(note2) != [] {
        assert Trim(note1) == c1[19..] == c2[19..] == Trim(note2);
      }
    }
  }

  /** waLink: the deep link whose `text` parameter is the percent-encoded message. */
  function WaLink(msg: string): (url: string)
    ensures StartsWith(url, WaPrefix)
    ensures forall k :: |WaPrefix| <= k < |url| ==> UriSafe(url[k])
  {
    EncodingIsUriSafe(msg);
    WaPrefix + EncodeUriComponent(msg)
  }

  /** What a receiver reads back from a deep link: the decoded `text` parameter, if the link is one of ours and decodes. */
  function DecodeWaLink(url: string): Option<string> {
    if |url| >= |WaPrefix| && url[..|WaPrefix|] == WaPrefix then DecodeUriComponent(url[|WaPrefix|..])
    else None
  }

  /** Every message survives the deep link unchanged. */
  lemma WaLinkRoundTrip(msg: string)
    ensures DecodeWaLink(WaLink(msg)) == Some(msg)
  {
    var url := WaLink(msg);
    assert url[|WaPrefix|..] == EncodeUriComponent(msg);
    UriRoundTrip(msg);
  }

  /** The URL handleBook opens: the same shape as waLink, carrying the composed message. */
  function BookingUrl(name: string, business: string, note: string, service: Service): (url: string)
    ensures url == WaLink(BookingMessage(name, business, note, service))
    ensures DecodeWaLink(url) == Some(BookingMessage(name, business, note, service))
  {
    WaLinkRoundTrip(BookingMessage(name, business, note, service));
    "https://wa.me/" + WhatsAppNumber + "?text=" + EncodeUriComponent(BookingMessage(name, business, note, service))
  }
}
