/** The contact block of the match emails: the preferred contact when one
    is given, the profile's phone when the profile shares it, and the email
    address only when neither of the other two is shown. */
module Contact {
  import opened Common

  /** The profile fields the block reads. */
  datatype ContactProfile = ContactProfile(sharePhone: bool, phone: Option<string>, email: Option<string>)

  /** A preferred-contact dictionary with its "mode" and "value" keys. */
  datatype PreferredContact = PreferredContact(mode: Option<string>, value: Option<string>)

  /** One line of the block. */
  datatype Line =
    | Preferred(mode: string, value: string)
    | ProfilePhone(phone: string)
    | EmailAddress(email: Option<string>)

  /** A preferred contact counts when both its mode and its value are non-empty. */
  predicate HasPreferred(contact: Option<PreferredContact>) {
    contact.Some? && Filled(contact.value.mode) && Filled(contact.value.value)
  }

  /** The profile's phone is shown when sharing is on and a phone is set. */
  predicate ShowsPhone(profile: ContactProfile) {
    profile.sharePhone && Filled(profile.phone)
  }

  /** The lines of `format_contact_info`, in order: the preferred contact if
      given, then the profile phone if shared, and the email line exactly
      when neither of those was produced. */
  function ContactLines(profile: ContactProfile, contact: Option<PreferredContact>): (lines: seq<Line>)
    ensures 1 <= |lines| <= 2
    ensures lines[0].Preferred? <==> HasPreferred(contact)
    ensures lines[|lines| - 1].ProfilePhone? <==> ShowsPhone(profile)
    ensures lines[0].EmailAddress? <==> !HasPreferred(contact) && !ShowsPhone(profile)
    ensures |lines| == 2 <==> HasPreferred(contact) && ShowsPhone(profile)
    ensures HasPreferred(contact) ==> lines[0] == Preferred(contact.value.mode.value, contact.value.value.value)
    ensures ShowsPhone(profile) ==> lines[|lines| - 1] == ProfilePhone(profile.phone.value)
    ensures lines[0].EmailAddress? ==> lines == [EmailAddress(profile.email)]
  {
    var preferred := if HasPreferred(contact) then [Preferred(contact.value.mode.value, contact.value.value.value)] else [];
    var phone := if ShowsPhone(profile) then [ProfilePhone(profile.phone.value)] else [];
    if preferred + phone == [] then [EmailAddress(profile.email)] else preferred + phone
  }

  /** How Python formats an optional string inside an f-string. */
  function Show(s: Option<string>): string {
    match s
    case Some(t) => t
    case None => "None"
  }

  /** The text of one line. */
  function Render(line: Line): string {
    match line
    case Preferred(mode, value) => mode + ": " + value + " (preferred)"
    case ProfilePhone(phone) => "Phone (from profile): " + phone
    case EmailAddress(email) => "Email: " + Show(email)
  }

  const Separator: string := "<br>"

  /** `sep.join(parts)`. */
  function Join(parts: seq<string>, sep: string): (r: string)
    ensures |parts| == 1 ==> r == parts[0]
    ensures |parts| > 0 ==> parts[0] <= r
    decreases |parts|
  {
    if parts == [] then ""
    else if |parts| == 1 then parts[0]
    else Join(parts[..|parts| - 1], sep) + sep + parts[|parts| - 1]
  }

  /** `format_contact_info`: the rendered lines joined by "<br>". The block
      opens with the preferred contact when one is given, otherwise with the
      shared phone, otherwise with the email line. */
  function FormatContactInfo(profile: ContactProfile, contact: Option<PreferredContact>): (r: string)
    ensures HasPreferred(contact) ==> Render(Preferred(contact.value.mode.value, contact.value.value.value)) <= r
    ensures !HasPreferred(contact) && ShowsPhone(profile) ==> Render(ProfilePhone(profile.phone.value)) <= r
    ensures !HasPreferred(contact) && !ShowsPhone(profile) ==> Render(EmailAddress(profile.email)) <= r
  {
    var lines := ContactLines(profile, contact);
    Join(seq(|lines|, i requires 0 <= i < |lines| => Render(lines[i])), Separator)
  }

  /** With both a preferred contact and a shared phone the block is the two
      lines separated once; with only one of them it is that line alone;
      with neither it is the email line. */
  lemma FormatCases(profile: ContactProfile, contact: Option<PreferredContact>)
    ensures HasPreferred(contact) && ShowsPhone(profile) ==>
      FormatContactInfo(profile, contact)
        == Render(Preferred(contact.value.mode.value, contact.value.value.value)) + Separator
           + Render(ProfilePhone(profile.phone.value))
    ensures HasPreferred(contact) && !ShowsPhone(profile) ==>
      FormatContactInfo(profile, contact) == Render(Preferred(contact.value.mode.value, contact.value.value.value))
    ensures !HasPreferred(contact) && ShowsPhone(profile) ==>
      FormatContactInfo(profile, contact) == "Phone (from profile): " + profile.phone.value
    ensures !HasPreferred(contact) && !ShowsPhone(profile) ==>
      FormatContactInfo(profile, contact) == "Email: " + Show(profile.email)
  {
    var lines := ContactLines(profile, contact);
    var parts := seq(|lines|, i requires 0 <= i < |lines| => Render(lines[i]));
    if |lines| == 2 {
      assert parts[..1] == [parts[0]];
    }
  }
}
