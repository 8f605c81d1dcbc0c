/** Conversion of database rows (dictionaries, possibly with embedded rows
    of related tables) into the flat record the pages display. A missing
    key and a null value both read as `None`, as `dict.get` gives. */
module Mappers {
  import opened Common
  import opened Models

  /** A status as it arrives: absent or null, an enumeration member, or a
      plain string from the hosted database. */
  datatype StatusField = Absent | Member(member: MatchStatus) | Text(text: string)

  /** `_normalize_status`: "unknown" for a missing status, the member's
      stored string for an enumeration member, the string itself otherwise. */
  function NormalizeStatus(status: StatusField): (r: string)
    ensures status.Absent? ==> r == "unknown"
    ensures status.Member? ==> StatusFromValue(r) == Some(status.member)
    ensures status.Text? ==> r == status.text
  {
    match status
    case Absent => "unknown"
    case Member(s) => StatusRoundTrip(s, s); StatusValue(s)
    case Text(t) => t
  }

  /** A member and its stored string normalise to the same text, so rows
      from either version display alike. */
  lemma NormalizeAgrees(s: MatchStatus)
    ensures NormalizeStatus(Member(s)) == NormalizeStatus(Text(StatusValue(s)))
    ensures NormalizeStatus(Member(s)) != "unknown"
  {
  }

  /** The embedded profile of a listing: its name and postal code. */
  datatype ProfileRow = ProfileRow(fullName: Option<string>, postalCode: Option<string>)

  /** An offer or request row as a dictionary, with its owner's profile
      embedded when the query asked for it. */
  datatype ListingRow = ListingRow(
    id: Option<nat>,
    title: Option<string>,
    description: Option<string>,
    imageFileName: Option<string>,
    profile: Option<ProfileRow>)

  /** A row of the match table, with its offer and request embedded. */
  datatype MatchRow = MatchRow(
    id: nat,
    offerId: Option<nat>,
    requestId: Option<nat>,
    offer: Option<ListingRow>,
    request: Option<ListingRow>,
    status: StatusField)

  /** A match-request row with its offer and request embedded (under the
      keys "offers" and "requests"). */
  datatype MatchRequestRow = MatchRequestRow(
    id: nat,
    offerId: Option<nat>,
    requestId: Option<nat>,
    offers: Option<ListingRow>,
    requests: Option<ListingRow>,
    status: StatusField,
    message: Option<string>,
    requesterId: Option<string>,
    offererId: Option<string>)

  /** The display record. */
  datatype UIMatch = UIMatch(
    id: Option<nat>,
    offerId: Option<nat>,
    requestId: Option<nat>,
    offerDescription: Option<string>,
    requestDescription: Option<string>,
    offerImage: Option<string>,
    requestImage: Option<string>,
    status: string,
    message: Option<string>,
    initiatorId: Option<string>,
    responderId: Option<string>,
    offerTitle: Option<string>,
    requestTitle: Option<string>,
    offerUserName: Option<string>,
    requestUserName: Option<string>,
    offerPostal: Option<string>,
    requestPostal: Option<string>)

  /** The status shown for a pair that has no match request yet. */
  const PotentialStatus: string := "potential"

  function DescriptionOf(l: Option<ListingRow>): Option<string> {
    if l.Some? then l.value.description else None
  }

  function ImageOf(l: Option<ListingRow>): Option<string> {
    if l.Some? then l.value.imageFileName else None
  }

  function TitleOf(l: Option<ListingRow>): Option<string> {
    if l.Some? then l.value.title else None
  }

  function ProfileOf(l: Option<ListingRow>): Option<ProfileRow> {
    if l.Some? then l.value.profile else None
  }

  function NameOf(p: Option<ProfileRow>): Option<string> {
    if p.Some? then p.value.fullName else None
  }

  function PostalOf(p: Option<ProfileRow>): Option<string> {
    if p.Some? then p.value.postalCode else None
  }

  /** `build_ui_match_from_match`: ids copied, description and image taken
      from the embedded listing when there is one, status normalised, and
      every other field left at its default. */
  function FromMatch(m: MatchRow): (u: UIMatch)
    ensures u.id == Some(m.id) && u.offerId == m.offerId && u.requestId == m.requestId
    ensures m.offer.None? ==> u.offerDescription == None && u.offerImage == None
    ensures m.request.None? ==> u.requestDescription == None && u.requestImage == None
    ensures m.offer.Some? ==> u.offerDescription == m.offer.value.description && u.offerImage == m.offer.value.imageFileName
    ensures m.request.Some? ==> u.requestDescription == m.request.value.description && u.requestImage == m.request.value.imageFileName
    ensures u.status == NormalizeStatus(m.status)
    ensures u.message == None && u.initiatorId == None && u.responderId == None
    ensures u.offerTitle == None && u.offerUserName == None && u.offerPostal == None
    ensures u.requestTitle == None && u.requestUserName == None && u.requestPostal == None
  {
    UIMatch(Some(m.id), m.offerId, m.requestId,
            DescriptionOf(m.offer), DescriptionOf(m.request), ImageOf(m.offer), ImageOf(m.request),
            NormalizeStatus(m.status), None, None, None, None, None, None, None, None, None)
  }

  /** `build_ui_match_from_match_request`: the initiator is the requester
      and the responder the offerer; every offer field is None when the
      offer is missing (likewise for the request), and the name and postal
      fields are None when the listing has no embedded profile. */
  function FromMatchRequest(mr: MatchRequestRow): (u: UIMatch)
    ensures u.id == Some(mr.id) && u.offerId == mr.offerId && u.requestId == mr.requestId
    ensures u.initiatorId == mr.requesterId && u.responderId == mr.offererId && u.message == mr.message
    ensures u.status == NormalizeStatus(mr.status)
    ensures mr.offers.None? ==>
      u.offerDescription == None && u.offerImage == None && u.offerTitle == None
      && u.offerUserName == None && u.offerPostal == None
    ensures mr.requests.None? ==>
      u.requestDescription == None && u.requestImage == None && u.requestTitle == None
      && u.requestUserName == None && u.requestPostal == None
    ensures mr.offers.Some? ==>
      u.offerDescription == mr.offers.value.description && u.offerImage == mr.offers.value.imageFileName
      && u.offerTitle == mr.offers.value.title
    ensures mr.requests.Some? ==>
      u.requestDescription == mr.requests.value.description && u.requestImage == mr.requests.value.imageFileName
      && u.requestTitle == mr.requests.value.title
    ensures ProfileOf(mr.offers).None? ==> u.offerUserName == None && u.offerPostal == None
    ensures ProfileOf(mr.requests).None? ==> u.requestUserName == None && u.requestPostal == None
    ensures ProfileOf(mr.offers).Some? ==>
      u.offerUserName == ProfileOf(mr.offers).value.fullName && u.offerPostal == ProfileOf(mr.offers).value.postalCode
    ensures ProfileOf(mr.requests).Some? ==>
      u.requestUserName == ProfileOf(mr.requests).value.fullName && u.requestPostal == ProfileOf(mr.requests).value.postalCode
  {
    var offerProfile, requestProfile := ProfileOf(mr.offers), ProfileOf(mr.requests);
    UIMatch(Some(mr.id), mr.offerId, mr.requestId,
            DescriptionOf(mr.offers), DescriptionOf(mr.requests), ImageOf(mr.offers), ImageOf(mr.requests),
            NormalizeStatus(mr.status), mr.message, mr.requesterId, mr.offererId,
            TitleOf(mr.offers), TitleOf(mr.requests),
            NameOf(offerProfile), NameOf(requestProfile), PostalOf(offerProfile), PostalOf(requestProfile))
  }

  /** `build_ui_match_from_offer_request_pair`: no id, the status
      "potential", no message, initiator or responder; ids, descriptions,
      images and titles copied from the two rows; names and postal codes
      from their embedded profiles (None when absent). */
  function FromOfferRequestPair(offer: ListingRow, request: ListingRow): (u: UIMatch)
    ensures u.id == None && u.status == PotentialStatus
    ensures u.message == None && u.initiatorId == None && u.responderId == None
    ensures u.offerId == offer.id && u.requestId == request.id
    ensures u.offerDescription == offer.description && u.requestDescription == request.description
    ensures u.offerImage == offer.imageFileName && u.requestImage == request.imageFileName
    ensures u.offerTitle == offer.title && u.requestTitle == request.title
    ensures u.offerUserName == NameOf(offer.profile) && u.requestUserName == NameOf(request.profile)
    ensures u.offerPostal == PostalOf(offer.profile) && u.requestPostal == PostalOf(request.profile)
  {
    UIMatch(None, offer.id, request.id, offer.description, request.description,
            offer.imageFileName, request.imageFileName, PotentialStatus, None, None, None,
            offer.title, request.title, NameOf(offer.profile), NameOf(request.profile),
            PostalOf(offer.profile), PostalOf(request.profile))
  }

  /** A record built from a stored match or match request never shows the
      "potential" status unless the stored status is literally that text,
      and it always has an id; a record built from a pair never has one. So
      the pages can tell potential matches from stored ones. */
  lemma PotentialOnlyFromPairs(m: MatchRow, mr: MatchRequestRow, offer: ListingRow, request: ListingRow)
    ensures m.status != Text(PotentialStatus) ==> FromMatch(m).status != PotentialStatus
    ensures mr.status != Text(PotentialStatus) ==> FromMatchRequest(mr).status != PotentialStatus
    ensures FromMatch(m).id.Some? && FromMatchRequest(mr).id.Some?
    ensures FromOfferRequestPair(offer, request).id.None?
  {
    if m.status.Member? {
      NotPotential(m.status.member);
    }
    if mr.status.Member? {
      NotPotential(mr.status.member);
    }
  }

  /** No member's stored string is "potential". */
  lemma NotPotential(s: MatchStatus)
    ensures StatusValue(s) != PotentialStatus
  {
    match s
    case Pending =>
    case Accepted =>
    case Rejected =>
    case Completed =>
  }
}
