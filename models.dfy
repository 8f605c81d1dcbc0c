/** The records of the marketplace: profiles, the two kinds of listing
    (offers and requests, which share one shape), and match requests with
    their status enumeration. Nullable columns are `Option`s; a column that
    may not be null is a plain value. */
module Models {
  import opened Common

  /** Profiles are keyed by the identity provider's opaque user id. */
  type ProfileId = string

  /** The lifecycle states of a match request. */
  datatype MatchStatus = Pending | Accepted | Rejected | Completed

  /** The string each enumeration member stands for in the database. */
  function StatusValue(s: MatchStatus): string {
    match s
    case Pending => "pending"
    case Accepted => "accepted"
    case Rejected => "rejected"
    case Completed => "completed"
  }

  /** Looking a member up by its stored string; an unknown string has none. */
  function StatusFromValue(v: string): (r: Option<MatchStatus>)
    ensures r.Some? ==> StatusValue(r.value) == v
    ensures r.None? ==> v !in {"pending", "accepted", "rejected", "completed"}
  {
    if v == "pending" then Some(Pending)
    else if v == "accepted" then Some(Accepted)
    else if v == "rejected" then Some(Rejected)
    else if v == "completed" then Some(Completed)
    else None
  }

  /** Every member survives the trip to its stored string and back, so two
      members never share a string. */
  lemma StatusRoundTrip(s: MatchStatus, t: MatchStatus)
    ensures StatusFromValue(StatusValue(s)) == Some(s)
    ensures StatusValue(s) == StatusValue(t) ==> s == t
  {
    match s
    case Pending =>
    case Accepted =>
    case Rejected =>
    case Completed =>
  }

  /** A profile row. `phone` stands for the stored phone column (the hosted
      version keeps a hash there; hashing is not modelled). */
  datatype Profile = Profile(
    id: ProfileId,
    fullName: string,
    postalCode: string,
    phone: Option<string>,
    sharePhone: bool,
    karma: Option<int>,
    dailyMatchCount: int)

  /** A profile row as the column defaults fill it in. */
  function DefaultProfile(id: ProfileId, fullName: string, postalCode: string): (p: Profile)
    ensures p.id == id && p.fullName == fullName && p.postalCode == postalCode
    ensures p.karma == Some(0) && p.dailyMatchCount == 0
    ensures !p.sharePhone && p.phone == None
  {
    Profile(id, fullName, postalCode, None, false, Some(0), 0)
  }

  /** An offer or a request: both tables have this shape. */
  datatype Listing = Listing(
    id: nat,
    owner: ProfileId,
    title: string,
    description: Option<string>,
    category: Option<string>,
    isActive: bool,
    imageFileName: Option<string>)

  /** A freshly inserted listing: active unless told otherwise. */
  function NewListing(id: nat, owner: ProfileId, title: string, description: Option<string>,
                      category: Option<string>, imageFileName: Option<string>): (l: Listing)
    ensures l.isActive
    ensures l.id == id && l.owner == owner && l.title == title
    ensures l.description == description && l.category == category && l.imageFileName == imageFileName
  {
    Listing(id, owner, title, description, category, true, imageFileName)
  }

  /** A match request row. The requester is mandatory; the other side and
      both listing references may be null. Timestamps are opaque instants. */
  datatype MatchRequest = MatchRequest(
    id: nat,
    requestId: Option<nat>,
    offerId: Option<nat>,
    requesterId: ProfileId,
    offererId: Option<ProfileId>,
    message: Option<string>,
    status: MatchStatus,
    createdAt: int,
    updatedAt: int,
    notified: bool)

  /** A match request as the column defaults fill it in when it is inserted
      at instant `now`. */
  function NewMatchRequest(id: nat, requesterId: ProfileId, offerId: Option<nat>, requestId: Option<nat>,
                           offererId: Option<ProfileId>, message: Option<string>, now: int): (m: MatchRequest)
    ensures m.status == Pending && !m.notified
    ensures m.createdAt == now && m.updatedAt == now
    ensures m.id == id && m.requesterId == requesterId && m.offererId == offererId
    ensures m.offerId == offerId && m.requestId == requestId && m.message == message
  {
    MatchRequest(id, requestId, offerId, requesterId, offererId, message, Pending, now, now, false)
  }
}
