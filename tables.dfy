/** The read side of the store and the karma ledger's arithmetic, as pure
    functions over the four tables: the daily-limit count, the duplicate
    lookup, the listing and match-request selections, and what a karma award
    or a listing deactivation does to a table. The store's methods are
    specified with these. */
module Tables {
  import opened Common
  import opened Models

  /** At most this many match requests per requester per UTC day. */
  const MaxMatchRequestsPerDay: nat := 3

  /** The karma counter with null read as zero. */
  function KarmaOf(p: Profile): int {
    match p.karma
    case Some(k) => k
    case None => 0
  }

  /** The profiles table after `add_karma(id, points)`: the profile's karma
      becomes its old karma (null read as zero) plus points; a missing
      profile leaves the table as it was. */
  function Award(profiles: map<ProfileId, Profile>, id: ProfileId, points: int): (r: map<ProfileId, Profile>)
    ensures r.Keys == profiles.Keys
    ensures forall x :: x in profiles ==>
      KarmaOf(r[x]) == KarmaOf(profiles[x]) + (if x == id then points else 0)
      && r[x].karma.Some? == (profiles[x].karma.Some? || x == id)
      && r[x].(karma := profiles[x].karma) == profiles[x]
  {
    if id in profiles then profiles[id := profiles[id].(karma := Some(KarmaOf(profiles[id]) + points))]
    else profiles
  }

  /** An award to a profile that may not be known. */
  function AwardTo(profiles: map<ProfileId, Profile>, id: Option<ProfileId>, points: int): map<ProfileId, Profile> {
    match id
    case Some(x) => Award(profiles, x, points)
    case None => profiles
  }

  /** Two awards in a row add up, whoever receives them. */
  lemma TwoAwards(profiles: map<ProfileId, Profile>, a: Option<ProfileId>, m: int,
                  b: Option<ProfileId>, n: int, x: ProfileId)
    requires x in profiles
    ensures var r := AwardTo(AwardTo(profiles, a, m), b, n);
      x in r && KarmaOf(r[x]) == KarmaOf(profiles[x]) + (if a == Some(x) then m else 0) + (if b == Some(x) then n else 0)
  {
  }

  /** The owner of the listing a nullable id refers to, if the id is truthy
      and the listing exists. */
  function OwnerOf(table: map<nat, Listing>, id: Option<nat>): (r: Option<ProfileId>)
    ensures r.Some? <==> IdGiven(id) && id.value in table
    ensures r.Some? ==> r.value == table[id.value].owner
  {
    if IdGiven(id) && id.value in table then Some(table[id.value].owner) else None
  }

  /** The listings table after `mark_*_matched` for a nullable id: the
      listing, if the id is truthy and the listing exists, becomes inactive;
      every other row is untouched. */
  function Deactivated(table: map<nat, Listing>, id: Option<nat>): (r: map<nat, Listing>)
    ensures r.Keys == table.Keys
    ensures forall k :: k in table ==>
      r[k] == if IdGiven(id) && k == id.value then table[k].(isActive := false) else table[k]
  {
    if IdGiven(id) && id.value in table then table[id.value := table[id.value].(isActive := false)] else table
  }

  /** The listings returned by `get_all_offers` / `get_all_requests`: every
      row, or, when the excluded owner is truthy, every row owned by someone
      else. */
  function ListingsExcept(table: map<nat, Listing>, exclude: Option<ProfileId>): (r: map<nat, Listing>)
    ensures r.Keys <= table.Keys
    ensures forall k :: k in r ==> r[k] == table[k]
    ensures forall k :: k in table ==> (k in r <==> !(Filled(exclude) && table[k].owner == exclude.value))
  {
    map k | k in table && !(Filled(exclude) && table[k].owner == exclude.value) :: table[k]
  }

  /** The filters the code applies to the match-request table. */
  datatype MatchFilter =
      /** `get_existing_match_request`: the requester always; the request
          and offer ids only when given (None is a wildcard). */
    | ByKeys(requester: ProfileId, requestId: Option<nat>, offerId: Option<nat>)
      /** `can_send_match_request`: this requester's rows created at or after an instant. */
    | SentSince(requester: ProfileId, since: int)
      /** `get_match_requests_for_offer`: rows for an offer in a status. */
    | ForOffer(offer: nat, status: MatchStatus)
      /** `get_match_requests_by_requester`, optionally restricted to a status. */
    | ByRequester(requester: ProfileId, wanted: Option<MatchStatus>)
      /** `get_match_requests_for_offerer`, optionally restricted to a status. */
    | ForOfferer(offerer: ProfileId, wanted: Option<MatchStatus>)

  predicate Holds(f: MatchFilter, m: MatchRequest) {
    match f
    case ByKeys(requester, requestId, offerId) =>
      && m.requesterId == requester
      && (requestId.Some? ==> m.requestId == requestId)
      && (offerId.Some? ==> m.offerId == offerId)
    case SentSince(requester, since) =>
      m.requesterId == requester && m.createdAt >= since
    case ForOffer(offer, status) =>
      m.offerId == Some(offer) && m.status == status
    case ByRequester(requester, wanted) =>
      m.requesterId == requester && (wanted.Some? ==> m.status == wanted.value)
    case ForOfferer(offerer, wanted) =>
      m.offererId == Some(offerer) && (wanted.Some? ==> m.status == wanted.value)
  }

  /** The ids of the rows a filter selects. */
  function Selected(mrs: map<nat, MatchRequest>, f: MatchFilter): set<nat> {
    set id | id in mrs && Holds(f, mrs[id])
  }

  /** The rows a `get_match_requests_*` query returns: exactly those the
      filter holds of, unchanged. */
  function Select(mrs: map<nat, MatchRequest>, f: MatchFilter): (r: map<nat, MatchRequest>)
    ensures r.Keys <= mrs.Keys
    ensures forall id :: id in mrs ==> (id in r <==> Holds(f, mrs[id]))
    ensures forall id :: id in r ==> r[id] == mrs[id]
  {
    map id | id in Selected(mrs, f) :: mrs[id]
  }

  /** The number of match requests counted against today's limit: zero
      exactly when none of the requester's rows was created today, and
      never more than the rows stored. */
  function SentCount(mrs: map<nat, MatchRequest>, requester: ProfileId, todayStart: int): (n: nat)
    ensures n == 0 <==> forall id :: id in mrs ==> !Holds(SentSince(requester, todayStart), mrs[id])
    ensures n <= |mrs|
  {
    var sent := Selected(mrs, SentSince(requester, todayStart));
    SubsetCardinality(sent, mrs.Keys);
    assert sent != {} <==> exists id :: id in mrs && Holds(SentSince(requester, todayStart), mrs[id]) by {
      if sent != {} {
        var id :| id in sent;
      }
      if exists id :: id in mrs && Holds(SentSince(requester, todayStart), mrs[id]) {
        var id :| id in mrs && Holds(SentSince(requester, todayStart), mrs[id]);
        assert id in sent;
      }
    }
    |sent|
  }

  /** A subset is no larger than its superset. */
  lemma SubsetCardinality<T>(a: set<T>, b: set<T>)
    requires a <= b
    ensures |a| <= |b|
  {
    assert b == a + (b - a);
  }

  /** `can_send_match_request`: true iff fewer than the daily maximum of this
      requester's rows were created at or after the start of today. */
  function CanSendMatchRequest(mrs: map<nat, MatchRequest>, requester: ProfileId, todayStart: int): (ok: bool)
    ensures ok <==> SentCount(mrs, requester, todayStart) < MaxMatchRequestsPerDay
  {
    SentCount(mrs, requester, todayStart) < MaxMatchRequestsPerDay
  }

  /** Three distinct rows of the requester created today. */
  ghost predicate ThreeSentToday(mrs: map<nat, MatchRequest>, requester: ProfileId, todayStart: int) {
    exists a, b, c :: a in mrs && b in mrs && c in mrs && a != b && b != c && a != c
      && Holds(SentSince(requester, todayStart), mrs[a]) && Holds(SentSince(requester, todayStart), mrs[b])
      && Holds(SentSince(requester, todayStart), mrs[c])
  }

  /** The daily limit without counting: sending is refused exactly when
      three distinct stored rows of the requester were created today. */
  lemma RefusedIffThreeToday(mrs: map<nat, MatchRequest>, requester: ProfileId, todayStart: int)
    ensures !CanSendMatchRequest(mrs, requester, todayStart) <==> ThreeSentToday(mrs, requester, todayStart)
  {
    if !CanSendMatchRequest(mrs, requester, todayStart) {
      RefusedHasThree(mrs, requester, todayStart);
    }
    if ThreeSentToday(mrs, requester, todayStart) {
      ThreeIsRefused(mrs, requester, todayStart);
    }
  }

  /** Over the limit, three rows of today can be named. */
  lemma RefusedHasThree(mrs: map<nat, MatchRequest>, requester: ProfileId, todayStart: int)
    requires !CanSendMatchRequest(mrs, requester, todayStart)
    ensures ThreeSentToday(mrs, requester, todayStart)
  {
    var f := SentSince(requester, todayStart);
    var sent := Selected(mrs, f);
    var a :| a in sent;
    assert |sent - {a}| > 0;
    var b :| b in sent - {a};
    assert |sent - {a} - {b}| > 0;
    var c :| c in sent - {a} - {b};
    assert a in mrs && b in mrs && c in mrs && a != b && b != c && a != c
      && Holds(f, mrs[a]) && Holds(f, mrs[b]) && Holds(f, mrs[c]);
  }

  /** Three rows of today are enough to be refused. */
  lemma ThreeIsRefused(mrs: map<nat, MatchRequest>, requester: ProfileId, todayStart: int)
    requires ThreeSentToday(mrs, requester, todayStart)
    ensures !CanSendMatchRequest(mrs, requester, todayStart)
  {
    var f := SentSince(requester, todayStart);
    var a, b, c :| a in mrs && b in mrs && c in mrs && a != b && b != c && a != c
      && Holds(f, mrs[a]) && Holds(f, mrs[b]) && Holds(f, mrs[c]);
    var three, sent := {a, b, c}, Selected(mrs, f);
    assert a in sent && b in sent && c in sent;
    assert |three| == 3 by {
      assert three == {a} + {b} + {c};
    }
    SubsetCardinality(three, sent);
  }

  /** Once the limit is reached, no insert under a new id lifts it: the
      refusal lasts for the rest of the day whatever is added. */
  lemma RefusedStaysRefused(mrs: map<nat, MatchRequest>, k: nat, m: MatchRequest, requester: ProfileId, todayStart: int)
    requires k !in mrs && !CanSendMatchRequest(mrs, requester, todayStart)
    ensures !CanSendMatchRequest(mrs[k := m], requester, todayStart)
  {
    SentCountAfterInsert(mrs, k, m, requester, todayStart);
  }

  /** Inserting a row under a new id raises the count by one exactly when
      the row counts. */
  lemma SentCountAfterInsert(mrs: map<nat, MatchRequest>, k: nat, m: MatchRequest, requester: ProfileId, since: int)
    requires k !in mrs
    ensures SentCount(mrs[k := m], requester, since)
         == SentCount(mrs, requester, since) + (if Holds(SentSince(requester, since), m) then 1 else 0)
  {
    var f := SentSince(requester, since);
    if Holds(f, m) {
      assert Selected(mrs[k := m], f) == Selected(mrs, f) + {k};
    } else {
      assert Selected(mrs[k := m], f) == Selected(mrs, f);
    }
  }

  /** Deleting a row lowers the count by one exactly when the row counted:
      cancelling a request sent today gives the requester that slot back. */
  lemma SentCountAfterDelete(mrs: map<nat, MatchRequest>, k: nat, requester: ProfileId, since: int)
    requires k in mrs
    ensures SentCount(mrs - {k}, requester, since)
         == SentCount(mrs, requester, since) - (if Holds(SentSince(requester, since), mrs[k]) then 1 else 0)
  {
    var f := SentSince(requester, since);
    if Holds(f, mrs[k]) {
      assert Selected(mrs, f) == Selected(mrs - {k}, f) + {k};
    } else {
      assert Selected(mrs - {k}, f) == Selected(mrs, f);
    }
  }

  /** The lowest id in [from, to) of a row the filter holds of, if any: the
      first row a query returns, in id order. */
  function FirstSelected(mrs: map<nat, MatchRequest>, f: MatchFilter, from: nat, to: nat): (r: Option<nat>)
    ensures r.Some? ==> from <= r.value < to && r.value in mrs && Holds(f, mrs[r.value])
    ensures r.Some? ==> (forall id :: from <= id < r.value && id in mrs ==> !Holds(f, mrs[id]))
    ensures r.None? ==> (forall id :: from <= id < to && id in mrs ==> !Holds(f, mrs[id]))
    decreases if from < to then to - from else 0
  {
    if to <= from then None
    else if from in mrs && Holds(f, mrs[from]) then Some(from)
    else FirstSelected(mrs, f, from + 1, to)
  }

  /** A row the filter holds of, with no such row below it, is the first. */
  lemma FirstSelectedIs(mrs: map<nat, MatchRequest>, f: MatchFilter, from: nat, to: nat, k: nat)
    requires from <= k < to && k in mrs && Holds(f, mrs[k])
    requires forall id :: from <= id < k && id in mrs ==> !Holds(f, mrs[id])
    ensures FirstSelected(mrs, f, from, to) == Some(k)
  {
  }

  /** `get_existing_match_request` over a table whose ids lie below `bound`:
      the first row with this requester and, where given, this request id and
      this offer id; None iff there is no such row. */
  function ExistingMatchRequest(mrs: map<nat, MatchRequest>, bound: nat, requester: ProfileId,
                                requestId: Option<nat>, offerId: Option<nat>): (r: Option<MatchRequest>)
    ensures r.Some? ==> (exists id :: id < bound && id in mrs && mrs[id] == r.value)
    ensures r.Some? ==> r.value.requesterId == requester
    ensures r.Some? && requestId.Some? ==> r.value.requestId == requestId
    ensures r.Some? && offerId.Some? ==> r.value.offerId == offerId
  {
    match FirstSelected(mrs, ByKeys(requester, requestId, offerId), 0, bound)
    case Some(id) => Some(mrs[id])
    case None => None
  }

  /** The lookup finds nothing exactly when no row below the bound has this
      requester and, where given, this request id and this offer id. */
  lemma ExistingMatchRequestNone(mrs: map<nat, MatchRequest>, bound: nat, requester: ProfileId,
                                 requestId: Option<nat>, offerId: Option<nat>)
    ensures ExistingMatchRequest(mrs, bound, requester, requestId, offerId).None?
        <==> (forall id :: id < bound && id in mrs ==> !Holds(ByKeys(requester, requestId, offerId), mrs[id]))
  {
  }

  /** The key a match request is deduplicated on. */
  function KeyOf(m: MatchRequest): (ProfileId, Option<nat>, Option<nat>) {
    (m.requesterId, m.offerId, m.requestId)
  }

  /** No two rows share requester, offer id and request id. */
  ghost predicate NoDuplicateKeys(mrs: map<nat, MatchRequest>) {
    forall i, j {:trigger KeyOf(mrs[i]), KeyOf(mrs[j])} :: i in mrs && j in mrs && i != j ==> KeyOf(mrs[i]) != KeyOf(mrs[j])
  }

  /** Every row refers to an offer or a request by a truthy id. */
  ghost predicate AllTargeted(mrs: map<nat, MatchRequest>) {
    forall i :: i in mrs ==> IdGiven(mrs[i].offerId) || IdGiven(mrs[i].requestId)
  }

  /** Rows are stored under their own ids, all positive and below `next`. */
  ghost predicate ListingsKeyed(table: map<nat, Listing>, next: nat) {
    forall k :: k in table ==> 0 < k < next && table[k].id == k
  }

  ghost predicate MatchRequestsKeyed(mrs: map<nat, MatchRequest>, next: nat) {
    forall k :: k in mrs ==> 0 < k < next && mrs[k].id == k
  }

  /** When no row matches a fully-specified duplicate lookup, a row with
      that key can be added without creating a duplicate key. */
  lemma InsertKeepsKeysUnique(mrs: map<nat, MatchRequest>, bound: nat, k: nat, m: MatchRequest)
    requires NoDuplicateKeys(mrs) && k !in mrs
    requires forall id :: id in mrs ==> id < bound
    requires ExistingMatchRequest(mrs, bound, m.requesterId, m.requestId, m.offerId).None?
    ensures NoDuplicateKeys(mrs[k := m])
  {
    var f := ByKeys(m.requesterId, m.requestId, m.offerId);
    ExistingMatchRequestNone(mrs, bound, m.requesterId, m.requestId, m.offerId);
    forall i | i in mrs
      ensures KeyOf(mrs[i]) != KeyOf(m)
    {
      assert !Holds(f, mrs[i]);
    }
  }

  /** Appending a row under the next id, when the duplicate lookup found
      nothing and the row has a target, keeps the table's invariants. */
  lemma InsertKeepsInvariants(mrs: map<nat, MatchRequest>, next: nat, m: MatchRequest)
    requires NoDuplicateKeys(mrs) && AllTargeted(mrs) && MatchRequestsKeyed(mrs, next)
    requires 0 < next && m.id == next && (IdGiven(m.offerId) || IdGiven(m.requestId))
    requires ExistingMatchRequest(mrs, next, m.requesterId, m.requestId, m.offerId).None?
    ensures NoDuplicateKeys(mrs[next := m]) && AllTargeted(mrs[next := m]) && MatchRequestsKeyed(mrs[next := m], next + 1)
  {
    InsertKeepsKeysUnique(mrs, next, next, m);
  }

  /** After that append, the duplicate lookup finds the new row, and the
      daily count grows by one exactly when the row was created today. */
  lemma InsertThenLookup(mrs: map<nat, MatchRequest>, next: nat, m: MatchRequest, since: int)
    requires MatchRequestsKeyed(mrs, next) && m.id == next
    requires ExistingMatchRequest(mrs, next, m.requesterId, m.requestId, m.offerId).None?
    ensures ExistingMatchRequest(mrs[next := m], next + 1, m.requesterId, m.requestId, m.offerId) == Some(m)
    ensures SentCount(mrs[next := m], m.requesterId, since)
         == SentCount(mrs, m.requesterId, since) + (if m.createdAt >= since then 1 else 0)
  {
    SentCountAfterInsert(mrs, next, m, m.requesterId, since);
    var f := ByKeys(m.requesterId, m.requestId, m.offerId);
    var mrs' := mrs[next := m];
    ExistingMatchRequestNone(mrs, next, m.requesterId, m.requestId, m.offerId);
    forall id | id < next && id in mrs'
      ensures !Holds(f, mrs'[id])
    {
      assert id in mrs && mrs'[id] == mrs[id];
    }
    FirstSelectedIs(mrs', f, 0, next + 1, next);
  }

  /** Rewriting a row without touching its id or key keeps the table's
      invariants. */
  lemma ReplaceRow(mrs: map<nat, MatchRequest>, next: nat, id: nat, m: MatchRequest)
    requires NoDuplicateKeys(mrs) && AllTargeted(mrs) && MatchRequestsKeyed(mrs, next)
    requires id in mrs && m.id == id && KeyOf(m) == KeyOf(mrs[id])
    requires m.offerId == mrs[id].offerId && m.requestId == mrs[id].requestId
    ensures NoDuplicateKeys(mrs[id := m]) && AllTargeted(mrs[id := m]) && MatchRequestsKeyed(mrs[id := m], next)
  {
    var mrs' := mrs[id := m];
    forall i, j | i in mrs' && j in mrs' && i != j
      ensures KeyOf(mrs'[i]) != KeyOf(mrs'[j])
    {
      assert KeyOf(mrs'[i]) == KeyOf(mrs[i]) && KeyOf(mrs'[j]) == KeyOf(mrs[j]);
    }
  }

  /** Deleting a row keeps the table's invariants. */
  lemma RemoveRow(mrs: map<nat, MatchRequest>, next: nat, id: nat)
    requires NoDuplicateKeys(mrs) && AllTargeted(mrs) && MatchRequestsKeyed(mrs, next)
    ensures NoDuplicateKeys(mrs - {id}) && AllTargeted(mrs - {id}) && MatchRequestsKeyed(mrs - {id}, next)
  {
    var mrs' := mrs - {id};
    forall i, j | i in mrs' && j in mrs' && i != j
      ensures KeyOf(mrs'[i]) != KeyOf(mrs'[j])
    {
      assert KeyOf(mrs'[i]) == KeyOf(mrs[i]) && KeyOf(mrs'[j]) == KeyOf(mrs[j]);
    }
  }

  /** A profile id that `if match_req.get(...)` treats as present. */
  function GivenProfile(id: Option<ProfileId>): (r: Option<ProfileId>)
    ensures r.Some? <==> Filled(id)
    ensures r.Some? ==> r == id
  {
    if Filled(id) then id else None
  }

  /** The karma cascade of `update_match_request_status` for the updated row
      m: on accepted, the owners of the referenced offer and request get the
      matched-listing award (each listing separately); on completed, the
      requester and the offerer get the completion award; any other status
      awards nothing. */
  function StatusKarma(profiles: map<ProfileId, Profile>, offers: map<nat, Listing>, requests: map<nat, Listing>,
                       m: MatchRequest, listingPoints: int, completionPoints: int): (r: map<ProfileId, Profile>)
    ensures r.Keys == profiles.Keys
    ensures forall x :: x in profiles ==> r[x].(karma := profiles[x].karma) == profiles[x]
    ensures m.status != Accepted && m.status != Completed ==> r == profiles
  {
    match m.status
    case Accepted =>
      AwardTo(AwardTo(profiles, OwnerOf(offers, m.offerId), listingPoints), OwnerOf(requests, m.requestId), listingPoints)
    case Completed =>
      AwardTo(AwardTo(profiles, GivenProfile(Some(m.requesterId)), completionPoints), GivenProfile(m.offererId), completionPoints)
    case _ => profiles
  }

  /** Accepting awards each listing owner once per listing of theirs the
      match request refers to, and nobody else anything. */
  lemma AcceptedKarma(profiles: map<ProfileId, Profile>, offers: map<nat, Listing>, requests: map<nat, Listing>,
                      m: MatchRequest, listingPoints: int, completionPoints: int, x: ProfileId)
    requires m.status == Accepted && x in profiles
    ensures var r := StatusKarma(profiles, offers, requests, m, listingPoints, completionPoints);
      x in r && KarmaOf(r[x]) == KarmaOf(profiles[x])
        + (if IdGiven(m.offerId) && m.offerId.value in offers && offers[m.offerId.value].owner == x then listingPoints else 0)
        + (if IdGiven(m.requestId) && m.requestId.value in requests && requests[m.requestId.value].owner == x then listingPoints else 0)
  {
    TwoAwards(profiles, OwnerOf(offers, m.offerId), listingPoints, OwnerOf(requests, m.requestId), listingPoints, x);
  }

  /** Completing awards the requester and the offerer (when recorded). */
  lemma CompletedKarma(profiles: map<ProfileId, Profile>, offers: map<nat, Listing>, requests: map<nat, Listing>,
                       m: MatchRequest, listingPoints: int, completionPoints: int, x: ProfileId)
    requires m.status == Completed && x in profiles
    ensures var r := StatusKarma(profiles, offers, requests, m, listingPoints, completionPoints);
      x in r && KarmaOf(r[x]) == KarmaOf(profiles[x])
        + (if m.requesterId == x && x != "" then completionPoints else 0)
        + (if m.offererId == Some(x) && x != "" then completionPoints else 0)
  {
    TwoAwards(profiles, GivenProfile(Some(m.requesterId)), completionPoints, GivenProfile(m.offererId), completionPoints, x);
  }
}
