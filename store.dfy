/** The data layer: one object holding the four tables (profiles, offers,
    requests, match requests) and a fresh-id counter per table, with one
    method per create/update/delete operation. Both versions of the data
    layer are modelled by one class; `variant` picks the hosted-database
    version or the ORM version where the two differ. An operation that
    raises returns `Err` and leaves every table as it was. */
module Store {
  import opened Common
  import opened Models
  import opened Tables

  /** The hosted-database version (data/crud_ipv4.py) or the ORM version
      (data/crud.py). */
  datatype Variant = Hosted | Orm

  /** The karma ledger's point table. */
  const NewProfileKarma: int := 1
  const OfferCreatedPoints: int := 3
  const RequestCreatedPoints: int := 1
  const RequestDeletedPoints: int := -1
  const ListingMatchedPoints: int := 5
  const MatchRequestSentPoints: int := 1
  const MatchCompletedPoints: int := 5

  /** Deleting an offer costs its owner 3 points in the hosted version and 1
      in the ORM version. */
  function OfferDeletedPoints(v: Variant): (points: int)
    ensures points < 0
    ensures v == Hosted ==> points == -OfferCreatedPoints
  {
    if v == Hosted then -3 else -1
  }

  /** The ways an operation raises. */
  datatype StoreError =
    | ProfileExists      // insert of a profile id already present
    | DailyLimitReached  // the requester already sent the daily maximum today
    | NoTarget           // neither an offer id nor a request id was given
    | AlreadyRequested   // the duplicate lookup found a row

  /** The keyword arguments of `update_profile`, one per writable profile
      column other than the two it takes by name (`phone`, `share_phone`):
      None when the keyword is absent, Some(value) when it is passed. The
      `phone_hash` keyword writes the stored phone column, whose hash is not
      modelled. */
  datatype ProfileChanges = ProfileChanges(
    fullName: Option<string>,
    postalCode: Option<string>,
    phoneHash: Option<Option<string>>,
    karma: Option<Option<int>>,
    dailyMatchCount: Option<int>)

  /** A call without keyword arguments. */
  const NoChanges: ProfileChanges := ProfileChanges(None, None, None, None, None)

  /** A nullable column written on insert: the hosted version writes it only
      for a non-empty value (`if phone` / `if image_file_name`); the ORM
      version stores what it is given. */
  function StoredIfGiven(v: Variant, value: Option<string>): (r: Option<string>)
    ensures v == Hosted ==> (r.Some? <==> Filled(value))
    ensures v == Orm ==> r == value
    ensures r.Some? ==> r == value
  {
    if v == Orm || Filled(value) then value else None
  }

  /** Every keyword column that is passed is written. */
  function WithKeywords(p: Profile, changes: ProfileChanges): Profile {
    p.(fullName := if changes.fullName.Some? then changes.fullName.value else p.fullName,
       postalCode := if changes.postalCode.Some? then changes.postalCode.value else p.postalCode,
       phone := if changes.phoneHash.Some? then changes.phoneHash.value else p.phone,
       karma := if changes.karma.Some? then changes.karma.value else p.karma,
       dailyMatchCount := if changes.dailyMatchCount.Some? then changes.dailyMatchCount.value else p.dailyMatchCount)
  }

  /** The named arguments are written when they are not None. */
  function WithPhoneAndShare(p: Profile, phone: Option<string>, sharePhone: Option<bool>): Profile {
    p.(phone := if phone.Some? then phone else p.phone,
       sharePhone := if sharePhone.Some? then sharePhone.value else p.sharePhone)
  }

  /** A profile after `update_profile`: a column changes exactly when it is
      given, and keeps its value otherwise; the id never changes. The
      hosted version starts from the keywords and then writes the named
      arguments, so a given `phone` wins over a `phone_hash` keyword; the
      ORM version writes the named arguments first and then the keywords,
      so the keyword wins. */
  function UpdatedProfile(v: Variant, p: Profile, phone: Option<string>, sharePhone: Option<bool>,
                          changes: ProfileChanges): (r: Profile)
    ensures r.id == p.id
    ensures r.fullName == (if changes.fullName.Some? then changes.fullName.value else p.fullName)
    ensures r.postalCode == (if changes.postalCode.Some? then changes.postalCode.value else p.postalCode)
    ensures r.sharePhone == (if sharePhone.Some? then sharePhone.value else p.sharePhone)
    ensures r.karma == (if changes.karma.Some? then changes.karma.value else p.karma)
    ensures r.dailyMatchCount == (if changes.dailyMatchCount.Some? then changes.dailyMatchCount.value else p.dailyMatchCount)
    ensures r.phone == (if v == Hosted && phone.Some? then phone
                        else if changes.phoneHash.Some? then changes.phoneHash.value
                        else if phone.Some? then phone
                        else p.phone)
  {
    if v == Hosted then WithPhoneAndShare(WithKeywords(p, changes), phone, sharePhone)
    else WithKeywords(WithPhoneAndShare(p, phone, sharePhone), changes)
  }

  /** A call that passes nothing changes nothing. */
  lemma UpdateWithNothingKeeps(v: Variant, p: Profile)
    ensures UpdatedProfile(v, p, None, None, NoChanges) == p
  {
  }

  /** Repeating an update changes nothing more: the second call writes the
      values the first one already wrote. */
  lemma UpdateIdempotent(v: Variant, p: Profile, phone: Option<string>, sharePhone: Option<bool>, changes: ProfileChanges)
    ensures var once := UpdatedProfile(v, p, phone, sharePhone, changes);
      UpdatedProfile(v, once, phone, sharePhone, changes) == once
  {
  }

  /** The image column written when an offer is created: the hosted version
      takes no image; the ORM version stores what it is given. */
  function StoredOfferImage(v: Variant, image: Option<string>): (r: Option<string>)
    ensures v == Hosted ==> r == None
    ensures v == Orm ==> r == image
  {
    if v == Hosted then None else image
  }

  class Store {
    const variant: Variant
    var profiles: map<ProfileId, Profile>
    var offers: map<nat, Listing>
    var requests: map<nat, Listing>
    var matchRequests: map<nat, MatchRequest>
    var nextOfferId: nat
    var nextRequestId: nat
    var nextMatchRequestId: nat

    /** Rows sit under their own ids, ids come from the counters, no two
        match requests share (requester, offer, request), and every match
        request refers to an offer or a request. */
    ghost predicate Valid()
      reads this
    {
      && (forall id :: id in profiles ==> profiles[id].id == id)
      && 0 < nextOfferId && 0 < nextRequestId && 0 < nextMatchRequestId
      && ListingsKeyed(offers, nextOfferId)
      && ListingsKeyed(requests, nextRequestId)
      && MatchRequestsKeyed(matchRequests, nextMatchRequestId)
      && NoDuplicateKeys(matchRequests)
      && AllTargeted(matchRequests)
    }

    constructor (variant: Variant)
      ensures Valid() && this.variant == variant
      ensures profiles == map[] && offers == map[] && requests == map[] && matchRequests == map[]
    {
      this.variant := variant;
      profiles, offers, requests, matchRequests := map[], map[], map[], map[];
      nextOfferId, nextRequestId, nextMatchRequestId := 1, 1, 1;
    }

    // -------------------------------------------------------------------
    // Profiles and karma
    // -------------------------------------------------------------------

    /** `create_profile`: a new profile starts with 1 karma point; inserting
        an id that is already present raises. */
    method CreateProfile(id: ProfileId, fullName: string, postalCode: string, phone: Option<string>, sharePhone: bool)
      returns (r: Result<Profile, StoreError>)
      requires Valid()
      modifies this`profiles
      ensures Valid()
      ensures id in old(profiles) ==> r == Err(ProfileExists) && profiles == old(profiles)
      ensures id !in old(profiles) ==> r.Ok? && profiles == old(profiles)[id := r.value]
      ensures r.Ok? ==> r.value.id == id && r.value.fullName == fullName && r.value.postalCode == postalCode
      ensures r.Ok? ==> r.value.phone == StoredIfGiven(variant, phone) && r.value.sharePhone == sharePhone
      ensures r.Ok? ==> r.value.karma == Some(NewProfileKarma) && r.value.dailyMatchCount == 0
    {
      if id in profiles {
        return Err(ProfileExists);
      }
      var p := DefaultProfile(id, fullName, postalCode).(phone := StoredIfGiven(variant, phone), sharePhone := sharePhone,
                                                         karma := Some(NewProfileKarma));
      profiles := profiles[id := p];
      r := Ok(p);
    }

    /** `update_profile`: None for a missing profile; otherwise the profile
        with the given columns changed and every other column kept. */
    method UpdateProfile(id: ProfileId, phone: Option<string>, sharePhone: Option<bool>, changes: ProfileChanges)
      returns (r: Option<Profile>)
      requires Valid()
      modifies this`profiles
      ensures Valid()
      ensures id !in old(profiles) ==> r == None && profiles == old(profiles)
      ensures id in old(profiles) ==>
        && profiles == old(profiles)[id := UpdatedProfile(variant, old(profiles)[id], phone, sharePhone, changes)]
        && r == Some(profiles[id])
    {
      if id !in profiles {
        return None;
      }
      var p := UpdatedProfile(variant, profiles[id], phone, sharePhone, changes);
      profiles := profiles[id := p];
      r := Some(p);
    }

    /** `add_karma`: read the karma (null as 0), add the points, write it
        back; a missing profile gives None and changes nothing. */
    method AddKarma(id: ProfileId, points: int) returns (r: Option<Profile>)
      requires Valid()
      modifies this`profiles
      ensures Valid()
      ensures profiles == Award(old(profiles), id, points)
      ensures id in old(profiles) ==> r == Some(profiles[id]) && KarmaOf(profiles[id]) == KarmaOf(old(profiles)[id]) + points
      ensures id !in old(profiles) ==> r == None && profiles == old(profiles)
    {
      if id !in profiles {
        return None;
      }
      var p := profiles[id];
      var newKarma := KarmaOf(p) + points;
      profiles := profiles[id := p.(karma := Some(newKarma))];
      r := Some(profiles[id]);
    }

    // -------------------------------------------------------------------
    // Offers
    // -------------------------------------------------------------------

    /** `create_offer`: insert an active offer under a fresh id, then award
        the owner 3 points (nothing if the owner has no profile). */
    method CreateOffer(owner: ProfileId, title: string, description: Option<string>, category: Option<string>,
                       imageFileName: Option<string>) returns (offer: Listing)
      requires Valid()
      modifies this`offers, this`nextOfferId, this`profiles
      ensures Valid()
      ensures offer == NewListing(old(nextOfferId), owner, title, description, category, StoredOfferImage(variant, imageFileName))
      ensures offer.isActive && offer.id !in old(offers) && nextOfferId == old(nextOfferId) + 1
      ensures offers == old(offers)[offer.id := offer]
      ensures profiles == Award(old(profiles), owner, OfferCreatedPoints)
    {
      offer := NewListing(nextOfferId, owner, title, description, category, StoredOfferImage(variant, imageFileName));
      offers := offers[offer.id := offer];
      nextOfferId := nextOfferId + 1;
      var _ := AddKarma(owner, OfferCreatedPoints);
    }

    /** `delete_offer`: a missing id gives None and changes nothing;
        otherwise the owner loses the variant's penalty and the row goes.
        Match requests that refer to the offer are left as they are. */
    method DeleteOffer(id: nat) returns (r: Option<Listing>)
      requires Valid()
      modifies this`offers, this`profiles
      ensures Valid()
      ensures id !in old(offers) ==> r == None && offers == old(offers) && profiles == old(profiles)
      ensures id in old(offers) ==>
        && r == Some(old(offers)[id])
        && offers == old(offers) - {id}
        && profiles == Award(old(profiles), old(offers)[id].owner, OfferDeletedPoints(variant))
    {
      if id !in offers {
        return None;
      }
      var offer := offers[id];
      var _ := AddKarma(offer.owner, OfferDeletedPoints(variant));
      offers := offers - {id};
      r := Some(offer);
    }

    /** `mark_offer_matched`: a missing id gives None and changes nothing;
        otherwise the offer becomes inactive (whatever it was before) and its
        owner gets 5 points. */
    method MarkOfferMatched(id: nat) returns (r: Option<Listing>)
      requires Valid()
      modifies this`offers, this`profiles
      ensures Valid()
      ensures id !in old(offers) ==> r == None && offers == old(offers) && profiles == old(profiles)
      ensures id in old(offers) ==>
        && offers == old(offers)[id := old(offers)[id].(isActive := false)]
        && r == Some(offers[id])
        && profiles == Award(old(profiles), old(offers)[id].owner, ListingMatchedPoints)
    {
      if id !in offers {
        return None;
      }
      var offer := offers[id].(isActive := false);
      offers := offers[id := offer];
      var _ := AddKarma(offer.owner, ListingMatchedPoints);
      r := Some(offer);
    }

    // -------------------------------------------------------------------
    // Requests
    // -------------------------------------------------------------------

    /** `create_request`: insert an active request under a fresh id, then
        award the owner 1 point. */
    method CreateRequest(owner: ProfileId, title: string, description: Option<string>, category: Option<string>,
                         imageFileName: Option<string>) returns (request: Listing)
      requires Valid()
      modifies this`requests, this`nextRequestId, this`profiles
      ensures Valid()
      ensures request == NewListing(old(nextRequestId), owner, title, description, category, StoredIfGiven(variant, imageFileName))
      ensures request.isActive && request.id !in old(requests) && nextRequestId == old(nextRequestId) + 1
      ensures requests == old(requests)[request.id := request]
      ensures profiles == Award(old(profiles), owner, RequestCreatedPoints)
    {
      request := NewListing(nextRequestId, owner, title, description, category, StoredIfGiven(variant, imageFileName));
      requests := requests[request.id := request];
      nextRequestId := nextRequestId + 1;
      var _ := AddKarma(owner, RequestCreatedPoints);
    }

    /** `delete_request`: a missing id gives None and changes nothing;
        otherwise the owner loses 1 point and the row goes. */
    method DeleteRequest(id: nat) returns (r: Option<Listing>)
      requires Valid()
      modifies this`requests, this`profiles
      ensures Valid()
      ensures id !in old(requests) ==> r == None && requests == old(requests) && profiles == old(profiles)
      ensures id in old(requests) ==>
        && r == Some(old(requests)[id])
        && requests == old(requests) - {id}
        && profiles == Award(old(profiles), old(requests)[id].owner, RequestDeletedPoints)
    {
      if id !in requests {
        return None;
      }
      var request := requests[id];
      var _ := AddKarma(request.owner, RequestDeletedPoints);
      requests := requests - {id};
      r := Some(request);
    }

    /** `mark_request_matched`: a missing id gives None and changes nothing;
        otherwise the request becomes inactive and its owner gets 5 points. */
    method MarkRequestMatched(id: nat) returns (r: Option<Listing>)
      requires Valid()
      modifies this`requests, this`profiles
      ensures Valid()
      ensures id !in old(requests) ==> r == None && requests == old(requests) && profiles == old(profiles)
      ensures id in old(requests) ==>
        && requests == old(requests)[id := old(requests)[id].(isActive := false)]
        && r == Some(requests[id])
        && profiles == Award(old(profiles), old(requests)[id].owner, ListingMatchedPoints)
    {
      if id !in requests {
        return None;
      }
      var request := requests[id].(isActive := false);
      requests := requests[id := request];
      var _ := AddKarma(request.owner, ListingMatchedPoints);
      r := Some(request);
    }

    // -------------------------------------------------------------------
    // Match requests
    // -------------------------------------------------------------------

    /** `create_match_request`, with the start of the current UTC day and the
        current instant as parameters. The checks run in this order and the
        first that fails raises with nothing written: the daily limit; that
        an offer id or a request id is truthy; that the duplicate lookup
        finds nothing. Otherwise exactly one pending row is inserted, its
        offerer is the owner of the offer if that offer exists, and the
        requester gets 1 point. Neither the target's activity nor who owns it
        is checked. */
    method CreateMatchRequest(requester: ProfileId, offerId: Option<nat>, requestId: Option<nat>,
                              message: Option<string>, todayStart: int, now: int)
      returns (r: Result<MatchRequest, StoreError>)
      requires Valid()
      modifies this`matchRequests, this`nextMatchRequestId, this`profiles
      ensures Valid()
      ensures (r == Err(DailyLimitReached)) <==> !CanSendMatchRequest(old(matchRequests), requester, todayStart)
      ensures (r == Err(NoTarget)) <==>
        CanSendMatchRequest(old(matchRequests), requester, todayStart) && !IdGiven(offerId) && !IdGiven(requestId)
      ensures (r == Err(AlreadyRequested)) <==>
        && CanSendMatchRequest(old(matchRequests), requester, todayStart)
        && (IdGiven(offerId) || IdGiven(requestId))
        && ExistingMatchRequest(old(matchRequests), old(nextMatchRequestId), requester, requestId, offerId).Some?
      ensures r.Ok? <==>
        && CanSendMatchRequest(old(matchRequests), requester, todayStart)
        && (IdGiven(offerId) || IdGiven(requestId))
        && ExistingMatchRequest(old(matchRequests), old(nextMatchRequestId), requester, requestId, offerId).None?
      ensures r.Err? ==>
        matchRequests == old(matchRequests) && nextMatchRequestId == old(nextMatchRequestId) && profiles == old(profiles)
      ensures r.Ok? ==>
        && r.value == NewMatchRequest(old(nextMatchRequestId), requester, offerId, requestId,
                                      OwnerOf(offers, offerId), message, now)
        && r.value.id !in old(matchRequests)
        && matchRequests == old(matchRequests)[r.value.id := r.value]
        && nextMatchRequestId == old(nextMatchRequestId) + 1
        && profiles == Award(old(profiles), requester, MatchRequestSentPoints)
    {
      if !CanSendMatchRequest(matchRequests, requester, todayStart) {
        return Err(DailyLimitReached);
      }
      if !IdGiven(offerId) && !IdGiven(requestId) {
        return Err(NoTarget);
      }
      var existing := ExistingMatchRequest(matchRequests, nextMatchRequestId, requester, requestId, offerId);
      if existing.Some? {
        return Err(AlreadyRequested);
      }
      var m := InsertMatchRequest(requester, offerId, requestId, message, now);
      r := Ok(m);
    }

    /** The insertion step of `create_match_request`, once the checks have
        passed: a pending row under the next id, its offerer the owner of the
        offer if that offer exists, and 1 point to the requester. */
    method InsertMatchRequest(requester: ProfileId, offerId: Option<nat>, requestId: Option<nat>,
                              message: Option<string>, now: int)
      returns (m: MatchRequest)
      requires Valid() && (IdGiven(offerId) || IdGiven(requestId))
      requires ExistingMatchRequest(matchRequests, nextMatchRequestId, requester, requestId, offerId).None?
      modifies this`matchRequests, this`nextMatchRequestId, this`profiles
      ensures Valid()
      ensures m == NewMatchRequest(old(nextMatchRequestId), requester, offerId, requestId, OwnerOf(offers, offerId), message, now)
      ensures m.id !in old(matchRequests) && matchRequests == old(matchRequests)[m.id := m]
      ensures nextMatchRequestId == old(nextMatchRequestId) + 1
      ensures profiles == Award(old(profiles), requester, MatchRequestSentPoints)
    {
      m := NewMatchRequest(nextMatchRequestId, requester, offerId, requestId, OwnerOf(offers, offerId), message, now);
      InsertKeepsInvariants(matchRequests, nextMatchRequestId, m);
      matchRequests, nextMatchRequestId := matchRequests[m.id := m], nextMatchRequestId + 1;
      var _ := AddKarma(requester, MatchRequestSentPoints);
    }

    /** `update_match_request_status`: a missing id gives None and changes
        nothing. Otherwise the status and the update instant are written,
        whatever the previous status was, and then the status's karma and
        listing cascade runs (see `ApplyStatusEffects`). */
    method UpdateMatchRequestStatus(id: nat, status: MatchStatus, now: int) returns (r: Option<MatchRequest>)
      requires Valid()
      modifies this`matchRequests, this`offers, this`requests, this`profiles
      ensures Valid()
      ensures id !in old(matchRequests) ==>
        r == None && matchRequests == old(matchRequests) && offers == old(offers)
        && requests == old(requests) && profiles == old(profiles)
      ensures id in old(matchRequests) ==>
        var updated := old(matchRequests)[id].(status := status, updatedAt := now);
        && r == Some(updated)
        && matchRequests == old(matchRequests)[id := updated]
        && offers == (if status == Accepted then Deactivated(old(offers), updated.offerId) else old(offers))
        && requests == (if status == Accepted then Deactivated(old(requests), updated.requestId) else old(requests))
        && profiles == StatusKarma(old(profiles), old(offers), old(requests), updated,
                                   ListingMatchedPoints, MatchCompletedPoints)
    {
      if id !in matchRequests {
        return None;
      }
      var updated := matchRequests[id].(status := status, updatedAt := now);
      ReplaceRow(matchRequests, nextMatchRequestId, id, updated);
      matchRequests := matchRequests[id := updated];
      ApplyStatusEffects(updated);
      r := Some(updated);
    }

    /** What follows a status write for the updated row m: on accepted, the
        offer and the request it refers to are marked matched (each becomes
        inactive and its owner gets 5 points); on completed, the requester
        and the offerer get 5 points each; otherwise nothing. */
    method ApplyStatusEffects(m: MatchRequest)
      requires Valid()
      modifies this`offers, this`requests, this`profiles
      ensures Valid()
      ensures offers == (if m.status == Accepted then Deactivated(old(offers), m.offerId) else old(offers))
      ensures requests == (if m.status == Accepted then Deactivated(old(requests), m.requestId) else old(requests))
      ensures profiles == StatusKarma(old(profiles), old(offers), old(requests), m,
                                      ListingMatchedPoints, MatchCompletedPoints)
    {
      if m.status == Accepted {
        MarkListingsMatched(m);
      } else if m.status == Completed {
        AwardCompletion(m);
      }
    }

    /** Accepting marks the offer and the request the row refers to as
        matched. */
    method MarkListingsMatched(m: MatchRequest)
      requires Valid()
      modifies this`offers, this`requests, this`profiles
      ensures Valid()
      ensures offers == Deactivated(old(offers), m.offerId)
      ensures requests == Deactivated(old(requests), m.requestId)
      ensures profiles == AwardTo(AwardTo(old(profiles), OwnerOf(old(offers), m.offerId), ListingMatchedPoints),
                                  OwnerOf(old(requests), m.requestId), ListingMatchedPoints)
    {
      if IdGiven(m.offerId) {
        var _ := MarkOfferMatched(m.offerId.value);
      }
      if IdGiven(m.requestId) {
        var _ := MarkRequestMatched(m.requestId.value);
      }
    }

    /** Completing awards the requester and the offerer, each when the row
        names one. */
    method AwardCompletion(m: MatchRequest)
      requires Valid()
      modifies this`profiles
      ensures Valid()
      ensures profiles == AwardTo(AwardTo(old(profiles), GivenProfile(Some(m.requesterId)), MatchCompletedPoints),
                                  GivenProfile(m.offererId), MatchCompletedPoints)
    {
      if m.requesterId != "" {
        var _ := AddKarma(m.requesterId, MatchCompletedPoints);
      }
      if Filled(m.offererId) {
        var _ := AddKarma(m.offererId.value, MatchCompletedPoints);
      }
    }

    /** `cancel_match_request`: delete the row only if its id, its requester
        and its pending status all match; report whether a row was deleted.
        No other row and no karma changes. */
    method CancelMatchRequest(id: nat, requester: ProfileId) returns (deleted: bool)
      requires Valid()
      modifies this`matchRequests
      ensures Valid()
      ensures deleted <==>
        id in old(matchRequests) && old(matchRequests)[id].requesterId == requester
        && old(matchRequests)[id].status == Pending
      ensures matchRequests == if deleted then old(matchRequests) - {id} else old(matchRequests)
    {
      deleted := id in matchRequests && matchRequests[id].requesterId == requester && matchRequests[id].status == Pending;
      if deleted {
        RemoveRow(matchRequests, nextMatchRequestId, id);
        matchRequests := matchRequests - {id};
      }
    }

    /** `mark_match_request_notified`: set the flag on an existing row. In
        the ORM version the update instant of the row also moves to `now`,
        because that column is refreshed on every update; the hosted version
        writes the flag alone. */
    method MarkMatchRequestNotified(id: nat, now: int) returns (r: Option<MatchRequest>)
      requires Valid()
      modifies this`matchRequests
      ensures Valid()
      ensures id !in old(matchRequests) ==> r == None && matchRequests == old(matchRequests)
      ensures id in old(matchRequests) ==>
        var flagged := old(matchRequests)[id].(notified := true);
        && matchRequests == old(matchRequests)[id := if variant == Orm then flagged.(updatedAt := now) else flagged]
        && r == Some(matchRequests[id])
      ensures id in old(matchRequests) && variant == Hosted ==> matchRequests[id].updatedAt == old(matchRequests)[id].updatedAt
    {
      if id !in matchRequests {
        return None;
      }
      var flagged := matchRequests[id].(notified := true);
      var updated := if variant == Orm then flagged.(updatedAt := now) else flagged;
      ReplaceRow(matchRequests, nextMatchRequestId, id, updated);
      matchRequests := matchRequests[id := updated];
      r := Some(updated);
    }
  }
}
