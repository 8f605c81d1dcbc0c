/** Sequences of store operations and what they lead to: the daily cap, the
    duplicate check and its wildcard, cancellation without refund, repeated
    acceptance, unrestricted status changes, and the net karma of creating
    and deleting an offer in each version. */
module Scenarios {
  import opened Common
  import opened Models
  import opened Tables
  import opened Store

  /** The daily count of an empty table is zero. */
  lemma NothingSentYet(requester: ProfileId, todayStart: int)
    ensures SentCount(map[], requester, todayStart) == 0
  {
    assert Selected(map[], SentSince(requester, todayStart)) == {};
  }

  /** Sending a request for an offer no stored row names, while under the
      daily limit, succeeds and adds one to today's count. */
  method SendForOffer(s: Store, requester: ProfileId, offerId: nat, todayStart: int, now: int)
    returns (m: MatchRequest)
    requires s.Valid() && todayStart <= now && offerId != 0
    requires SentCount(s.matchRequests, requester, todayStart) < MaxMatchRequestsPerDay
    requires forall id :: id in s.matchRequests ==> s.matchRequests[id].offerId != Some(offerId)
    modifies s`matchRequests, s`nextMatchRequestId, s`profiles
    ensures s.Valid()
    ensures m.id !in old(s.matchRequests) && s.matchRequests == old(s.matchRequests)[m.id := m]
    ensures m.requesterId == requester && m.offerId == Some(offerId) && m.requestId == None && m.status == Pending
    ensures SentCount(s.matchRequests, requester, todayStart) == old(SentCount(s.matchRequests, requester, todayStart)) + 1
    ensures s.profiles == Award(old(s.profiles), requester, MatchRequestSentPoints) && s.offers == old(s.offers)
  {
    ExistingMatchRequestNone(s.matchRequests, s.nextMatchRequestId, requester, None, Some(offerId));
    var r := s.CreateMatchRequest(requester, Some(offerId), None, None, todayStart, now);
    m := r.value;
    SentCountAfterInsert(old(s.matchRequests), m.id, m, requester, todayStart);
  }

  /** A fourth match request on the same day is refused, whatever it
      targets. */
  method FourthRequestRefused(requester: ProfileId, todayStart: int, now: int)
    returns (fourth: Result<MatchRequest, StoreError>)
    requires todayStart <= now
    ensures fourth == Err(DailyLimitReached)
  {
    var s := new Store(Hosted);
    NothingSentYet(requester, todayStart);
    var first := SendForOffer(s, requester, 1, todayStart, now);
    var second := SendForOffer(s, requester, 2, todayStart, now);
    var third := SendForOffer(s, requester, 3, todayStart, now);
    fourth := s.CreateMatchRequest(requester, Some(4), None, None, todayStart, now);
  }

  /** A request naming an offer and a request blocks a later one naming only
      that offer: the missing request id is a wildcard. */
  method WildcardBlocks(requester: ProfileId, todayStart: int, now: int)
    returns (withBoth: Result<MatchRequest, StoreError>, offerOnly: Result<MatchRequest, StoreError>)
    requires todayStart <= now
    ensures withBoth.Ok? && offerOnly == Err(AlreadyRequested)
  {
    var s := new Store(Hosted);
    NothingSentYet(requester, todayStart);
    withBoth := s.CreateMatchRequest(requester, Some(1), Some(7), None, todayStart, now);
    assert withBoth.Ok?;
    SentCountAfterInsert(map[], withBoth.value.id, withBoth.value, requester, todayStart);
    assert Holds(ByKeys(requester, None, Some(1)), s.matchRequests[withBoth.value.id]);
    ExistingMatchRequestNone(s.matchRequests, s.nextMatchRequestId, requester, None, Some(1));
    offerOnly := s.CreateMatchRequest(requester, Some(1), None, None, todayStart, now);
  }

  /** A request naming only an offer does not block a later one naming that
      offer and a request: the stored row has no request id to compare. */
  method WildcardOneWay(requester: ProfileId, todayStart: int, now: int)
    returns (offerOnly: MatchRequest, withBoth: Result<MatchRequest, StoreError>)
    requires todayStart <= now
    ensures withBoth.Ok?
  {
    var s := new Store(Hosted);
    NothingSentYet(requester, todayStart);
    offerOnly := SendForOffer(s, requester, 1, todayStart, now);
    ExistingMatchRequestNone(s.matchRequests, s.nextMatchRequestId, requester, Some(7), Some(1));
    withBoth := s.CreateMatchRequest(requester, Some(1), Some(7), None, todayStart, now);
  }

  /** A sent request is listed among the requester's pending requests and
      among the pending requests for its offer until the requester cancels
      it; then it is listed in neither. */
  method PendingListedUntilCancelled(requester: ProfileId, todayStart: int, now: int)
    returns (byRequester: bool, forOffer: bool, byRequesterAfter: bool, forOfferAfter: bool)
    requires todayStart <= now
    ensures byRequester && forOffer
    ensures !byRequesterAfter && !forOfferAfter
  {
    var s := new Store(Hosted);
    NothingSentYet(requester, todayStart);
    var sent := SendForOffer(s, requester, 1, todayStart, now);
    byRequester := sent.id in Select(s.matchRequests, ByRequester(requester, Some(Pending)));
    forOffer := sent.id in Select(s.matchRequests, ForOffer(1, Pending));
    var cancelled := s.CancelMatchRequest(sent.id, requester);
    byRequesterAfter := sent.id in Select(s.matchRequests, ByRequester(requester, Some(Pending)));
    forOfferAfter := sent.id in Select(s.matchRequests, ForOffer(1, Pending));
  }

  /** Cancelling a pending request removes it, but the karma point the
      requester earned for sending it stays. */
  method CancelKeepsKarma(requester: ProfileId, todayStart: int, now: int)
    returns (sent: Result<MatchRequest, StoreError>, cancelled: bool, karmaBefore: int, karmaAfter: int)
    requires todayStart <= now
    ensures sent.Ok? && cancelled
    ensures karmaAfter == karmaBefore + MatchRequestSentPoints
  {
    var s := new Store(Orm);
    var p := s.CreateProfile(requester, "name", "12345", None, false);
    karmaBefore := KarmaOf(s.profiles[requester]);
    NothingSentYet(requester, todayStart);
    sent := s.CreateMatchRequest(requester, Some(1), None, None, todayStart, now);
    cancelled := s.CancelMatchRequest(sent.value.id, requester);
    karmaAfter := KarmaOf(s.profiles[requester]);
  }

  /** Accepting a match request that names only an offer pays the offer's
      owner the matched-listing award and keeps the row and the offer in
      place. */
  method AcceptOfferOnly(s: Store, id: nat, offerId: nat, owner: ProfileId, now: int)
    requires s.Valid() && id in s.matchRequests && owner in s.profiles
    requires s.matchRequests[id].offerId == Some(offerId) && s.matchRequests[id].requestId == None
    requires offerId != 0 && offerId in s.offers && s.offers[offerId].owner == owner
    modifies s`matchRequests, s`offers, s`requests, s`profiles
    ensures s.Valid() && id in s.matchRequests && owner in s.profiles
    ensures s.matchRequests[id].offerId == Some(offerId) && s.matchRequests[id].requestId == None
    ensures offerId in s.offers && s.offers[offerId].owner == owner && !s.offers[offerId].isActive
    ensures KarmaOf(s.profiles[owner]) == old(KarmaOf(s.profiles[owner])) + ListingMatchedPoints
  {
    var updated := s.UpdateMatchRequestStatus(id, Accepted, now);
    AcceptedKarma(old(s.profiles), old(s.offers), old(s.requests), updated.value,
                  ListingMatchedPoints, MatchCompletedPoints, owner);
  }

  /** Nothing stops a match request from being accepted twice: each
      acceptance marks the offer matched again and pays its owner again. */
  method AcceptTwicePaysTwice(owner: ProfileId, requester: ProfileId, todayStart: int, now: int)
    returns (karmaBeforeAccepts: int, karmaAfterAccepts: int)
    requires todayStart <= now
    ensures karmaAfterAccepts == karmaBeforeAccepts + 2 * ListingMatchedPoints
  {
    var s := new Store(Hosted);
    var _ := s.CreateProfile(owner, "owner", "12345", None, false);
    var offer := s.CreateOffer(owner, "bike", None, None, None);
    NothingSentYet(requester, todayStart);
    var sent := SendForOffer(s, requester, offer.id, todayStart, now);
    karmaBeforeAccepts := KarmaOf(s.profiles[owner]);
    AcceptOfferOnly(s, sent.id, offer.id, owner, now);
    AcceptOfferOnly(s, sent.id, offer.id, owner, now);
    karmaAfterAccepts := KarmaOf(s.profiles[owner]);
  }

  /** A status may move back: an accepted or completed request can be set
      to pending again, and then cancelled by its requester. */
  method StatusMovesBack(requester: ProfileId, todayStart: int, now: int)
    returns (completed: Option<MatchRequest>, reopened: Option<MatchRequest>, cancelled: bool)
    requires todayStart <= now
    ensures completed.Some? && completed.value.status == Completed
    ensures reopened.Some? && reopened.value.status == Pending
    ensures cancelled
  {
    var s := new Store(Orm);
    var sent := s.CreateMatchRequest(requester, None, Some(5), None, todayStart, now);
    SentCountAfterInsert(map[], sent.value.id, sent.value, requester, todayStart);
    assert Selected(map[], SentSince(requester, todayStart)) == {};
    completed := s.UpdateMatchRequestStatus(sent.value.id, Completed, now);
    reopened := s.UpdateMatchRequestStatus(sent.value.id, Pending, now);
    cancelled := s.CancelMatchRequest(sent.value.id, requester);
  }

  /** Creating and then deleting an offer nets nothing in the hosted
      version but leaves the owner two points up in the ORM version. */
  method OfferRoundTripKarma(v: Variant, owner: ProfileId) returns (before: int, after: int)
    ensures v == Hosted ==> after == before
    ensures v == Orm ==> after == before + 2
  {
    var s := new Store(v);
    var _ := s.CreateProfile(owner, "owner", "12345", None, false);
    before := KarmaOf(s.profiles[owner]);
    var offer := s.CreateOffer(owner, "lamp", None, None, None);
    var deleted := s.DeleteOffer(offer.id);
    after := KarmaOf(s.profiles[owner]);
  }
}
