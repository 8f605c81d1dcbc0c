/** Potential matches of the ORM version: every (offer, request) pair in
    which one side belongs to the profile and the other to someone else,
    minus the pairs already named by a match request the profile sent or
    received. */
module Potential {
  import opened Common
  import opened Models

  type Pair = (Listing, Listing)

  /** Every (offer, request) pair, offers in table order, and for each offer
      the requests in table order. */
  function Product(offers: seq<Listing>, requests: seq<Listing>): (r: seq<Pair>)
    ensures |r| == |offers| * |requests|
    decreases |offers|
  {
    if offers == [] then []
    else
      var last := offers[|offers| - 1];
      Product(offers[..|offers| - 1], requests) + seq(|requests|, i requires 0 <= i < |requests| => (last, requests[i]))
  }

  /** A pair is in the product exactly when its offer and its request are in
      their tables. */
  lemma {:induction false} ProductMembership(offers: seq<Listing>, requests: seq<Listing>, p: Pair)
    ensures p in Product(offers, requests) <==> p.0 in offers && p.1 in requests
    decreases |offers|
  {
    if offers != [] {
      var init, last := offers[..|offers| - 1], offers[|offers| - 1];
      ProductMembership(init, requests, p);
      assert offers == init + [last];
      var row := seq(|requests|, i requires 0 <= i < |requests| => (last, requests[i]));
      if p in row {
        var k :| 0 <= k < |row| && row[k] == p;
      }
      if p.0 == last && p.1 in requests {
        var k :| 0 <= k < |requests| && requests[k] == p.1;
        assert row[k] == p;
      }
    }
  }

  /** Someone else's offer against one of the profile's requests. */
  function TheirOfferMyRequest(profileId: ProfileId): Pair -> bool {
    (p: Pair) => p.1.owner == profileId && p.0.owner != profileId
  }

  /** One of the profile's offers against someone else's request. */
  function MyOfferTheirRequest(profileId: ProfileId): Pair -> bool {
    (p: Pair) => p.0.owner == profileId && p.1.owner != profileId
  }

  /** The (offer id, request id) pairs of the match requests the profile
      sent or received. */
  function ExistingPairs(mrs: map<nat, MatchRequest>, profileId: ProfileId): (r: set<(Option<nat>, Option<nat>)>)
    ensures forall id :: id in mrs && (mrs[id].requesterId == profileId || mrs[id].offererId == Some(profileId))
                         ==> (mrs[id].offerId, mrs[id].requestId) in r
  {
    set id | id in mrs && (mrs[id].requesterId == profileId || mrs[id].offererId == Some(profileId))
           :: (mrs[id].offerId, mrs[id].requestId)
  }

  /** The pairs not yet named by one of those match requests. */
  function NotYetRequested(existing: set<(Option<nat>, Option<nat>)>): Pair -> bool {
    (p: Pair) => (Some(p.0.id), Some(p.1.id)) !in existing
  }

  /** `get_potential_matches`: the pairs of someone else's offer with one of
      the profile's requests, followed by the pairs of one of the profile's
      offers with someone else's request, keeping only the pairs no match
      request of the profile names. */
  function PotentialMatches(offers: seq<Listing>, requests: seq<Listing>, mrs: map<nat, MatchRequest>,
                            profileId: ProfileId): (r: seq<Pair>)
    ensures forall p :: p in r ==>
      && p.0 in offers && p.1 in requests
      && (p.0.owner == profileId <==> p.1.owner != profileId)
      && (Some(p.0.id), Some(p.1.id)) !in ExistingPairs(mrs, profileId)
  {
    var all := Product(offers, requests);
    var theirs, mine := Filter(all, TheirOfferMyRequest(profileId)), Filter(all, MyOfferTheirRequest(profileId));
    var r := Filter(theirs + mine, NotYetRequested(ExistingPairs(mrs, profileId)));
    assert forall p :: p in r ==>
      && p.0 in offers && p.1 in requests
      && (p.0.owner == profileId <==> p.1.owner != profileId)
      && (Some(p.0.id), Some(p.1.id)) !in ExistingPairs(mrs, profileId) by {
      forall p | p in r
        ensures p.0 in offers && p.1 in requests
        ensures p.0.owner == profileId <==> p.1.owner != profileId
        ensures (Some(p.0.id), Some(p.1.id)) !in ExistingPairs(mrs, profileId)
      {
        FilterMembership(theirs + mine, NotYetRequested(ExistingPairs(mrs, profileId)), p);
        FilterMembership(all, TheirOfferMyRequest(profileId), p);
        FilterMembership(all, MyOfferTheirRequest(profileId), p);
        ProductMembership(offers, requests, p);
      }
    }
    r
  }

  /** A pair is a potential match exactly when its offer and request are in
      their tables, exactly one side belongs to the profile, and no match
      request the profile sent or received names both listings. */
  lemma PotentialMatchMembership(offers: seq<Listing>, requests: seq<Listing>, mrs: map<nat, MatchRequest>,
                                 profileId: ProfileId, p: Pair)
    ensures p in PotentialMatches(offers, requests, mrs, profileId) <==>
      && p.0 in offers && p.1 in requests
      && (p.0.owner == profileId <==> p.1.owner != profileId)
      && (forall id :: id in mrs && (mrs[id].requesterId == profileId || mrs[id].offererId == Some(profileId))
                       ==> !(mrs[id].offerId == Some(p.0.id) && mrs[id].requestId == Some(p.1.id)))
  {
    var all := Product(offers, requests);
    var theirs, mine := Filter(all, TheirOfferMyRequest(profileId)), Filter(all, MyOfferTheirRequest(profileId));
    var existing := ExistingPairs(mrs, profileId);
    ProductMembership(offers, requests, p);
    FilterMembership(all, TheirOfferMyRequest(profileId), p);
    FilterMembership(all, MyOfferTheirRequest(profileId), p);
    FilterMembership(theirs + mine, NotYetRequested(existing), p);
    if (Some(p.0.id), Some(p.1.id)) in existing {
      var id :| id in mrs && (mrs[id].requesterId == profileId || mrs[id].offererId == Some(profileId))
                && (mrs[id].offerId, mrs[id].requestId) == (Some(p.0.id), Some(p.1.id));
    }
  }

  /** Once the profile has sent a match request naming an offer and a
      request, that pair is no longer a potential match for it. */
  lemma RequestedPairExcluded(offers: seq<Listing>, requests: seq<Listing>, mrs: map<nat, MatchRequest>,
                              profileId: ProfileId, id: nat, o: Listing, q: Listing)
    requires id in mrs && mrs[id].requesterId == profileId
    requires mrs[id].offerId == Some(o.id) && mrs[id].requestId == Some(q.id)
    ensures (o, q) !in PotentialMatches(offers, requests, mrs, profileId)
  {
    PotentialMatchMembership(offers, requests, mrs, profileId, (o, q));
  }
}
