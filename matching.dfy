/** Candidate matching: pairing a user's offers with other people's requests
    whose title contains the offer's title, and the user's requests with
    other people's offers, scoring each pair by postal-code proximity, and
    returning the pairs best score first, cut to a maximum count. The two
    versions differ in title comparison (case-sensitive `like` or
    case-insensitive `ilike`) and in the default proximity level. */
module Matching {
  import opened Common
  import opened Models

  /** Default proximity levels: three leading characters in the hosted
      version, two in the ORM version. */
  const HostedProximityLevel: int := 3
  const OrmProximityLevel: int := 2

  /** Default maximum number of results. */
  const DefaultMaxResults: int := 10

  // ---------------------------------------------------------------------
  // Postal-code proximity
  // ---------------------------------------------------------------------

  /** `is_nearby`: false when either code is missing or empty; otherwise
      whether the codes agree on their slice [:level]. */
  function IsNearby(postal1: Option<string>, postal2: Option<string>, level: int): (r: bool)
    ensures r ==> Filled(postal1) && Filled(postal2)
    ensures Filled(postal1) && postal1 == postal2 ==> r
  {
    Filled(postal1) && Filled(postal2) && Prefix(postal1.value, level) == Prefix(postal2.value, level)
  }

  /** Proximity does not depend on the order of the two codes. */
  lemma NearbySymmetric(postal1: Option<string>, postal2: Option<string>, level: int)
    ensures IsNearby(postal1, postal2, level) == IsNearby(postal2, postal1, level)
  {
  }

  /** Codes nearby at a level are nearby at every smaller non-negative
      level. */
  lemma NearbyAtCoarserLevel(postal1: Option<string>, postal2: Option<string>, level: int, coarser: int)
    requires 0 <= coarser <= level && IsNearby(postal1, postal2, level)
    ensures IsNearby(postal1, postal2, coarser)
  {
    PrefixOfPrefix(postal1.value, level, coarser);
    PrefixOfPrefix(postal2.value, level, coarser);
  }

  /** At level zero every pair of non-empty codes is nearby. */
  lemma NearbyAtLevelZero(postal1: Option<string>, postal2: Option<string>)
    ensures IsNearby(postal1, postal2, 0) <==> Filled(postal1) && Filled(postal2)
  {
  }

  // ---------------------------------------------------------------------
  // Title comparison
  // ---------------------------------------------------------------------

  /** How a title is compared: SQL `like` (case-sensitive) or `ilike`
      (case-insensitive), each with the pattern "%title%". */
  datatype TitleMode = Like | ILike

  /** Whether needle occurs in hay as a contiguous run. */
  function Contains(hay: string, needle: string): (r: bool)
    ensures needle == [] ==> r
    ensures r ==> |needle| <= |hay|
    decreases |hay|
  {
    needle <= hay || (hay != [] && Contains(hay[1..], needle))
  }

  /** needle occurs in hay starting at position i. */
  predicate OccursAt(hay: string, needle: string, i: int) {
    0 <= i && i + |needle| <= |hay| && hay[i..i + |needle|] == needle
  }

  /** `Contains` holds exactly when needle occurs in hay at some position. */
  lemma {:induction false} ContainsAt(hay: string, needle: string)
    ensures Contains(hay, needle) <==> exists i :: OccursAt(hay, needle, i)
    decreases |hay|
  {
    if needle <= hay {
      assert OccursAt(hay, needle, 0);
    } else if hay == [] {
    } else {
      ContainsAt(hay[1..], needle);
      if exists i :: OccursAt(hay, needle, i) {
        var i :| OccursAt(hay, needle, i);
        assert i != 0;
        OccursInTail(hay, needle, i);
      }
      if Contains(hay[1..], needle) {
        var i :| OccursAt(hay[1..], needle, i);
        OccursInTail(hay, needle, i + 1);
      }
    }
  }

  /** An occurrence past the first position is an occurrence in the tail,
      one position earlier. */
  lemma OccursInTail(hay: string, needle: string, i: int)
    requires hay != [] && 0 < i
    ensures OccursAt(hay, needle, i) <==> OccursAt(hay[1..], needle, i - 1)
  {
    if i + |needle| <= |hay| {
      assert hay[1..][i - 1..i - 1 + |needle|] == hay[i..i + |needle|];
    }
  }

  /** ASCII case folding of one character. */
  function Lower(c: char): (r: char)
    ensures 'A' <= c <= 'Z' ==> 'a' <= r <= 'z'
    ensures !('A' <= c <= 'Z') ==> r == c
  {
    if 'A' <= c <= 'Z' then (c - 'A' + 'a') as char else c
  }

  /** Case folding of a string, character by character. */
  function Fold(s: string): (r: string)
    ensures |r| == |s|
    ensures forall i :: 0 <= i < |s| ==> r[i] == Lower(s[i])
  {
    seq(|s|, i requires 0 <= i < |s| => Lower(s[i]))
  }

  /** The title filter of the counterpart query. */
  function TitleMatches(mode: TitleMode, title: string, pattern: string): bool {
    match mode
    case Like => Contains(title, pattern)
    case ILike => Contains(Fold(title), Fold(pattern))
  }

  /** Every case-sensitive match is also a case-insensitive one. */
  lemma LikeImpliesILike(title: string, pattern: string)
    requires TitleMatches(Like, title, pattern)
    ensures TitleMatches(ILike, title, pattern)
  {
    ContainsAt(title, pattern);
    var i :| OccursAt(title, pattern, i);
    assert Fold(title)[i..i + |pattern|] == Fold(pattern);
    assert OccursAt(Fold(title), Fold(pattern), i);
    ContainsAt(Fold(title), Fold(pattern));
  }

  // ---------------------------------------------------------------------
  // Candidates
  // ---------------------------------------------------------------------

  /** The two score levels, 0.5 and 1.0. */
  datatype Score = Half | Full

  /** One entry of the result: the two titles, the name and postal code on
      each side (missing when the owner has no profile), and the score. */
  datatype Candidate = Candidate(
    offerTitle: string,
    offerProfileName: Option<string>,
    offerPostal: Option<string>,
    requestTitle: string,
    requestProfileName: Option<string>,
    requestPostal: Option<string>,
    score: Score)

  /** The user the search is for: the id it was given and the profile
      found under it. */
  datatype Viewer = Viewer(id: ProfileId, profile: Profile)

  /** The profile of a listing owner, or nothing when there is none. */
  function OwnerProfile(profiles: map<ProfileId, Profile>, owner: ProfileId): Option<Profile> {
    if owner in profiles then Some(profiles[owner]) else None
  }

  function OwnerName(p: Option<Profile>): Option<string> {
    match p
    case Some(q) => Some(q.fullName)
    case None => None
  }

  function OwnerPostal(p: Option<Profile>): Option<string> {
    match p
    case Some(q) => Some(q.postalCode)
    case None => None
  }

  /** Full when the user's postal code is nearby the other owner's. */
  function ScoreAgainst(me: Profile, other: Option<Profile>, level: int): Score {
    if IsNearby(Some(me.postalCode), OwnerPostal(other), level) then Full else Half
  }

  /** The entry for the user's offer and someone else's request. */
  function OfferCandidate(profiles: map<ProfileId, Profile>, me: Viewer, offer: Listing, request: Listing, level: int): Candidate {
    var other := OwnerProfile(profiles, request.owner);
    Candidate(offer.title, Some(me.profile.fullName), Some(me.profile.postalCode),
              request.title, OwnerName(other), OwnerPostal(other), ScoreAgainst(me.profile, other, level))
  }

  /** The entry for the user's request and someone else's offer. */
  function RequestCandidate(profiles: map<ProfileId, Profile>, me: Viewer, request: Listing, offer: Listing, level: int): Candidate {
    var other := OwnerProfile(profiles, offer.owner);
    Candidate(offer.title, OwnerName(other), OwnerPostal(other),
              request.title, Some(me.profile.fullName), Some(me.profile.postalCode), ScoreAgainst(me.profile, other, level))
  }

  /** The filter of the "own listings" query. */
  function OwnedBy(id: ProfileId): Listing -> bool {
    (l: Listing) => l.owner == id
  }

  /** The filter of the counterpart query: owned by someone else, with a
      title containing the given title. */
  function CounterpartOf(id: ProfileId, title: string, mode: TitleMode): Listing -> bool {
    (l: Listing) => l.owner != id && TitleMatches(mode, l.title, title)
  }

  /** The entries produced for one of the user's offers, in table order of
      the counterpart requests. */
  function PairsForOffer(profiles: map<ProfileId, Profile>, me: Viewer, offer: Listing,
                         requests: seq<Listing>, level: int, mode: TitleMode): seq<Candidate> {
    var cs := Filter(requests, CounterpartOf(me.id, offer.title, mode));
    seq(|cs|, i requires 0 <= i < |cs| => OfferCandidate(profiles, me, offer, cs[i], level))
  }

  /** The entries produced for one of the user's requests. */
  function PairsForRequest(profiles: map<ProfileId, Profile>, me: Viewer, request: Listing,
                           offers: seq<Listing>, level: int, mode: TitleMode): seq<Candidate> {
    var cs := Filter(offers, CounterpartOf(me.id, request.title, mode));
    seq(|cs|, i requires 0 <= i < |cs| => RequestCandidate(profiles, me, request, cs[i], level))
  }

  /** The offer-side entries, the user's offers in order. */
  function OfferSide(profiles: map<ProfileId, Profile>, me: Viewer, myOffers: seq<Listing>,
                     requests: seq<Listing>, level: int, mode: TitleMode): seq<Candidate>
    decreases |myOffers|
  {
    if myOffers == [] then []
    else OfferSide(profiles, me, myOffers[..|myOffers| - 1], requests, level, mode)
         + PairsForOffer(profiles, me, myOffers[|myOffers| - 1], requests, level, mode)
  }

  /** The request-side entries, the user's requests in order. */
  function RequestSide(profiles: map<ProfileId, Profile>, me: Viewer, myRequests: seq<Listing>,
                       offers: seq<Listing>, level: int, mode: TitleMode): seq<Candidate>
    decreases |myRequests|
  {
    if myRequests == [] then []
    else RequestSide(profiles, me, myRequests[..|myRequests| - 1], offers, level, mode)
         + PairsForRequest(profiles, me, myRequests[|myRequests| - 1], offers, level, mode)
  }

  /** Every entry before sorting: none for an unknown user; otherwise the
      offer side followed by the request side. */
  function AllCandidates(profiles: map<ProfileId, Profile>, profileId: ProfileId, offers: seq<Listing>,
                         requests: seq<Listing>, level: int, mode: TitleMode): (r: seq<Candidate>)
    ensures profileId !in profiles ==> r == []
    ensures profileId in profiles ==> forall c :: c in r ==>
      c.offerProfileName == Some(profiles[profileId].fullName) || c.requestProfileName == Some(profiles[profileId].fullName)
  {
    if profileId !in profiles then []
    else
      var me := Viewer(profileId, profiles[profileId]);
      var r := OfferSide(profiles, me, Filter(offers, OwnedBy(profileId)), requests, level, mode)
               + RequestSide(profiles, me, Filter(requests, OwnedBy(profileId)), offers, level, mode);
      assert forall c :: c in r ==> c.offerProfileName == Some(me.profile.fullName) || c.requestProfileName == Some(me.profile.fullName) by {
        forall c | c in r
          ensures c.offerProfileName == Some(me.profile.fullName) || c.requestProfileName == Some(me.profile.fullName)
        {
          OfferSideExactly(profiles, me, offers, requests, level, mode, c);
          RequestSideExactly(profiles, me, requests, offers, level, mode, c);
        }
      }
      r
  }

  // ---------------------------------------------------------------------
  // Ordering and truncation
  // ---------------------------------------------------------------------

  function IsFull(c: Candidate): bool { c.score == Full }
  function IsHalf(c: Candidate): bool { c.score == Half }

  /** The stable sort by score, highest first: full-score entries in their
      original order, then half-score entries in their original order. */
  function SortByScore(ms: seq<Candidate>): (r: seq<Candidate>)
    ensures forall i :: 0 <= i < |r| ==> (r[i].score == Full <==> i < |Filter(ms, IsFull)|)
  {
    FilterPasses(ms, IsFull);
    FilterPasses(ms, IsHalf);
    Filter(ms, IsFull) + Filter(ms, IsHalf)
  }

  /** The sorted entries cut by the slice [:maxResults]. */
  function Ranked(ms: seq<Candidate>, maxResults: int): (r: seq<Candidate>)
    ensures r <= SortByScore(ms)
    ensures 0 <= maxResults ==> |r| == if maxResults <= |ms| then maxResults else |ms|
  {
    SortByScoreKeepsAll(ms);
    Prefix(SortByScore(ms), maxResults)
  }

  /** Every entry has exactly one of the two scores. */
  lemma ScoresSplit()
    ensures forall c :: IsHalf(c) == !IsFull(c)
    ensures forall c :: IsFull(c) == !IsHalf(c)
  {
  }

  /** Sorting keeps every entry exactly as often as it occurred. */
  lemma SortByScoreKeepsAll(ms: seq<Candidate>)
    ensures multiset(SortByScore(ms)) == multiset(ms)
    ensures |SortByScore(ms)| == |ms|
  {
    ScoresSplit();
    FilterSplitsMultiset(ms, IsFull, IsHalf);
    assert |multiset(SortByScore(ms))| == |multiset(ms)|;
  }

  /** The sorted entries are in non-increasing score order. */
  lemma SortByScoreOrdered(ms: seq<Candidate>)
    ensures var s := SortByScore(ms);
      forall i, j :: 0 <= i < j < |s| && s[j].score == Full ==> s[i].score == Full
  {
    var full, half := Filter(ms, IsFull), Filter(ms, IsHalf);
    FilterPasses(ms, IsFull);
    FilterPasses(ms, IsHalf);
    var s := full + half;
    forall i, j | 0 <= i < j < |s| && s[j].score == Full
      ensures s[i].score == Full
    {
      if i < |full| {
        assert s[i] == full[i];
      } else {
        assert false;
      }
    }
  }

  /** The sort is stable: the entries of each score keep their relative
      order. */
  lemma SortByScoreStable(ms: seq<Candidate>)
    ensures Filter(SortByScore(ms), IsFull) == Filter(ms, IsFull)
    ensures Filter(SortByScore(ms), IsHalf) == Filter(ms, IsHalf)
  {
    ScoresSplit();
    FilterAppend(Filter(ms, IsFull), Filter(ms, IsHalf), IsFull);
    FilterAppend(Filter(ms, IsFull), Filter(ms, IsHalf), IsHalf);
    FilterIdempotent(ms, IsFull);
    FilterIdempotent(ms, IsHalf);
    FilterDisjoint(ms, IsFull, IsHalf);
    FilterDisjoint(ms, IsHalf, IsFull);
  }

  /** For equal scores, offer-side entries come before request-side ones. */
  lemma OfferSideFirst(offerSide: seq<Candidate>, requestSide: seq<Candidate>)
    ensures SortByScore(offerSide + requestSide)
         == Filter(offerSide, IsFull) + Filter(requestSide, IsFull)
          + Filter(offerSide, IsHalf) + Filter(requestSide, IsHalf)
  {
    FilterAppend(offerSide, requestSide, IsFull);
    FilterAppend(offerSide, requestSide, IsHalf);
    var fa, fb, ha, hb := Filter(offerSide, IsFull), Filter(requestSide, IsFull),
                          Filter(offerSide, IsHalf), Filter(requestSide, IsHalf);
    assert SortByScore(offerSide + requestSide) == (fa + fb) + (ha + hb);
  }

  /** The truncated result is ordered and never longer than asked. */
  lemma RankedOrdered(ms: seq<Candidate>, maxResults: int)
    ensures var r := Ranked(ms, maxResults);
      && |r| <= |ms|
      && (0 <= maxResults ==> |r| <= maxResults)
      && (forall i, j :: 0 <= i < j < |r| && r[j].score == Full ==> r[i].score == Full)
  {
    SortByScoreOrdered(ms);
    SortByScoreKeepsAll(ms);
    var s := SortByScore(ms);
    var r := Ranked(ms, maxResults);
    forall i, j | 0 <= i < j < |r| && r[j].score == Full
      ensures r[i].score == Full
    {
      assert r[i] == s[i] && r[j] == s[j];
    }
  }

  // ---------------------------------------------------------------------
  // Soundness and completeness of the candidates
  // ---------------------------------------------------------------------

  /** The entries for one of the user's offers are exactly its pairings with
      the counterpart requests. */
  lemma PairsForOfferMembership(profiles: map<ProfileId, Profile>, me: Viewer, offer: Listing,
                                requests: seq<Listing>, level: int, mode: TitleMode, c: Candidate)
    ensures c in PairsForOffer(profiles, me, offer, requests, level, mode) <==>
      exists q :: q in requests && CounterpartOf(me.id, offer.title, mode)(q)
                  && c == OfferCandidate(profiles, me, offer, q, level)
  {
    var keep := CounterpartOf(me.id, offer.title, mode);
    var cs := Filter(requests, keep);
    var pairs := PairsForOffer(profiles, me, offer, requests, level, mode);
    if c in pairs {
      var k :| 0 <= k < |pairs| && pairs[k] == c;
      FilterMembership(requests, keep, cs[k]);
    }
    if exists q :: q in requests && keep(q) && c == OfferCandidate(profiles, me, offer, q, level) {
      var q :| q in requests && keep(q) && c == OfferCandidate(profiles, me, offer, q, level);
      FilterMembership(requests, keep, q);
      var k :| 0 <= k < |cs| && cs[k] == q;
      assert pairs[k] == c;
    }
  }

  /** The entries for one of the user's requests are exactly its pairings
      with the counterpart offers. */
  lemma PairsForRequestMembership(profiles: map<ProfileId, Profile>, me: Viewer, request: Listing,
                                  offers: seq<Listing>, level: int, mode: TitleMode, c: Candidate)
    ensures c in PairsForRequest(profiles, me, request, offers, level, mode) <==>
      exists o :: o in offers && CounterpartOf(me.id, request.title, mode)(o)
                  && c == RequestCandidate(profiles, me, request, o, level)
  {
    var keep := CounterpartOf(me.id, request.title, mode);
    var cs := Filter(offers, keep);
    var pairs := PairsForRequest(profiles, me, request, offers, level, mode);
    if c in pairs {
      var k :| 0 <= k < |pairs| && pairs[k] == c;
      FilterMembership(offers, keep, cs[k]);
    }
    if exists o :: o in offers && keep(o) && c == RequestCandidate(profiles, me, request, o, level) {
      var o :| o in offers && keep(o) && c == RequestCandidate(profiles, me, request, o, level);
      FilterMembership(offers, keep, o);
      var k :| 0 <= k < |cs| && cs[k] == o;
      assert pairs[k] == c;
    }
  }

  /** An entry of the offer side pairs one of the given offers with a
      counterpart request, and every such pair gives an entry. */
  lemma {:induction false} OfferSideMembership(profiles: map<ProfileId, Profile>, me: Viewer, myOffers: seq<Listing>,
                                               requests: seq<Listing>, level: int, mode: TitleMode, c: Candidate)
    ensures c in OfferSide(profiles, me, myOffers, requests, level, mode) <==>
      exists o :: o in myOffers && c in PairsForOffer(profiles, me, o, requests, level, mode)
    decreases |myOffers|
  {
    if myOffers != [] {
      var init, last := myOffers[..|myOffers| - 1], myOffers[|myOffers| - 1];
      OfferSideMembership(profiles, me, init, requests, level, mode, c);
      assert myOffers == init + [last];
    }
  }

  /** The same for the request side. */
  lemma {:induction false} RequestSideMembership(profiles: map<ProfileId, Profile>, me: Viewer, myRequests: seq<Listing>,
                                                 offers: seq<Listing>, level: int, mode: TitleMode, c: Candidate)
    ensures c in RequestSide(profiles, me, myRequests, offers, level, mode) <==>
      exists q :: q in myRequests && c in PairsForRequest(profiles, me, q, offers, level, mode)
    decreases |myRequests|
  {
    if myRequests != [] {
      var init, last := myRequests[..|myRequests| - 1], myRequests[|myRequests| - 1];
      RequestSideMembership(profiles, me, init, offers, level, mode, c);
      assert myRequests == init + [last];
    }
  }

  /** An entry before truncation is exactly one of: the user's offer with
      another owner's request whose title contains the offer's title, or
      the user's request with another owner's offer whose title contains
      the request's title; an unknown user has none. */
  lemma CandidateMembership(profiles: map<ProfileId, Profile>, profileId: ProfileId, offers: seq<Listing>,
                            requests: seq<Listing>, level: int, mode: TitleMode, c: Candidate)
    ensures c in AllCandidates(profiles, profileId, offers, requests, level, mode) <==>
      profileId in profiles &&
      ((exists o, q :: o in offers && o.owner == profileId && q in requests && q.owner != profileId
                       && TitleMatches(mode, q.title, o.title)
                       && c == OfferCandidate(profiles, Viewer(profileId, profiles[profileId]), o, q, level))
       || (exists q, o :: q in requests && q.owner == profileId && o in offers && o.owner != profileId
                          && TitleMatches(mode, o.title, q.title)
                          && c == RequestCandidate(profiles, Viewer(profileId, profiles[profileId]), q, o, level)))
  {
    if profileId in profiles {
      var me := Viewer(profileId, profiles[profileId]);
      OfferSideExactly(profiles, me, offers, requests, level, mode, c);
      RequestSideExactly(profiles, me, requests, offers, level, mode, c);
    }
  }

  /** The offer side of the user's own offers holds exactly the pairings of
      one of them with another owner's request whose title contains the
      offer's title. */
  lemma OfferSideExactly(profiles: map<ProfileId, Profile>, me: Viewer, offers: seq<Listing>,
                         requests: seq<Listing>, level: int, mode: TitleMode, c: Candidate)
    ensures c in OfferSide(profiles, me, Filter(offers, OwnedBy(me.id)), requests, level, mode) <==>
      exists o, q :: o in offers && o.owner == me.id && q in requests && q.owner != me.id
                     && TitleMatches(mode, q.title, o.title) && c == OfferCandidate(profiles, me, o, q, level)
  {
    var myOffers := Filter(offers, OwnedBy(me.id));
    OfferSideMembership(profiles, me, myOffers, requests, level, mode, c);
    forall o | true
      ensures o in myOffers <==> o in offers && o.owner == me.id
      ensures c in PairsForOffer(profiles, me, o, requests, level, mode) <==>
        exists q :: q in requests && q.owner != me.id && TitleMatches(mode, q.title, o.title)
                    && c == OfferCandidate(profiles, me, o, q, level)
    {
      FilterMembership(offers, OwnedBy(me.id), o);
      PairsForOfferMembership(profiles, me, o, requests, level, mode, c);
    }
  }

  /** The request side of the user's own requests holds exactly the
      pairings of one of them with another owner's offer whose title
      contains the request's title. */
  lemma RequestSideExactly(profiles: map<ProfileId, Profile>, me: Viewer, requests: seq<Listing>,
                           offers: seq<Listing>, level: int, mode: TitleMode, c: Candidate)
    ensures c in RequestSide(profiles, me, Filter(requests, OwnedBy(me.id)), offers, level, mode) <==>
      exists q, o :: q in requests && q.owner == me.id && o in offers && o.owner != me.id
                     && TitleMatches(mode, o.title, q.title) && c == RequestCandidate(profiles, me, q, o, level)
  {
    var myRequests := Filter(requests, OwnedBy(me.id));
    RequestSideMembership(profiles, me, myRequests, offers, level, mode, c);
    forall q | true
      ensures q in myRequests <==> q in requests && q.owner == me.id
      ensures c in PairsForRequest(profiles, me, q, offers, level, mode) <==>
        exists o :: o in offers && o.owner != me.id && TitleMatches(mode, o.title, q.title)
                    && c == RequestCandidate(profiles, me, q, o, level)
    {
      FilterMembership(requests, OwnedBy(me.id), q);
      PairsForRequestMembership(profiles, me, q, offers, level, mode, c);
    }
  }

  /** Each entry's score is full exactly when the user's postal code is
      nearby the other owner's. */
  lemma CandidateScore(profiles: map<ProfileId, Profile>, me: Viewer, mine: Listing, theirs: Listing, level: int)
    ensures OfferCandidate(profiles, me, mine, theirs, level).score == Full <==>
      IsNearby(Some(me.profile.postalCode), OfferCandidate(profiles, me, mine, theirs, level).requestPostal, level)
    ensures RequestCandidate(profiles, me, mine, theirs, level).score == Full <==>
      IsNearby(Some(me.profile.postalCode), RequestCandidate(profiles, me, mine, theirs, level).offerPostal, level)
    ensures theirs.owner !in profiles ==>
      OfferCandidate(profiles, me, mine, theirs, level).score == Half
      && RequestCandidate(profiles, me, mine, theirs, level).score == Half
  {
  }

  // ---------------------------------------------------------------------
  // The search
  // ---------------------------------------------------------------------

  /** `find_matches_for_user` over the profile table and the offer and
      request tables in row order: for each of the user's offers, one entry
      per counterpart request; then for each of the user's requests, one
      entry per counterpart offer; then sort by score (stable, highest
      first) and keep the first `maxResults`. */
  method FindMatchesForUser(profiles: map<ProfileId, Profile>, offers: seq<Listing>, requests: seq<Listing>,
                            profileId: ProfileId, maxResults: int, level: int, mode: TitleMode)
    returns (r: seq<Candidate>)
    ensures profileId !in profiles ==> r == []
    ensures r == Ranked(AllCandidates(profiles, profileId, offers, requests, level, mode), maxResults)
  {
    if profileId !in profiles {
      return [];
    }
    var me := Viewer(profileId, profiles[profileId]);
    var offerSide := CollectOfferSide(profiles, me, Filter(offers, OwnedBy(profileId)), requests, level, mode);
    var requestSide := CollectRequestSide(profiles, me, Filter(requests, OwnedBy(profileId)), offers, level, mode);
    var matches := offerSide + requestSide;
    matches := SortByScore(matches);
    r := Prefix(matches, maxResults);
  }
  /** The search called with its default arguments: at most ten results,
      proximity on three leading characters with `like` in the hosted
      version and on two with `ilike` in the ORM version. */
  method FindMatchesWithDefaults(profiles: map<ProfileId, Profile>, offers: seq<Listing>, requests: seq<Listing>,
                                 profileId: ProfileId, mode: TitleMode)
    returns (r: seq<Candidate>)
    ensures |r| <= DefaultMaxResults
    ensures r == Ranked(AllCandidates(profiles, profileId, offers, requests,
                                      if mode == Like then HostedProximityLevel else OrmProximityLevel, mode),
                        DefaultMaxResults)
  {
    var level := if mode == Like then HostedProximityLevel else OrmProximityLevel;
    r := FindMatchesForUser(profiles, offers, requests, profileId, DefaultMaxResults, level, mode);
  }


  /** The first pair of loops: for each of the user's offers, in order, the
      entries for that offer are appended. */
  method CollectOfferSide(profiles: map<ProfileId, Profile>, me: Viewer, myOffers: seq<Listing>,
                          requests: seq<Listing>, level: int, mode: TitleMode)
    returns (matches: seq<Candidate>)
    ensures matches == OfferSide(profiles, me, myOffers, requests, level, mode)
  {
    matches := [];
    var i := 0;
    while i < |myOffers|
      invariant 0 <= i <= |myOffers|
      invariant matches == OfferSide(profiles, me, myOffers[..i], requests, level, mode)
    {
      var pairs := CollectForOffer(profiles, me, myOffers[i], requests, level, mode);
      matches := matches + pairs;
      assert myOffers[..i + 1][..i] == myOffers[..i];
      i := i + 1;
    }
    assert myOffers[..i] == myOffers;
  }

  /** The inner loop for one offer: the counterpart requests are queried and
      one entry per request appended. */
  method CollectForOffer(profiles: map<ProfileId, Profile>, me: Viewer, offer: Listing,
                         requests: seq<Listing>, level: int, mode: TitleMode)
    returns (pairs: seq<Candidate>)
    ensures pairs == PairsForOffer(profiles, me, offer, requests, level, mode)
  {
    var counterparts := Filter(requests, CounterpartOf(me.id, offer.title, mode));
    pairs := [];
    var j := 0;
    while j < |counterparts|
      invariant 0 <= j <= |counterparts|
      invariant |pairs| == j
      invariant forall k :: 0 <= k < j ==> pairs[k] == OfferCandidate(profiles, me, offer, counterparts[k], level)
    {
      pairs := pairs + [OfferCandidate(profiles, me, offer, counterparts[j], level)];
      j := j + 1;
    }
  }

  /** The second pair of loops: for each of the user's requests, in order,
      the entries for that request are appended. */
  method CollectRequestSide(profiles: map<ProfileId, Profile>, me: Viewer, myRequests: seq<Listing>,
                            offers: seq<Listing>, level: int, mode: TitleMode)
    returns (matches: seq<Candidate>)
    ensures matches == RequestSide(profiles, me, myRequests, offers, level, mode)
  {
    matches := [];
    var i := 0;
    while i < |myRequests|
      invariant 0 <= i <= |myRequests|
      invariant matches == RequestSide(profiles, me, myRequests[..i], offers, level, mode)
    {
      var pairs := CollectForRequest(profiles, me, myRequests[i], offers, level, mode);
      matches := matches + pairs;
      assert myRequests[..i + 1][..i] == myRequests[..i];
      i := i + 1;
    }
    assert myRequests[..i] == myRequests;
  }

  /** The inner loop for one request: the counterpart offers are queried and
      one entry per offer appended. */
  method CollectForRequest(profiles: map<ProfileId, Profile>, me: Viewer, request: Listing,
                           offers: seq<Listing>, level: int, mode: TitleMode)
    returns (pairs: seq<Candidate>)
    ensures pairs == PairsForRequest(profiles, me, request, offers, level, mode)
  {
    var counterparts := Filter(offers, CounterpartOf(me.id, request.title, mode));
    pairs := [];
    var j := 0;
    while j < |counterparts|
      invariant 0 <= j <= |counterparts|
      invariant |pairs| == j
      invariant forall k :: 0 <= k < j ==> pairs[k] == RequestCandidate(profiles, me, request, counterparts[k], level)
    {
      pairs := pairs + [RequestCandidate(profiles, me, request, counterparts[j], level)];
      j := j + 1;
    }
  }
}
