# BetterBarter core in Dafny

BetterBarter is a neighbourhood barter marketplace. People publish **offers**
(things they give) and **requests** (things they want). They send **match
requests** to each other, at most three a day. A **karma** ledger rewards
activity. This project models the core of that system and proves properties
of it:

- **The data layer** (`store.dfy`, with the pure table queries in
  `tables.dfy`). One `Store` object holds the four tables as maps: profiles,
  offers, requests and match requests. It also holds a fresh-id counter per
  listing table and for match requests.
  - Every create, update and delete operation is a method. Each method's
    ensures states the new tables in terms of the old ones.
  - An operation that raises returns `Err` and leaves the tables unchanged.
  - The hosted-database version (`data/crud_ipv4.py`) and the ORM version
    (`data/crud.py`) share one class. The constant `variant` selects between
    them where they differ: the offer-deletion penalty, how phone and image
    columns are stored, and whether marking a match request notified also
    moves its update instant.
  - The class invariant `Valid` says:
    - rows sit under their own ids, and ids come from the counters;
    - every match request names a truthy offer or request id;
    - no two match requests share requester, offer id and request id.
- **The records** (`models.dfy`): the match-status enumeration and the
  profile, listing and match-request rows with their column defaults.
- **Candidate matching** (`matching.dfy`): `is_nearby` and
  `find_matches_for_user`.
  - The search is a method with the source's nested loops. Its result is
    proved equal to a specification: the pairings, a stable sort by score
    (best first) and the `[:max_results]` slice.
  - Lemmas prove soundness and completeness of the pairings, the scoring
    rule, ordering, stability and the length bound.
  - Title comparison is a parameter: case-sensitive `like` in the hosted
    version, case-insensitive `ilike` in the ORM version.
- **Potential matches** of the ORM version (`potential.dfy`), with an exact
  membership characterisation.
- **The display-record builders and status normalisation** (`mappers.dfy`).
- **The contact block of the match emails** (`contact.dfy`).
- **Multi-step consequences** (`scenarios.dfy`), each proved from the
  method contracts over a fresh store:
  - a fourth request on the same day is refused;
  - a missing request id acts as a wildcard in the duplicate lookup;
  - cancelling a request refunds no karma;
  - accepting twice pays twice;
  - a status can move back;
  - creating and then deleting an offer has a different net karma in each
    version.

Conventions of the model:

- **Row order.** Tables are maps keyed by id. Where the source takes "the
  first row" of a query, the model takes the row with the lowest id. Listing
  tables passed to the matching code are sequences in row order.
- **Missing values.** `Option` stands for a nullable column, a missing
  dictionary key or an absent argument.
- **Python truthiness is kept.** An id of 0 and an empty string count as
  "not given" wherever the source tests `if x` or `not x`.
- **Clocks are parameters.** The clock reads (`utcnow`, and the start of
  today in UTC) are parameters `now` and `todayStart`. Instants are integers.

## Model

| member | source | states |
|---|---|---|
| Models.StatusFromValue | data/models.py:13-17 | a stored string names a member only if it is that member's value; the four values are the only ones that name a member |
| Models.StatusRoundTrip | data/models.py:13-17 | every status survives the trip to its stored string and back, and two statuses never share a string |
| Models.DefaultProfile | data/models.py:22-33 | a profile built from the column defaults has karma 0, daily match count 0, no phone and phone sharing off |
| Models.NewListing | data/models.py:44-53 | a freshly inserted offer or request is active and carries the given owner, title, description, category and image |
| Models.NewMatchRequest | data/models.py:104-127 | a new match request is pending and not notified; both timestamps are the insertion instant; requester, offerer, offer, request and message are as given |
| Common.Prefix | services/matching_ipv4.py:5 | Python's `s[:n]` is a prefix of s; its length is min(n, len) for n >= 0, and it drops the last -n elements for n < 0 |
| Common.PrefixOfPrefix | services/matching_ipv4.py:5 | slicing at n and then at a smaller k >= 0 is slicing at k |
| Tables.Award | data/crud_ipv4.py:202-208 | `add_karma` on the table: the profile's karma becomes its old karma (null read as 0) plus the points, every other profile and column is unchanged, and a missing profile changes nothing |
| Tables.TwoAwards | data/crud_ipv4.py:308-318 | two awards in a row add up for each profile, whoever the two recipients are |
| Tables.OwnerOf | data/crud_ipv4.py:252-256 | the offerer of a new match request is the owner of the offer iff the offer id is truthy and the offer exists |
| Tables.Deactivated | data/crud_ipv4.py:120-124 | marking a listing matched sets only that row inactive, and only when the id is truthy; every other row is untouched |
| Tables.ListingsExcept | data/crud_ipv4.py:340-353 | `get_all_offers` / `get_all_requests` return every row, or every row not owned by the excluded profile when one is given, unchanged |
| Tables.Select | data/crud_ipv4.py:273-295 | the `get_match_requests_*` queries return exactly the rows their filter holds of (offer and status; requester and optional status; offerer and optional status), unchanged |
| Tables.SentCount | data/crud_ipv4.py:215-221 | the count `can_send_match_request` reads: zero iff none of the requester's rows was created at or after the start of today, and never more than the stored rows |
| Tables.RefusedIffThreeToday | data/crud_ipv4.py:215-222 | sending is refused iff three distinct stored rows of the requester were created at or after the start of today |
| Tables.RefusedStaysRefused | data/crud_ipv4.py:215-222 | once refused, sending stays refused after any row is inserted under a new id |
| Tables.SentCountAfterInsert | data/crud_ipv4.py:215-222 | inserting a row under a new id raises the daily count by one exactly when the row is this requester's and created today |
| Tables.SentCountAfterDelete | data/crud_ipv4.py:323-330 | deleting a row lowers the daily count by one exactly when it counted, so cancelling gives the day's slot back |
| Tables.FirstSelected | data/crud_ipv4.py:232 | the first row of a query is the lowest id in range that the filter holds of, and no id below it qualifies; None when no id qualifies |
| Tables.ExistingMatchRequest | data/crud_ipv4.py:225-232 | a row found by the duplicate lookup is a stored row with this requester and, where given (not None), this request id and this offer id |
| Tables.ExistingMatchRequestNone | data/crud.py:348-354 | the lookup finds nothing iff no stored row matches the requester and every given id; a None id is a wildcard |
| Tables.InsertKeepsKeysUnique | data/crud_ipv4.py:248-269 | when the lookup finds nothing, inserting the new row creates no duplicate (requester, offer, request) key |
| Tables.InsertKeepsInvariants | data/crud_ipv4.py:248-269 | appending a targeted row under the next id after an empty lookup keeps the keying, target and no-duplicate invariants |
| Tables.InsertThenLookup | data/crud_ipv4.py:248-269 | after the insert, repeating the same lookup finds the new row, and the daily count grows by one exactly when the row was created today |
| Tables.ReplaceRow | data/crud_ipv4.py:298-302 | rewriting a row's status or flags keeps the table invariants |
| Tables.RemoveRow | data/crud_ipv4.py:323-330 | deleting a row keeps the table invariants |
| Tables.GivenProfile | data/crud_ipv4.py:315-318 | a profile id is awarded on completion only when it is present and non-empty |
| Tables.AcceptedKarma | data/crud_ipv4.py:308-312 | on accepted, each profile gains 5 points per referenced existing listing it owns and nothing else |
| Tables.StatusKarma | data/crud_ipv4.py:308-318 | the karma a status write causes touches only karma and keeps every profile; a status other than accepted or completed changes nothing |
| Tables.CompletedKarma | data/crud_ipv4.py:314-318 | on completed, each profile gains 5 points as requester and 5 as offerer (when recorded and non-empty) and nothing else |
| Store.OfferDeletedPoints | data/crud_ipv4.py:105 | deleting an offer is a penalty: -3 in the hosted version (the reverse of the creation award), -1 in the ORM version (data/crud.py:125) |
| Store.StoredIfGiven | data/crud_ipv4.py:26 | the hosted version writes the phone column, and the request image column (data/crud_ipv4.py:138-139), only for a non-empty value; the ORM version stores exactly what it is given |
| Store.UpdatedProfile | data/crud.py:54-69 | every column passed as a keyword (full name, postal code, phone hash, karma, daily match count) is written and every other keeps its value, as are phone and share_phone when not None; the id never changes; on a clash a named `phone` wins in the hosted version (data/crud_ipv4.py:45-53) and the `phone_hash` keyword wins in the ORM version |
| Store.UpdateWithNothingKeeps | data/crud.py:54-69 | an update passing nothing leaves the profile as it was |
| Store.UpdateIdempotent | data/crud_ipv4.py:45-53 | repeating the same update changes nothing more |
| Store.StoredOfferImage | data/crud_ipv4.py:67-75 | the hosted offer insert takes no image; the ORM one stores the given image (data/crud.py:88-89) |
| Store.Store.constructor | data/models.py:22-127 | a fresh store has four empty tables and satisfies the invariant |
| Store.Store.CreateProfile | data/crud.py:38-45 | a new profile has karma 1, the given name, postal code and sharing flag, and the variant's stored phone; an existing id raises and changes nothing |
| Store.Store.UpdateProfile | data/crud.py:54-69 | a missing profile gives None and changes nothing; otherwise only that profile changes, as `UpdatedProfile` says for the store's version, and the invariant holds |
| Store.Store.AddKarma | data/crud.py:214-220 | the profiles table becomes `Award(old, id, points)`; the result is the updated profile, or None for a missing profile |
| Store.Store.CreateOffer | data/crud_ipv4.py:67-80 | one active offer is inserted under a fresh id, the offer counter advances by one, and the owner gets +3 (data/crud.py:88-97) |
| Store.Store.DeleteOffer | data/crud_ipv4.py:96-117 | a missing id gives None and changes nothing; otherwise the offer is removed and its owner is charged the variant's penalty (data/crud.py:112-128) |
| Store.Store.MarkOfferMatched | data/crud_ipv4.py:120-124 | a missing id gives None; otherwise only that offer becomes inactive and its owner gets +5 (data/crud.py:130-141) |
| Store.Store.CreateRequest | data/crud_ipv4.py:130-142 | one active request is inserted under a fresh id, the request counter advances by one, and the owner gets +1 (data/crud.py:146-154) |
| Store.Store.DeleteRequest | data/crud_ipv4.py:159-182 | a missing id gives None and changes nothing; otherwise the request is removed and its owner gets -1 (data/crud.py:169-185) |
| Store.Store.MarkRequestMatched | data/crud_ipv4.py:184-188 | a missing id gives None; otherwise only that request becomes inactive and its owner gets +5 (data/crud.py:187-197) |
| Store.Store.CreateMatchRequest | data/crud_ipv4.py:235-270 | refuses iff over the daily limit, else iff no truthy target, else iff the duplicate lookup finds a row, in that order; a refusal changes nothing; success inserts exactly one pending row under the next id, whose offerer is the offer's owner if the offer exists, advances the counter by one, and gives the requester +1 (data/crud.py:246-277) |
| Store.Store.InsertMatchRequest | data/crud_ipv4.py:252-269 | the insertion step: one new pending row under the next id and +1 to the requester, keeping the invariant |
| Store.Store.UpdateMatchRequestStatus | data/crud_ipv4.py:298-320 | a missing id gives None and changes nothing; otherwise the status and update instant are written whatever the previous status, and the accepted or completed cascade follows (data/crud.py:300-323) |
| Store.Store.ApplyStatusEffects | data/crud_ipv4.py:308-318 | on accepted, the referenced offer and request become inactive and their owners are paid; on completed, requester and offerer are paid; otherwise nothing changes |
| Store.Store.MarkListingsMatched | data/crud_ipv4.py:308-312 | the accepted cascade: `mark_offer_matched` and then `mark_request_matched` on the truthy ids |
| Store.Store.AwardCompletion | data/crud_ipv4.py:314-318 | the completed cascade: +5 to the requester and +5 to the offerer when present |
| Store.Store.CancelMatchRequest | data/crud_ipv4.py:323-330 | deletes iff the row exists, belongs to the requester and is pending; returns whether it deleted; no other row and no karma changes (data/crud.py:326-336) |
| Store.Store.MarkMatchRequestNotified | data/crud_ipv4.py:333-338 | sets the notified flag on an existing row and returns it; the hosted version keeps the update instant, the ORM version moves it to now (data/crud.py:339-345 with the column's onupdate); a missing id gives None and changes nothing |
| Matching.IsNearby | services/matching_ipv4.py:1-5 | never nearby when either code is missing or empty; two equal non-empty codes are always nearby (services/matching.py:4-8) |
| Matching.NearbySymmetric | services/matching_ipv4.py:1-5 | proximity does not depend on the order of the two codes |
| Matching.NearbyAtCoarserLevel | services/matching_ipv4.py:5 | codes nearby at a level are nearby at every smaller non-negative level |
| Matching.NearbyAtLevelZero | services/matching_ipv4.py:3-5 | at level 0 any two non-empty codes are nearby |
| Matching.Contains | services/matching_ipv4.py:36 | the empty pattern is contained in every title, and a contained pattern is no longer than the title |
| Matching.ContainsAt | services/matching_ipv4.py:36 | `like '%t%'` holds iff t occurs in the title at some position |
| Matching.Lower | services/matching.py:28 | folding maps upper-case letters to lower-case letters and leaves every other character alone |
| Matching.Fold | services/matching.py:28 | folding keeps the length and folds each character |
| Matching.LikeImpliesILike | services/matching.py:28 | every case-sensitive match is also a case-insensitive one |
| Matching.AllCandidates | services/matching_ipv4.py:25-82 | an unknown user has no entries; the user's own name sits on the offer or the request side of every entry |
| Matching.SortByScore | services/matching_ipv4.py:85 | `sort(key=score, reverse=True)`: the full-score entries occupy exactly the first positions, as many as there were full-score entries |
| Matching.Ranked | services/matching_ipv4.py:85-86 | the result is a prefix of the sorted entries, of length min(max_results, count) |
| Matching.ScoresSplit | services/matching_ipv4.py:45 | every entry has exactly one of the two scores |
| Matching.SortByScoreKeepsAll | services/matching_ipv4.py:85 | sorting is a permutation: every entry kept as often as it occurred |
| Matching.SortByScoreOrdered | services/matching_ipv4.py:85 | sorted entries are in non-increasing score order |
| Matching.SortByScoreStable | services/matching_ipv4.py:85 | the sort is stable: entries of equal score keep their relative order |
| Matching.OfferSideFirst | services/matching_ipv4.py:85 | for equal scores, offer-side entries come before request-side entries |
| Matching.RankedOrdered | services/matching_ipv4.py:85-86 | the truncated result is ordered and has at most max_results entries, never more than there were candidates |
| Matching.PairsForOfferMembership | services/matching_ipv4.py:32-54 | the entries for one offer are exactly its pairings with requests owned by someone else whose title contains the offer's title |
| Matching.PairsForRequestMembership | services/matching_ipv4.py:61-82 | the entries for one request are exactly its pairings with offers owned by someone else whose title contains the request's title |
| Matching.OfferSideMembership | services/matching_ipv4.py:31-54 | an offer-side entry is an entry of one of the user's offers, and every such entry appears |
| Matching.RequestSideMembership | services/matching_ipv4.py:60-82 | a request-side entry is an entry of one of the user's requests, and every such entry appears |
| Matching.OfferSideExactly | services/matching_ipv4.py:28-54 | offer-side entries are exactly the user's own offers paired with other owners' requests whose title contains the offer title |
| Matching.RequestSideExactly | services/matching_ipv4.py:57-82 | request-side entries are exactly the user's own requests paired with other owners' offers whose title contains the request title |
| Matching.CandidateMembership | services/matching_ipv4.py:20-82 | soundness and completeness: an unknown user has no candidates; otherwise the candidates are exactly the two kinds of pairing above (services/matching.py:17-61) |
| Matching.CandidateScore | services/matching_ipv4.py:45 | an entry scores full iff the user's code is nearby the counterpart owner's; an owner without a profile always gives half (services/matching.py:32) |
| Matching.FindMatchesForUser | services/matching_ipv4.py:7-86 | the loop-built, sorted and sliced result equals `Ranked(AllCandidates(...), max_results)`; an unknown user gets [] (services/matching.py:10-65) |
| Matching.FindMatchesWithDefaults | services/matching_ipv4.py:7-12 | the call with default arguments returns at most 10 entries, with proximity level 3 and `like` in the hosted version and level 2 and `ilike` in the ORM version (services/matching.py:10) |
| Matching.CollectOfferSide | services/matching_ipv4.py:31-54 | the first pair of loops appends exactly the offer-side entries, in order |
| Matching.CollectForOffer | services/matching_ipv4.py:41-54 | the inner loop appends one entry per counterpart request, in order |
| Matching.CollectRequestSide | services/matching_ipv4.py:60-82 | the second pair of loops appends exactly the request-side entries, in order |
| Matching.CollectForRequest | services/matching_ipv4.py:70-82 | the inner loop appends one entry per counterpart offer, in order |
| Potential.Product | data/crud.py:386-395 | the offers-requests join read at its evident intent, as the unconditioned cross product: one pair per (offer, request) |
| Potential.ProductMembership | data/crud.py:386-395 | a pair is in that cross product iff its offer and its request are in their tables |
| Potential.ExistingPairs | data/crud.py:400-404 | every match request the profile sent or received contributes its (offer id, request id) pair |
| Potential.PotentialMatches | data/crud.py:372-410 | every pair returned has both listings in their tables, exactly one side owned by the profile, and is named by no match request the profile sent or received |
| Potential.PotentialMatchMembership | data/crud.py:372-410 | over the cross-product reading of the join, a pair is a potential match iff both listings exist, exactly one side is the profile's, and no match request the profile sent or received names that pair |
| Potential.RequestedPairExcluded | data/crud.py:404-410 | once the profile has requested an (offer, request) pair, that pair is never offered as potential again |
| Mappers.NormalizeStatus | services/mappers.py:5-10 | None becomes "unknown", an enumeration member becomes its stored value, and a string is kept as it is |
| Mappers.NormalizeAgrees | services/mappers.py:8-10 | a member and its stored string normalise to the same text, never "unknown" |
| Mappers.FromMatch | services/mappers.py:13-27 | ids are copied; description and image come from the embedded listing and are None without one; the status is normalised; the other fields keep their defaults |
| Mappers.FromMatchRequest | services/mappers.py:30-62 | initiator = requester, responder = offerer; every offer (or request) field is None when that listing is missing, and name and postal are None when its profile is missing; otherwise they are copied |
| Mappers.FromOfferRequestPair | services/mappers.py:67-95 | id None, status "potential", no message, initiator or responder; ids, descriptions, images and titles are copied from the two rows, names and postal codes from their profiles |
| Mappers.PotentialOnlyFromPairs | services/mappers.py:25-80 | records built from stored rows always have an id and never show "potential" unless stored as that text; records built from pairs never have an id |
| Mappers.NotPotential | services/mappers.py:80 | no status member's stored value is "potential" |
| Contact.ContactLines | services/email_service.py:45-52 | a preferred line iff a contact with non-empty mode and value is given; a phone line iff sharing is on and a phone is set; the email line iff neither; at least one line; the preferred line comes first |
| Contact.Join | services/email_service.py:53 | joining a single line gives that line |
| Contact.FormatContactInfo | services/email_service.py:39-53 | the block opens with the preferred-contact line when one is given, else with the shared phone line, else with the email line |
| Contact.FormatCases | services/email_service.py:39-53 | the block is preferred + "<br>" + phone, or just one of them, or the email line, according to which lines are present |
| Scenarios.SendForOffer | data/crud_ipv4.py:242-269 | under the daily limit, a request for an offer no stored row names succeeds and raises today's count by one |
| Scenarios.FourthRequestRefused | data/crud_ipv4.py:7 | after three successful requests on one day, a fourth is refused with the daily-limit error |
| Scenarios.WildcardBlocks | data/crud_ipv4.py:225-232 | a request naming an offer and a request blocks a later one naming only that offer |
| Scenarios.WildcardOneWay | data/crud_ipv4.py:225-232 | a request naming only an offer does not block a later one naming that offer and a request |
| Scenarios.PendingListedUntilCancelled | data/crud_ipv4.py:273-330 | a sent request is listed by `get_match_requests_by_requester` and `get_match_requests_for_offer` with status pending until its requester cancels it, and by neither afterwards |
| Scenarios.CancelKeepsKarma | data/crud_ipv4.py:323-330 | sending and then cancelling leaves the requester's +1 in place |
| Scenarios.AcceptOfferOnly | data/crud_ipv4.py:308-312 | accepting a request that names only an offer pays the offer's owner 5 and deactivates the offer |
| Scenarios.AcceptTwicePaysTwice | data/crud_ipv4.py:298-312 | accepting the same match request twice pays the offer's owner twice |
| Scenarios.StatusMovesBack | data/crud_ipv4.py:298-302 | a completed request can be set back to pending and then cancelled |
| Scenarios.OfferRoundTripKarma | data/crud_ipv4.py:78-105 | creating and deleting an offer nets 0 in the hosted version and +2 in the ORM version (data/crud.py:93,125) |

## Left out

- **Persistence and infrastructure.** Hashing the phone with SHA-256 (hosted `create_profile`), the Supabase and SQLAlchemy clients, commits and sessions are not modelled. The stored phone stands for the hash.
- **Storage image removal.** The removal inside `delete_offer` and `delete_request` is foreign I/O inside a try/except, so it is a no-op here.
- **Referential integrity.** Foreign keys are not modelled. Tables accept any owner id, match requests may name listings that do not exist, and deleting a listing leaves the match requests that refer to it. The code deletes no dependent rows either.
- **Concurrency.** The read-modify-write of karma and the check-then-insert of `create_match_request` run sequentially in the model.
- **Floating point.** The scores 1.0 and 0.5 are the two-valued `Score`.
- **SQL `like`/`ilike` wildcards.** These are plain substring containment. `%` or `_` inside a title is not interpreted.
- **Case folding.** `ilike` folds ASCII letters only.
- **Result order.** SQL row order is not specified by the source. The model takes id order, and table order for the matching sequences.
- **Timestamps.** Timestamps are integers. `parse_datetime` and the `created_at` field of the display record are not part of this model; `parse_datetime` is imported but defined nowhere.
- **Empty embedded rows.** An embedded listing in a display-record row is absent or present. A present but empty dictionary, which the code treats as falsy, is not distinguished.
- **Null embedded profile.** The pair builder raises on an explicit null `profiles` value (`None.get`). The model reads it as an absent profile.
- **Operations outside the core:**
  - `get_profile`, `delete_profile` and `authenticate_user`;
  - `get_offers` and `get_requests`, with their limit and offset;
  - `update_offer` and `update_request`.
- **Match table.** The Match table itself is left out, and so is `daily_match_count_reset`. The field `dailyMatchCount` is carried but never changed, as in the code.
- **Email, geolocation and pages.** Email delivery, geolocation and the Streamlit pages are not modelled.
- **Code slips modelled at their evident intent:**
  - the `.data.data` slip in hosted `delete_offer` (data/crud_ipv4.py:97-98);
  - `offer.get` / `req.get` on ORM objects and the module-level `supabase.table` delete in the ORM deletes (data/crud.py:118,127,175,184);
  - `models.User`, `user.name` and `user_id` in the ORM `find_matches_for_user`, read as the profile table and its `full_name` and `profile_id` columns;
  - comparing a string status with enumeration members in `update_match_request_status`, and passing the enumeration member `MatchStatus.pending` to the hosted client in the insert and in the cancel filter (data/crud_ipv4.py:264,328), all modelled with one status type.
- **No invented rules.** The code does not enforce status monotonicity, does not refund karma on cancel, and does not check that a target is active or belongs to someone else. The model adds none of these; `Scenarios.StatusMovesBack`, `Scenarios.CancelKeepsKarma` and `Scenarios.AcceptTwicePaysTwice` exhibit them.
- **Missing counterpart profile in the ORM search.** In the ORM `find_matches_for_user`, a counterpart whose owner has no profile would raise on `req.user.postal_code`. The model follows the hosted version, which reads the profile as `{}`, gives None name and postal fields, and scores half.
- Matching.IsNearby: the ensures states the two edge directions (missing or empty codes are never nearby; equal codes always are). Prefix comparison at other levels is carried by `NearbyAtCoarserLevel` and `NearbyAtLevelZero`, not by a full iff.
- Store.StoredIfGiven: in the ORM version the phone is stored as given, at the evident intent. As written, `create_profile` passes `phone=` to the profile model, which maps only `phone_hash` (data/crud.py:42, data/models.py:28); the declarative constructor rejects the unknown keyword.
- Store.Store.CreateProfile: the ORM version creates the profile, at the evident intent. As written it raises a TypeError on every call, because of the `phone=` keyword above, and stores nothing.
- Store.UpdatedProfile: a given phone replaces the stored one in both versions, at the evident intent. As written, the ORM `update_profile` assigns `profile.phone` (data/crud.py:60), an attribute with no column, so the stored phone hash does not change. The `phone_hash` keyword writes the stored phone column directly, since hashing is not modelled. Keywords for `id`, `created_at` and `daily_match_count_reset`, and keywords that name no column, are not modelled: the first would re-key the row, the other two columns are not part of this model, and the last are ignored by the ORM `setattr` and rejected by the hosted client.
- Store.Store.UpdateProfile: inherits the reading of `UpdatedProfile` above; the ORM version as written does not persist a new phone, and the keywords listed there are not accepted.
- Potential.Product: `get_potential_matches` joins offers and requests without an ON clause (data/crud.py:386,392), and no foreign key links the two tables (data/models.py:47,68), so no join condition can be inferred; the function also imports a top-level `models` module (data/crud.py:378) instead of the package's own. The model reads the join as the unconditioned cross product, the evident intent.
- Potential.ProductMembership: characterises that cross product, not a join the code as written builds.
- Potential.PotentialMatchMembership: the iff holds over the cross-product reading of the join above.
