# A verified model of hayate-auth

hayate-auth is an authentication library: sessions, two-factor sign-in and an OAuth 2.1 authorization server over a
small database adapter. Its security rests on protocols whose only atomic operations are single adapter calls, and on
a few text codecs. This project models those protocols and codecs in Dafny and proves what the code and the standards
it follows promise of them.

Run `dafny verify dfyconfig.toml` to check everything.

## How the model is laid out

**The OAuth token protocol.** `OAuthStore` holds the `oauth_code`, `oauth_token` and `oauth_consent` tables and the
writes made on them. `OAuthMachine` is a state machine in which every awaited adapter call of every handler is one
step, any number of requests interleave, and each request is the program point it waits at with its local variables.
A log that no handler reads records the source and minter of each token, the code of each family, what was disclosed,
and which families an intervention has written to. `OAuthInvariant` is the inductive invariant and
`OAuthPreservation` proves that every event of every interleaving keeps it. On top of it stand:

* `TokenFamilies`: conservation (one live row or pending insert per family) and the linear rotation chain;
* `FamilyRevocation`: refresh reuse, token revocation and consent revocation are final in every interleaving, however
  the racing mints and rotations are suspended, and code replay is for as long as the code's row is stored;
* `CodeRows`: exactly when a code's row and the replay marker on it stay stored, code replay from the read on, and
  what goes wrong in every state in which an expired-code delete is still pending;
* `LostBurn`: exactly when the burn of an answered replay can still be lost, in runs of clients that present only
  refresh tokens they were given;
* `ExpiredCodeRace` and `ConsentRace`: runs on one clock that reach the two states in which a race is lost;
* `NoFalseAlarm`: the winner of a claim is never turned back without cause, and losers write nothing;
* `RequestsAlone`: what each request leaves when nobody else moves. Such a request is one of the interleavings, so the
  tables stay reachable and the theorems above go on holding of them;
* `TokenEndpoint`: the handlers as methods that change the tables in place, with contracts that say what a caller
  finds afterwards; the class invariant is that the tables are reachable.

**DPoP.** `DPoPReplay` relates the time window, the truncated expiry stamps, the lazy cleanup and the unique index of
the two replay stores to "accepted at most once". `PercentEncoding` and `HtuComparison` are the URI normalisation and
the comparison of a proof's `htu` with the request; `Base64` is the canonical base64url codec and the thumbprint check.

**Guarded counters.** `Sessions` covers idle expiry over sequential use and touches under any interleaving with skewed
clocks; `TwoFactor` covers the TOTP window search and the single use of time steps.

**Supporting refinements.** `Introspection` compares the separated RFC 7662 verifier with the direct one. `Sql` is a
small SQL evaluator (positional parameters, three-valued logic) and `WhereCompiler` the adapter that compiles `Where`
lists to it. `Timestamps` proves that stored stamps compare like instants, on which the other modules' whole-second
stamps rest. `PasswordHash` is the printed password-hash format, over `Splitting`, `Decimal` and `Base64`. `Ascii` and
`Wrappers` are shared helpers.

Randomness, clocks, the key derivation functions, HOTP, SHA-256, `urlsplit` and sort order are parameters. A digest
is taken to determine its text: a code or token credential is identified with the row it was minted for.

## What the proofs found

* A replayed code does not always burn its family. The delete of an expired code carries no guard on `used`, so a
  request that read the code before its claim and is suspended at that delete can remove the row after the replay
  marked it. `CodeRows.MarkerSurvivesExactly` shows that the marker stands in every continuation exactly when no such
  request is suspended; then `CodeRows.CodeReplayBurnsFamily` needs no hypothesis on later events. Otherwise
  `LostBurn.BurnIsLostExactly` gives the exact condition for runs that present only refresh tokens that were
  disclosed: once the replay has been answered the burn can still be lost if and only if such a delete is pending, no
  token row marks the family, and a mint of it is on course. `ExpiredCodeRace` reaches such a state.
* A touch interval below one second breaks the idle timeout: `Sessions.NoSpuriousIdleLogout` shows that the promise to
  regular users holds exactly for intervals of at least a second.
* How late a DPoP insert may come is exact: a proof is accepted at most once in every run exactly when inserts come
  within `DPoPReplay.Margin` of the window check. That is `clock_skew` for the in-memory store; the adapter store's
  truncated stamps add the rest of the second the expiry falls in, a full second under the default policy.
* A mint past its last check still discloses its token after a consent revocation has finished; the token is revoked
  by then. `FamilyRevocation.RetiredGrantDisclosesExactly` shows that nothing else of a replaced grant is disclosed.
* Percent-encoding normalisation is not idempotent on every path; `PercentEncoding.IdempotentIffNoTrap` says exactly on
  which, and well-formed paths are among them.
* Introspection with the separated verifier also accepts refresh tokens, which the direct verifier never does;
  `Introspection.RefreshTokensDiffer` says exactly which. It refuses stored keys that are not thumbprints, which the
  direct one returns; otherwise the two agree (`Introspection.SeparatedAgreesWithDirect`).

## Model

| member | source | states |
|---|---|---|
| OAuthPreservation.DecideIsSensible | src/hayate_auth/authorization_server.py:771-1077 | Every handler step moves each row it writes along the `used` and `revoked` state graphs, inserts a token only after a won claim, and replaces a grant only by a fresh one. |
| OAuthInvariant.OthersStayOk | src/hayate_auth/authorization_server.py:771-1095 | Whatever one request does, everything another suspended request relies on (claimed codes, spent tokens, markers, its own inserted row) stays true. |
| OAuthPreservation.StepPreserves | src/hayate_auth/authorization_server.py:771-1077 | Every step of every request keeps the whole invariant, and changes rows only in the allowed directions. |
| OAuthPreservation.ArrivalPreserves | src/hayate_auth/authorization_server.py:674-699 | A request arriving with any presented credential keeps the invariant. |
| OAuthPreservation.Reachable | src/hayate_auth/authorization_server.py:771-1077 | Every state of every interleaving from the empty database satisfies the invariant. |
| TokenFamilies.OneHolderPerFamily | src/hayate_auth/authorization_server.py:857-862 | In every reachable state, active rows of a family plus mints that have claimed and not inserted number at most one. |
| TokenFamilies.OnePerDepth | src/hayate_auth/authorization_server.py:968-985 | Two tokens of a family the same number of rotations away from the code are the same token. |
| TokenFamilies.AncestorsDescend | src/hayate_auth/authorization_server.py:946-985 | A later token of a chain shares user, client, grant and resource, its scope is contained, a public client's key is unchanged, and every replaced token is spent. |
| TokenFamilies.Rooted | src/hayate_auth/authorization_server.py:868-878 | Every token's family grew from one recorded code row and stays within its user, client, grant, resource and scope. |
| TokenFamilies.RotationChain | src/hayate_auth/authorization_server.py:946-985 | In every reachable state any two tokens of a family lie on one linear chain with these properties, rooted at one code. |
| TokenFamilies.BoundCodeBindsToken | src/hayate_auth/authorization_server.py:844-855 | A token exchanged for a key-bound code carries that key, for every kind of client. |
| TokenFamilies.SingleUse | src/hayate_auth/authorization_server.py:858-867 | No code opens two families, and no code or token is the source of two tokens. |
| TokenFamilies.OnlyRegisteredClientsRefresh | src/hayate_auth/authorization_server.py:1004-1023 | In every reachable state a token carries a refresh token exactly when its owner's client is registered for the refresh grant. |
| FamilyRevocation.QuietStays | src/hayate_auth/authorization_server.py:1028-1060 | Once a marker is up and the active rows behind it are cleared, any active row that appears belongs to a mint that still has the failing check in front of it. |
| FamilyRevocation.FinishingIsQuiet | src/hayate_auth/authorization_server.py:790-808 | A request that answers a replay, reuse or revocation leaves its marker up and nothing disclosed active behind it. |
| FamilyRevocation.ReactionReports | src/hayate_auth/authorization_server.py:782-809 | A reaction once begun is carried through: when its request has finished, it has marked and burned. |
| FamilyRevocation.ReactionIsFinal | src/hayate_auth/authorization_server.py:1041-1060 | From any reachable state in which a request has begun to react: once it has finished, no disclosed token behind its marker is active, then or in any continuation in which the marked row is stored. |
| CodeRows.CodeReplayBurnsFamily | src/hayate_auth/authorization_server.py:782-809 | Section 4.1.2 of RFC 6749: a request reads a claimed code; once it has finished, no token of the family ever disclosed is active in any later state that stores the code's row, and every later state stores it if no request was suspended at its delete at the read. |
| CodeRows.RowSurvivesExactly | src/hayate_auth/authorization_server.py:810-812 | A code past its claim is stored in every continuation exactly when no request is suspended at its delete. |
| CodeRows.MarkerSurvivesExactly | src/hayate_auth/authorization_server.py:810-812 | A replay marker stands in every continuation exactly when no request is suspended at the delete of its row. |
| CodeRows.PendingDeleteLosesTheBurn | src/hayate_auth/authorization_server.py:810-812 | In every reachable state with the marker up, its delete pending, no marked token row and a mint of the family on course before its code scan, some continuation discloses a live token of the family. |
| CodeRows.LossNeedsDeleteAndNoMark | src/hayate_auth/authorization_server.py:782-812 | In any run at all, the burn of an answered replay is lost only if the delete of its row was pending and no token row marked the family. |
| LostBurn.GroundedRun | src/hayate_auth/authorization_server.py:548-666 | In runs that present only disclosed refresh tokens, every code, token and request works for a generation its consent row can never have been revoked under, and refreshes only disclosed tokens. |
| LostBurn.StuckRun | src/hayate_auth/authorization_server.py:988-1060 | Such runs never revive a family whose active rows and pending inserts all belong to mints that are burning, cannot finalize their source, or work for a replaced grant. |
| LostBurn.BurnIsLostExactly | src/hayate_auth/authorization_server.py:782-812 | In every state honest use reaches with a replay answered and its row stored, some honest continuation makes a disclosed token of the family active exactly when the row's delete is pending, no token row marks the family and a mint of it is on course before its code scan. |
| FamilyRevocation.RefreshReuseBurnsFamily | src/hayate_auth/authorization_server.py:888-918 | Section 4.14 of RFC 9700: a request reads a refresh token that is not active; once it has finished, the row stays marked for good and no disclosed token of the family is ever active. |
| FamilyRevocation.RevocationBurnsFamily | src/hayate_auth/authorization_server.py:1157-1172 | Section 2.1 of RFC 7009: a revocation finds its client's token; once it has finished, the row stays revoked and no disclosed token of the family is ever active. |
| FamilyRevocation.ConsentRevocationIsFinal | src/hayate_auth/authorization_server.py:1330-1380 | Once a consent revocation has finished, no disclosed token of the generation it replaced or of any earlier one is ever active, and none of these generations ever stands on the consent row again. |
| FamilyRevocation.ReplacedGrantNeverReturns | src/hayate_auth/authorization_server.py:616-654 | A replaced grant is never active again, also under concurrent consents that work from stale reads. |
| FamilyRevocation.GenerationStands | src/hayate_auth/authorization_server.py:616-654 | Over any run, a consent row keeps its generation and its revocation until a consent revocation or a consent over a revoked row replaces them; late creates and merges of stale reads change the scope at most. |
| FamilyRevocation.RetiredGrantNeverDiscloses | src/hayate_auth/authorization_server.py:1041-1060 | Once a grant is replaced, a token bound to it is disclosed later only if its mint was already past its last check. |
| FamilyRevocation.RetiredGrantDisclosesExactly | src/hayate_auth/authorization_server.py:1041-1077 | A token of a replaced grant is disclosed in some continuation exactly when it already is, or its mint only has to answer. |
| ConsentRace.LateDisclosure | src/hayate_auth/authorization_server.py:1044-1077 | In every reachable state with a token about to be disclosed, its user can revoke the grant completely and the answer still comes, with a token that is revoked by then. |
| ConsentRace.LateDisclosureHappens | src/hayate_auth/authorization_server.py:1346-1379 | A complete run on one clock in which the revocation has finished and the disclosure is still to come. |
| ExpiredCodeRace.DeletedMarkerLosesTheBurn | src/hayate_auth/authorization_server.py:810-812 | A complete run on one clock in which the replay has been answered and a disclosed token of its family is active. |
| NoFalseAlarm.WinnerIsNeverTurnedBack | src/hayate_auth/authorization_server.py:1028-1077 | In any run without intervention in the family and with the grant active throughout, the request that won the claim is still minting or has disclosed and finalized. |
| NoFalseAlarm.WinnerFinishes | src/hayate_auth/authorization_server.py:1007-1077 | From any such state the winner needs at most six of its own steps to disclose and finalize. |
| NoFalseAlarm.LoserWritesNothing | src/hayate_auth/authorization_server.py:863-867 | Over a whole run, a request that loses the claim never changes a table. |
| RequestsAlone.AloneIsARun | src/hayate_auth/authorization_server.py:771-1077 | A request that runs alone is one of the interleavings the theorems quantify over. |
| RequestsAlone.AloneStaysReachable | src/hayate_auth/authorization_server.py:674-699 | On tables that some interleaving left, any request run alone leaves such tables again. |
| RequestsAlone.MintAlone | src/hayate_auth/authorization_server.py:988-1077 | A mint alone discloses its token exactly when its source is claimed, the family unmarked and the grant active before it starts; otherwise the family is burned. |
| RequestsAlone.ExchangeContract | src/hayate_auth/authorization_server.py:771-878 | On reachable tables, exactly the exchanges with an accepted code, resource and DPoP header are issued a token: one code spent, one active token added with the code's binding, the header's key, the configured lifetimes and a refresh token if the client is registered for it. A replayed code is marked and leaves its family without an active row; any other request is refused for the first check it fails, and changes nothing but an unused code that has expired. |
| RequestsAlone.RefreshContract | src/hayate_auth/authorization_server.py:881-985 | Exactly the refreshes with an accepted token, resource, scope and header, in a family without a mark, rotate: one token spent, one added with the scope that was asked for, the header's key and the configured lifetimes. A reused token is marked and leaves no active row; any other request is refused for the first check it fails with nothing changed, or burns the marked family. |
| RequestsAlone.RevokeContract | src/hayate_auth/authorization_server.py:1157-1172 | The owning client's revocation revokes the row and every active row of its family and leaves every other row alone, in either lookup order; any other changes nothing. |
| RequestsAlone.ConsentRevocationContract | src/hayate_auth/authorization_server.py:1346-1379 | A consent revocation leaves every code of the owner replayed, every token revoked or compromised, a later generation, and other rows alone. |
| RequestsAlone.ConsentAlone | src/hayate_auth/authorization_server.py:614-666 | An accepted consent always ends in one unused code of the configured lifetime, bound to the active generation and a consented scope; an active generation is kept and its scope widened, otherwise a fresh one starts with the scope asked for. |
| RequestsAlone.LateConsentConflicts | src/hayate_auth/authorization_server.py:620-634 | A create that finds the row another consent has made fails on the unique key and writes nothing. |
| RequestsAlone.AuthorizeAlone | src/hayate_auth/authorization_server.py:367-513 | An earlier consent that covers the scope is reused for a code; otherwise nothing changes. |
| TokenEndpoint.AuthorizationServer.ExchangeCode | src/hayate_auth/authorization_server.py:771-878 | The code exchange in place, with the outcome, the new token's binding and lifetimes, the replay reaction and the refusals of `RequestsAlone.ExchangeContract`. |
| TokenEndpoint.AuthorizationServer.RefreshToken | src/hayate_auth/authorization_server.py:881-985 | The refresh in place, with the outcome, the new token's scope, key and lifetimes, the reuse reaction and the refusals of `RequestsAlone.RefreshContract`. |
| TokenEndpoint.AuthorizationServer.RevokeToken | src/hayate_auth/authorization_server.py:1157-1172 | The revocation in place: the row revoked, no row of the family active, every other row unchanged; nothing for another client. |
| TokenEndpoint.AuthorizationServer.RevokeConsent | src/hayate_auth/authorization_server.py:1346-1379 | The consent revocation in place: every code of the owner replayed, every token revoked or compromised, a later generation, nothing else touched. |
| TokenEndpoint.AuthorizationServer.GrantConsent | src/hayate_auth/authorization_server.py:614-666 | An accepted consent in place: one code added, bound to the generation that is kept or started, with a consented scope. |
| TokenEndpoint.AuthorizationServer.Authorize | src/hayate_auth/authorization_server.py:367-513 | The consent shortcut in place: a code exactly when an unrevoked consent covers the scope. |
| DPoPReplay.RunPreserves | src/hayate_auth/dpop.py:200-227 | Over any run of concurrent validations, accepted proofs stay remembered until the store can first forget them. |
| DPoPReplay.SecondAcceptanceIsLate | src/hayate_auth/dpop.py:526-549 | For both stores, in any run with any cleanups, a key is accepted again only once the store can have forgotten the earlier proof, which is never before its expiry. |
| DPoPReplay.AcceptedOnceExactly | src/hayate_auth/dpop.py:526-549 | Sections 4.3 and 11.1 of RFC 9449: for every policy and either store, no run with inserts less than `d` after the check accepts a proof twice exactly when `d` is at most the store's margin, which `clock_skew` never exceeds. |
| DPoPReplay.AcceptedAtMostOnce | src/hayate_auth/dpop.py:526-549 | Within the margin a key and jti are only ever accepted again with a later iat. |
| DPoPReplay.NoTwoRequestsShareAProof | src/hayate_auth/dpop.py:526-550 | Within the margin two accepted requests never carry the same key, jti and iat. |
| DPoPReplay.AcceptedProofIsBound | src/hayate_auth/dpop.py:526-541 | In any run, an accepted proof was inside the window on both sides when it was checked, and is bound to the expected key and, with an access token, to that token's hash as well. |
| DPoPReplay.RefusedProofFails | src/hayate_auth/dpop.py:526-541 | A proof refused by its checks was outside the window or not so bound. |
| DPoPReplay.NewProofIsAccepted | src/hayate_auth/dpop.py:543-549 | In any run from an empty store, an insert is answered as a replay only if a proof with its own key and jti was accepted before; every other is accepted. |
| DPoPReplay.LateInsertAcceptsTwice | src/hayate_auth/dpop.py:526-549 | For every policy, either store and any delay past the margin, a run within that delay accepts one proof twice. |
| DPoPReplay.AdapterReplayStore.Record | src/hayate_auth/dpop.py:200-227 | At most one cleanup per interval, then the insert of this jkt and jti with the expiry truncated to seconds; a failed insert is a replay only if that row is there. |
| DPoPReplay.InMemoryReplayStore.Record | src/hayate_auth/dpop.py:166-174 | A purge of everything expired, then the insert of this jkt and jti with the full expiry, unless the store holds them. |
| DPoPReplay.VerificationTable.DeleteExpired | src/hayate_auth/dpop.py:206-206 | Exactly the rows whose stamp is before the present second go. |
| DPoPReplay.RecordIsCleanupThenInsert | src/hayate_auth/dpop.py:200-227 | A store call is a stretch of the concurrent model: replayed exactly when this jkt and jti are held, accepted and stored otherwise. |
| PercentEncoding.NormalizePercentEncoding | src/hayate_auth/dpop.py:412-429 | The scanning loop terminates and computes the text of the canonical units, for every path. |
| PercentEncoding.UnreservedCharacters | src/hayate_auth/dpop.py:33-33 | The unreserved characters are the sixty-six of section 2.3 of RFC 3986. |
| PercentEncoding.TripletOctet | src/hayate_auth/dpop.py:416-424 | Two hex digits in either case are the octet they write, and normalise to upper case. |
| PercentEncoding.UnitsSpellThePath | src/hayate_auth/dpop.py:415-428 | The scan splits every path into units that spell it again. |
| PercentEncoding.NormalForm | src/hayate_auth/dpop.py:412-429 | The normal form of a well-formed path is well formed, and scans as its canonical units. |
| PercentEncoding.NormalizationPreservesOctets | src/hayate_auth/dpop.py:412-429 | Normalising keeps the percent-decoded octets. |
| PercentEncoding.EqualNormalForms | src/hayate_auth/dpop.py:412-429 | Section 6.2.2 of RFC 3986: two well-formed paths normalise alike exactly when they differ only in hex case and in escaping unreserved characters. |
| PercentEncoding.IdempotentIffNoTrap | src/hayate_auth/dpop.py:412-429 | On every path, normalising twice changes nothing more exactly when no stray `%` comes to stand before two literals that read as a non-canonical escape. |
| PercentEncoding.IdempotentOnWellFormed | src/hayate_auth/dpop.py:412-429 | Normalisation is idempotent on well-formed paths. |
| PercentEncoding.StrayPercentIsNotIdempotent | src/hayate_auth/dpop.py:418-423 | `%%34%31` becomes `%41`, which becomes `A`. |
| HtuComparison.HtuMatchesSameTarget | src/hayate_auth/dpop.py:432-454 | Two absolute URIs have equal normal forms exactly when scheme, host and effective port agree and their paths normalise alike; with well-formed paths, exactly when the paths differ only as section 6.2.2 of RFC 3986 allows. |
| HtuComparison.AuthorityIsInjective | src/hayate_auth/dpop.py:446-452 | Bracketed hosts, default ports and printed ports never confuse two authorities. |
| HtuComparison.NormalizedPieces | src/hayate_auth/dpop.py:432-454 | Rejected exactly for another scheme, no host or credentials; otherwise lower-case scheme, authority and normalised path, in this order. |
| HtuComparison.AuthorityPieces | src/hayate_auth/dpop.py:446-452 | Port 443 of https and port 80 of http are left out, every other port is printed, and a host with a colon is bracketed. |
| Ascii.EqualInLowerCase | src/hayate_auth/dpop.py:440-446 | Two texts have one lower case exactly when they differ at most in the case of ASCII letters. |
| Base64.DecodeUndoesEncode | src/hayate_auth/dpop.py:359-372 | Decoding an encoding gives the bytes back, in either alphabet; the text has the expected length. |
| Base64.SymbolsOfTheAlphabet | src/hayate_auth/dpop.py:359-360 | The two alphabets are tables 1 and 2 of RFC 4648. |
| Base64.SameBits | src/hayate_auth/dpop.py:359-360 | Section 4 of RFC 4648: the six-bit groups spell the bits of the bytes, filled up with zeros. |
| Base64.UnusedBitsAreDropped | src/hayate_auth/dpop.py:363-372 | The lenient decoder ignores the unused bits of the last group, whatever they are, and no other bit. |
| Base64.BytesOfSextets | src/hayate_auth/dpop.py:363-372 | Re-encoding a decoded text gives it back exactly when its unused bits are zero. |
| Base64.AcceptedTexts | src/hayate_auth/dpop.py:363-372 | Which texts are accepted: non-empty, in the alphabet, of a possible length, with zero unused bits. |
| Base64.CanonicalBijection | src/hayate_auth/dpop.py:359-372 | Section 5 of RFC 4648: decode accepts a text as some bytes exactly when they are non-empty and encode to it. |
| Base64.ValidJktIsA32ByteEncoding | src/hayate_auth/dpop.py:329-337 | `validate_jkt` accepts exactly the encodings of 32-byte strings. |
| Base64.ThumbprintsAreValid | src/hayate_auth/dpop.py:340-348 | Section 3 of RFC 7638: every computed thumbprint passes, and equal thumbprints mean equal digests. |
| Timestamps.DayNumberIsOrdered | src/hayate_auth/session.py:30-31 | Earlier calendar days have smaller day numbers. |
| Timestamps.TextOrderIsTimeOrder | src/hayate_auth/session.py:30-31 | For all UTC moments, comparing the stored texts is comparing the moments truncated to seconds. |
| Timestamps.LessAtFirstDifference | src/hayate_auth/session.py:126-129 | Text order is decided by the first character that differs, or by the shorter text. |
| Timestamps.ExpiryTestIsNumeric | src/hayate_auth/session.py:126-129 | The string test of every deadline is its numeric meaning: never late, less than a second early. |
| Sessions.NoSpuriousIdleLogout | src/hayate_auth/session.py:153-182 | Regular use at gaps of at most `idle_timeout - touch_interval` is never idle-expired before the deadline, over runs of any length, exactly when the touch interval is at least a second. |
| Sessions.NeverOutlivesItsTtl | src/hayate_auth/session.py:101-129 | A session as creation stores it never resolves at or after its creation plus its time to live, however often it is used; without an idle timeout it resolves at every use in an earlier second. |
| Sessions.IdleTimeoutEnds | src/hayate_auth/session.py:126-129 | However a created session was used, a whole idle timeout after its last use it does not resolve. |
| Sessions.ReturnedSessionIsTheCreated | src/hayate_auth/session.py:90-182 | Over every run, with any clocks, what a call returns for a token is the session created for it: its user, id and creation stamp, and only before its creation plus its time to live. |
| Sessions.TouchesAdvance | src/hayate_auth/session.py:161-173 | Over any stretch of any run: k touches advance the activity by at least k whole-second intervals, it never decreases, `expires_at` never moves, a deleted row never returns. |
| Sessions.ReturnedRowsAreLive | src/hayate_auth/session.py:153-182 | Over every run, with any clocks, a call that returned a row returned one neither past its deadline nor idle by its own clock. |
| Sessions.NoneNeedsACause | src/hayate_auth/session.py:145-182 | Whatever interleaves, a call returns None only if the row is gone, is past its deadline or idle by the call's clock, or was so at its first read. |
| Sessions.SuspendedTouchExpires | src/hayate_auth/session.py:145-171 | For every configuration with an idle timeout of two touch intervals or more, a touch left suspended lets a later regular use find the session idle. |
| Sessions.RevocationWins | src/hayate_auth/session.py:172-182 | Once a session row is deleted, every call for its token that returns later returns None. |
| Sessions.RevocationIsFinal | src/hayate_auth/session.py:185-229 | Each of the three revocations deletes exactly the sessions it names, and every call that returns later for one of their tokens returns None. |
| Sessions.SessionStore.ResolveSession | src/hayate_auth/session.py:132-182 | One call alone: an absent row; a dead row, deleted; a live one, touched exactly when its activity is a touch interval old and otherwise as it was; with the exact new table. |
| Sessions.SessionStore.CreateSession | src/hayate_auth/session.py:90-108 | The returned record has the call's user, id, creation stamp and deadline and is stored under the token; no use of it survives its time to live, without an idle timeout it resolves at exactly the instants of an earlier second, and it resolves at once when both times are at least a second. |
| Sessions.SessionStore.RevokeUserSession | src/hayate_auth/session.py:211-216 | Exactly the owned session with this id goes, and the count says whether there was one. |
| Sessions.SessionStore.RevokeUserSessions | src/hayate_auth/session.py:219-229 | Exactly the user's sessions go, except the excepted one, and are counted. |
| Sessions.ResolvedIsARun | src/hayate_auth/session.py:132-182 | One call alone is a run of the concurrent model. |
| Sessions.ListActiveSessions | src/hayate_auth/session.py:204-208 | The loop keeps the unexpired records. |
| Sessions.ActiveInOrder | src/hayate_auth/session.py:204-208 | The records that are kept keep their order. |
| Sessions.ListedIffResolvable | src/hayate_auth/session.py:191-208 | A session is listed exactly when its own cookie would still resolve at that moment. |
| TwoFactor.MatchingStep | src/hayate_auth/totp.py:39-57 | The loop over the window returns the highest matching step, or None. |
| TwoFactor.HighestDecides | src/hayate_auth/totp.py:39-57 | For a code of ASCII digits the returned step is above a stored one exactly when some matching step of the window is, the window being the steps whose thirty seconds lie around the instant; any other code matches nothing. |
| TwoFactor.NoStepClaimedTwice | src/hayate_auth/two_factor.py:165-191 | Section 5.2 of RFC 6238: in every interleaving, claims between two enrolment writes strictly raise the step, so none is claimed twice. |
| TwoFactor.RemovedFactorNeverPasses | src/hayate_auth/two_factor.py:174-191 | In every interleaving, once the row a sign-in read is removed, that sign-in never passes, also after a new enrolment. |
| TwoFactor.SequentialSignIn | src/hayate_auth/two_factor.py:165-191 | With nothing interleaved a sign-in passes exactly when a step of the window above the stored one matches, and the highest such step is stored and claimed; otherwise nothing changes. |
| TwoFactor.SequentialEnable | src/hayate_auth/two_factor.py:41-71 | An enrolment alone is refused while enabled; otherwise the row has the new secret, is disabled and starts at step zero. |
| TwoFactor.SequentialConfirm | src/hayate_auth/two_factor.py:83-103 | A confirmation alone enables exactly on a match within one step of the clock, and changes nothing else. |
| TwoFactor.SequentialDisable | src/hayate_auth/two_factor.py:106-121 | A removal alone deletes the row exactly when it is enabled and a step within one of the clock matches. |
| TwoFactor.TwoFactorTable.SignInTotp | src/hayate_auth/two_factor.py:151-196 | The same of the handler, with the step it stores and everything it leaves alone. |
| TwoFactor.TwoFactorTable.EnableTotp | src/hayate_auth/two_factor.py:41-71 | Refused while enabled; otherwise a new secret, disabled, with the step reset. |
| TwoFactor.TwoFactorTable.VerifyEnrollment | src/hayate_auth/two_factor.py:83-103 | Enabled exactly when some step of the window matches; nothing else changes. |
| TwoFactor.TwoFactorTable.DisableTotp | src/hayate_auth/two_factor.py:106-121 | The row goes exactly when it is enabled and some step of the window matches. |
| Introspection.VerifyDocument | src/hayate_auth/introspection.py:107-152 | For every decoded document: accepted exactly when active, with an audience text or a list of them that names the resource, a user, text scopes and a proper key statement; and the principal is the one these members state. |
| Introspection.VerifiedExactly | src/hayate_auth/authorization_server.py:1504-1533 | `verify_token` accepts exactly the access tokens of active, unexpired rows of the asked resource, with what the row says, and raises exactly when such a row has no user. |
| Introspection.AnswerDescribesTheRow | src/hayate_auth/authorization_server.py:1259-1297 | Section 2.2 of RFC 7662: an active answer has exactly the members of the row found, with the expiry of the kind of token it was found as; any other answer says only that it is inactive. |
| Introspection.EitherColumnIsFound | src/hayate_auth/authorization_server.py:1114-1126 | Whatever the hint, a row is found exactly when the token is in either column, as the kind whose column it is in. |
| Introspection.AccessTokenIsFoundAsItself | src/hayate_auth/authorization_server.py:1114-1126 | An access token is found in its own column whatever the hint. |
| Introspection.ActiveBodyIsAcceptable | src/hayate_auth/authorization_server.py:1279-1297 | The active answer passes the verifier exactly when its user is named and its key is a thumbprint. |
| Introspection.SeparatedAgreesWithDirect | src/hayate_auth/authorization_server.py:1259-1297 | For every store, instant and access token, introspection and the separated verifier accept exactly when `verify_token` does and the stored key is a thumbprint, with the same user, client, scopes, token id, key and resource. |
| Introspection.SameOnIssuedRows | src/hayate_auth/authorization_server.py:1504-1533 | On rows as issuance writes them the two verifiers are the same function of the token. |
| Introspection.RefreshTokensDiffer | src/hayate_auth/authorization_server.py:1259-1297 | Section 2.2 of RFC 7662: of the tokens without the access prefix, which `verify_token` never accepts, the separated verifier accepts exactly the active, unexpired refresh tokens of a named user for its resource. |
| Introspection.CanonicalTwice | src/hayate_auth/authorization_server.py:249-254 | Canonicalising a resource twice is canonicalising it once. |
| Introspection.CanonicalIgnoresCase | src/hayate_auth/authorization_server.py:249-254 | Canonical forms ignore the case of scheme and authority and, where URLs round-trip, nothing else. |
| WhereCompiler.WhereSql | src/hayate_auth/adapters/sqlite.py:33-48 | The loop rejects unknown identifiers and produces the clause and its parameters in step. |
| WhereCompiler.WhereMeansItsConditions | src/hayate_auth/adapters/sqlite.py:33-48 | For every list and row, the generated clause with its parameters bound left to right is true exactly on rows satisfying every condition, with NULLs and empty `in` lists. |
| WhereCompiler.UpdateMeans | src/hayate_auth/adapters/sqlite.py:124-135 | Assignment and condition parameters never cross: in exactly the satisfying rows every named column holds what the last assignment to it says, all other columns and rows are as they were, and the rows are counted. |
| WhereCompiler.SelectedRows | src/hayate_auth/adapters/sqlite.py:90-116 | The selected rows are those that satisfy every condition, in their order. |
| WhereCompiler.DeleteMeans | src/hayate_auth/adapters/sqlite.py:137-145 | Exactly the satisfying rows go, and are counted. |
| WhereCompiler.SelectMeans | src/hayate_auth/adapters/sqlite.py:90-116 | The satisfying rows, sorted, cut at a limit that is bound last. |
| WhereCompiler.GuardedUpdateCount | src/hayate_auth/adapter.py:39-46 | A compare-and-set addressed by a unique column affects at most one row, and one exactly when some row passes the guard. |
| WhereCompiler.SqliteAdapter.FindMany | src/hayate_auth/adapters/sqlite.py:90-116 | The adapter's read is the reference meaning, errors included. |
| WhereCompiler.SqliteAdapter.FindOne | src/hayate_auth/adapters/sqlite.py:86-88 | The first satisfying row, or None. |
| WhereCompiler.SqliteAdapter.UpdateMany | src/hayate_auth/adapters/sqlite.py:124-135 | The guarded update by columns: the last assignment to each named column in exactly the satisfying rows, everything else unchanged, the count of these rows; unknown identifiers and an empty assignment list are errors that change nothing. |
| WhereCompiler.SqliteAdapter.Update | src/hayate_auth/adapters/sqlite.py:118-122 | The update by columns, then a read with the same conditions, which may no longer hold; errors exactly as `update_many`. |
| WhereCompiler.SqliteAdapter.Delete | src/hayate_auth/adapters/sqlite.py:137-145 | The adapter's delete is the reference meaning, errors included. |
| PasswordHash.ParseUndoesPrint | src/hayate_auth/crypto/__init__.py:149-183 | Parsing a printed hash recovers its parameters, salt and key, or reports that scrypt cannot run. |
| PasswordHash.VerifyUndoesHash | src/hayate_auth/crypto/__init__.py:91-183 | A stored hash accepts exactly the passwords that derive the same key under its own parameters, salt and length; the original among them. |
| PasswordHash.PrintIsInjective | src/hayate_auth/crypto/__init__.py:91-128 | Equal stored texts mean equal parameters, salt and key. |
| PasswordHash.ParamsRoundTrip | src/hayate_auth/crypto/__init__.py:159-179 | The printed parameter fields split and parse back, for both algorithms. |
| PasswordHash.ScryptText | src/hayate_auth/crypto/__init__.py:91-99 | The stored text of a scrypt hash, field by field. |
| PasswordHash.Pbkdf2Text | src/hayate_auth/crypto/__init__.py:124-128 | The stored text of a PBKDF2 hash, field by field. |
| PasswordHash.NotAHashExactly | src/hayate_auth/crypto/__init__.py:149-154 | A text is no hash, and matches no password, exactly when it has another number of `$` than four or does not open with one; parser failures are raised. |
| PasswordHash.OtherAlgorithmsAreUnsupported | src/hayate_auth/crypto/__init__.py:180-181 | A text of that shape under any other algorithm name is refused as unsupported. |
| PasswordHash.ParamsStandInTheText | src/hayate_auth/crypto/__init__.py:162-178 | No parameter is made up: each one read is a number in a field of its name, or reading raises. |

## Left out

- LostBurn.BurnIsLostExactly: takes runs in which no refresh finds a token that was never disclosed; CodeRows.LossNeedsDeleteAndNoMark holds without that.
- Sessions.NoSpuriousIdleLogout: for one call after another; Sessions.SuspendedTouchExpires shows that touches left suspended by concurrent calls break it.
- DPoPReplay.AcceptedOnceExactly: assumes a non-decreasing clock that is exact in microseconds, not a float.
- PercentEncoding.NormalizePercentEncoding: digits and spaces outside ASCII, which Python's `int` also accepts, are read as errors.
- HtuComparison.HtuMatchesSameTarget: works from split URI components; `urlsplit` itself and lower case outside ASCII are not modelled.
- Introspection.SeparatedAgreesWithDirect: access tokens, the others being in Introspection.RefreshTokensDiffer; stamps already parsed, and a delivered JSON answer; the HTTP exchange and the resource server's Basic credentials are not modelled.
- PasswordHash.ParseUndoesPrint: base64 text outside the alphabet, which the lenient decoder skips over, and signs, spaces or underscores in numbers are read as errors.
- TwoFactor.NoStepClaimedTwice: between enrolment writes only, because `enable` is not guarded on `enabled`; codes outside ASCII are refused.
- Sessions.ListActiveSessions: works on the records `find_many` returned; their sort order is a parameter of the adapter.
- Concurrent consents' scope accounting: the merge is read-then-write, so no claim relates a code's scope to the stored consent scope across races.
- Scopes are sets and resources canonical identities in the OAuth state machine; the order of scope words and the spelling of resources are not kept there.
- The OAuth machine takes clients as already authenticated and authorization requests as already validated; client registration, metadata documents, redirect checks and cookies are not modelled.
- Rows without a grant id or a `last_active_at`, which exist only during a migration, and the deletion of users are not modelled.
- `INSERT` of the SQLite adapter, unique and foreign keys there, column affinity, and D1 result decoding are not modelled.
- The checks on a DPoP proof's signature, type and method are inputs: the replay model takes a proof that has passed them, and the OAuth machine one flag for all checks but the key.
- One-shot verification tokens: their consumption ignores the delete count, so only a small sequential claim would hold.
- Cryptography, passkeys, magic links, API keys, CSRF, provider OAuth, routing and plugins: uninterpreted or branch-by-branch checks that would add only easy members.
