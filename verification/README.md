# ChainFlow SSI demo: verified model of the DID utilities and the login handshake

This project is a Dafny model of the deterministic core of the ChainFlow self-sovereign identity demo. It covers five pieces:

- **`CryptoUtils`** (`crypto_utils.dfy`) models the browser's DID utilities:
  - DID derivation: the key is reversed and cut to 16 characters.
  - The DID document and its cross-field equalities.
  - The whole-year adulthood check.
  - Issuance and verification of the age credential over the claim `did:isAdult:<bool>:<time>`.
  - `saveUserData`, which writes the user's names, a user credential and the age credential to `localStorage`, and keeps the birth date out of storage.
- **`TutorialCryptoUtils`** (`tutorial_crypto_utils.dfy`) models the tutorial's copy of those utilities. Its DID is a plain key prefix, which is proved to be the root DID of the reversed key.
- **`LoginApp`** (`login_app.dfy`) models the login backend. Two tables, connections and proofs, advance from invited to connected to proof requested to verified. Status polls move them on once more than 3 and then 5 seconds have passed, and the agent's webhooks also update them. The tables are the fields of the `LoginServer` class, and each handler is proved against a state-transition function.
- **`LoginUtils`** (`login_utils.dfy`) models the backend helpers:
  - the proof request;
  - the simulated proof check, with Python's exceptions;
  - DID shortening;
  - the ISO-then-timestamp expiry parser.
- **`Dashboard`** (`dashboard.dfy`) models the dashboard page:
  - the session check;
  - DID and proof-id shortening;
  - the `DD.MM.YYYY` expiry format;
  - logout, which removes exactly three session keys.

Shared modules:

- `Wrappers` holds `Option` and `Result`.
- `Json` holds JSON values, which also stand in for Python's `None` and dicts.
- `Decimal` holds the decimal text of integers and its parser.
- `Calendar` holds calendar dates as `Date`'s getters report them.
- `PyRuntime` holds `dict.get`, `in`, subscripts and `datetime` ordering, each raising where Python raises.
- `BrowserStorage` holds a `Store` class for `localStorage` and `sessionStorage`.

Library code enters as function parameters. This covers Ed25519 signing and verification, `JSON.parse`/`JSON.stringify`, `new Date(...)`, `datetime.fromisoformat`, `int()`, `datetime.fromtimestamp` and `isoformat`. Clocks, the environment and the mock agent's random ids are plain parameters too. An exception becomes an `Err` value.

## Model

| member | source | states |
|---|---|---|
| CryptoUtils.Reverse | src/utils/cryptoUtils.ts:51 | the reversed key has the same length and its i-th character is the key's (n-1-i)-th |
| CryptoUtils.GenerateDID | src/utils/cryptoUtils.ts:49-53 | the DID is `did:example:` followed by min(16, \|k\|) characters, the i-th of which is the key's i-th character from the end |
| CryptoUtils.LongKeyDIDUsesLastSixteenReversed | src/utils/cryptoUtils.ts:49-53 | for a key of at least 16 characters the DID is the prefix plus the reversal of the key's last 16 characters |
| CryptoUtils.GenerateDIDDocument | src/utils/cryptoUtils.ts:105-124 | the document's id is the DID; it has exactly one verification method, whose id is `did#keys-1`, controller the DID, type Ed25519VerificationKey2018 and key the given key; authentication is [that id]; created equals updated |
| CryptoUtils.ExampleDocumentKeyIds | src/utils/cryptoUtils.ts:105-124 | on a sample DID the key id is `<did>#keys-1` and authentication refers to it |
| CryptoUtils.AgeCountsAnniversaries | src/utils/cryptoUtils.ts:131-138 | the computed age (year difference, decremented once when the month, or the day in the same month, is still ahead) is at least n iff the n-th anniversary is on or before today |
| CryptoUtils.IsAdult | src/utils/cryptoUtils.ts:127-139 | adult iff the birth date parses and its 18th anniversary is on or before today; an unparseable date is never adult |
| CryptoUtils.EighteenthBirthdayBoundary | src/utils/cryptoUtils.ts:127-139 | on the 18th birthday the user is adult; the day before is not, whether it falls earlier in the same month, on any day of the previous month (when the birthday is on the 1st), or on 31 December of the previous year (for a 1 January birthday) |
| CryptoUtils.AdulthoodExamples | src/utils/cryptoUtils.ts:127-139 | born 2000-01-01 is adult on 2024-06-01, born 2010-01-01 is not |
| CryptoUtils.Property | src/utils/cryptoUtils.ts:146 | reading a property throws exactly on null; on an object it yields the field or undefined |
| CryptoUtils.SignMessage | src/utils/cryptoUtils.ts:56-61 | signing succeeds iff the private key is a string the library accepts, and the signature is the library's |
| CryptoUtils.VerifySignature | src/utils/cryptoUtils.ts:64-74 | true iff the library verifies; a library exception yields false |
| CryptoUtils.GetFromLocalStorage | src/utils/cryptoUtils.ts:92-102 | null for an absent or empty value, else the parsed value, else the raw string |
| CryptoUtils.SaveToLocalStorage | src/utils/cryptoUtils.ts:87-89 | the store maps the key to the stringified value and is otherwise unchanged |
| CryptoUtils.SavedValueReadsBack | src/utils/cryptoUtils.ts:87-102 | a saved value reads back unchanged when parse inverts stringify; other keys read as before |
| CryptoUtils.ClaimDeterminesVerdictAndDate | src/utils/cryptoUtils.ts:145 | for one subject the signed claim determines the adulthood bit and the issuance date |
| CryptoUtils.CreateAgeVerificationCredential | src/utils/cryptoUtils.ts:142-168 | issuance succeeds iff the stored key pair has a string private key that signs; a missing key pair throws TypeError; the credential has id `did#age-credential`, the fixed types, issuer and proof type, issuanceDate = proof.created = now, subject {did, isAdult(birthDate)}, verification method `did#keys-1`, and its proofValue is the signature of the claim rebuilt from its own fields |
| CryptoUtils.VerifyAgeCredential | src/utils/cryptoUtils.ts:171-179 | true iff the library verifies the proofValue over the claim rebuilt from subject id, isAdult and issuanceDate; never an error |
| CryptoUtils.IssuedCredentialVerifies | src/utils/cryptoUtils.ts:142-179 | a fresh credential's rebuilt claim is exactly the signed message, so it verifies under the public key matching the stored private key |
| CryptoUtils.SaveUserDataEffect | src/utils/cryptoUtils.ts:182-211 | only userData, userCredential and ageCredential change; userData holds only the two names; without a key pair the call throws after the first write; on success the credential's did and verkey come from storage, isAdult is isAdult(birthDate), and both credentials are stored |
| CryptoUtils.SaveUserDataOutcome | src/utils/cryptoUtils.ts:182-211 | with a stored key pair the user credential (stored did, stored publicKeyBase58, isAdult(birthDate), issuance time) is written; the call then succeeds exactly when the pair's privateKey is a string that signs the claim; a failed call leaves ageCredential as it was |
| CryptoUtils.BirthDateOnlyThroughAdulthood | src/utils/cryptoUtils.ts:182-211 | two users with equal names whose birth dates give the same adulthood leave identical storage and identical results |
| CryptoUtils.SaveUserData | src/utils/cryptoUtils.ts:182-211 | the three writes on the store have exactly the effect SaveUserDataEffect describes, including the writes that precede an exception |
| TutorialCryptoUtils.GenerateDID | examples/did-tutorial/src/utils/cryptoUtils.ts:17-19 | the DID is `did:example:` followed by the first min(16, \|k\|) characters of the key, in order |
| TutorialCryptoUtils.TutorialDIDIsRootDIDOfReversedKey | examples/did-tutorial/src/utils/cryptoUtils.ts:17-19 | the tutorial DID of k is the root DID of reverse(k) |
| TutorialCryptoUtils.DerivationsDiverge | examples/did-tutorial/src/utils/cryptoUtils.ts:17-19 | on the key "ab" the two derivations give different DIDs |
| TutorialCryptoUtils.GenerateDIDDocument | examples/did-tutorial/src/utils/cryptoUtils.ts:71-90 | the same document equalities as the root version |
| TutorialCryptoUtils.VerifySignature | examples/did-tutorial/src/utils/cryptoUtils.ts:30-40 | fail-closed: true iff the library verifies |
| TutorialCryptoUtils.GetFromLocalStorage | examples/did-tutorial/src/utils/cryptoUtils.ts:58-68 | null for an absent or empty value, the parsed value, or the raw string |
| TutorialCryptoUtils.SaveToLocalStorage | examples/did-tutorial/src/utils/cryptoUtils.ts:53-55 | the store maps the key to the stringified value and is otherwise unchanged |
| TutorialCryptoUtils.SameHelpersAsRoot | examples/did-tutorial/src/utils/cryptoUtils.ts:30-90 | the tutorial's document builder, signature check and storage reader compute what the root module's do |
| LoginApp.Poll | examples/chainflow-login/app.py:111-164 | an unknown id gives 404 and no change; invited becomes connected iff more than 3 s have elapsed; a connected connection without a proof gets exactly one requested proof; a requested proof becomes verified with the demo DID and now + 365 days iff more than 5 s have elapsed; login_successful iff the proof is verified, else the connection's status; ids and creation times never change; the table invariant is kept |
| LoginApp.OneProofPerConnection | examples/chainflow-login/app.py:131-141 | once a connection has a proof, any run of later polls keeps its id and never answers proof_requested |
| LoginApp.VerifiedStableUnderPolls | examples/chainflow-login/app.py:144-161 | once the proof is verified, every poll of a run with no webhook in between answers login_successful with the stored did, proof id and expiry, and the entry is unchanged |
| LoginApp.WebhookCanRevokeVerified | examples/chainflow-login/app.py:180-188 | "verified" is not final: a present_proof webhook naming a verified proof with a state other than "verified" or "requested" sets that status, and the next poll does not answer login_successful |
| LoginApp.HappyPath | examples/chainflow-login/app.py:111-164 | a fresh invitation polled after 3 s requests a proof, and a poll 5 s later logs in with the demo DID |
| LoginApp.RevealedDidAndExpiry | examples/chainflow-login/app.py:192-197 | the read succeeds exactly when the payload and each of presentation, requested_proof, revealed_attrs, did and expiry_date is a dict or absent (read as `{}`), and then gives the two `raw` fields, None when absent; otherwise it raises AttributeError |
| LoginApp.UpdateProofs | examples/chainflow-login/app.py:186-200 | the present_proof loop keeps the set of proofs |
| LoginApp.UpdateProofsFrame | examples/chainflow-login/app.py:186-200 | the loop never changes a proof id or creation time, and leaves entries the webhook does not name unchanged |
| LoginApp.UpdateProofsApplies | examples/chainflow-login/app.py:186-200 | without an exception, every named entry takes the new state, and on "verified" the revealed did and expiry |
| LoginApp.FirstNamed | examples/chainflow-login/app.py:186-188 | the position of the first proof, in insertion order, whose proof_id equals presentation_exchange_id; None when no proof matches |
| LoginApp.UpdateProofsStopsOnReadError | examples/chainflow-login/app.py:186-204 | when a verified presentation's attributes cannot be read, the table equals the old one with only the first named entry's status set to "verified" (unchanged if none is named) |
| LoginApp.Webhook | examples/chainflow-login/app.py:166-206 | the table invariant and the key sets are kept; unknown topics and non-JSON bodies change nothing; `connections` changes only the status of the named known connection; `present_proof` changes only the proofs it names |
| LoginApp.PresentProofSetsState | examples/chainflow-login/app.py:180-200 | a present_proof webhook sets the state of every proof it names, and on "verified" the revealed did and expiry |
| LoginApp.VerifiedWithoutAttributes | examples/chainflow-login/app.py:186-204 | a verified presentation with unreadable attributes sets only the status of the first proof it names (in insertion order) to "verified", without did or expiry; connections and every other proof stay unchanged |
| LoginApp.LoginServer.constructor | examples/chainflow-login/app.py:72-73 | both tables start empty |
| LoginApp.CreateInvitation | examples/chainflow-login/app.py:44-57 | the connection id is "connection-" followed by the random hex; the invitation has exactly the six fields, with the fixed type, label, recipient key and empty routing keys, the "invitation-" id and the agent's endpoint |
| LoginApp.ConnectionIdsDistinct | examples/chainflow-login/app.py:45 | two connection ids are equal exactly when their random draws are |
| LoginApp.LoginServer.InitLogin | examples/chainflow-login/app.py:92-109 | adds exactly the entry {now, "invited"} under the id of the agent's new invitation, leaves the rest unchanged, and answers that id, the invitation and invitation_created |
| LoginApp.LoginServer.CheckLoginStatus | examples/chainflow-login/app.py:111-164 | the new tables and the answer are those of Poll |
| LoginApp.LoginServer.HandleWebhook | examples/chainflow-login/app.py:166-206 | the new tables are those of Webhook and the reply is `{}` |
| LoginApp.LoginServer.UpdateMatchingProofs | examples/chainflow-login/app.py:186-200 | the loop over the proofs in insertion order leaves the proofs table equal to UpdateProofs, including an early stop on an exception |
| LoginUtils.GenerateProofRequest | examples/chainflow-login/src/utils.py:8-67 | requests exactly did, name and expiry_date, each under its own name; one predicate, expiry_date >= now; every attribute and the predicate carry the same single cred_def_id restriction; non_revoked is [0, now] with the predicate's now; the nonce reads back as the millisecond clock |
| Decimal.IntToStringRoundTrip | examples/chainflow-login/src/utils.py:22 | the decimal text of an integer parses back to that integer |
| LoginUtils.RevealedAttrs | examples/chainflow-login/src/utils.py:83 | reading the revealed attributes raises AttributeError exactly when the proof or its requested_proof is not a dict |
| LoginUtils.FromIsoFormat | examples/chainflow-login/src/utils.py:91 | a str argument parses or raises ValueError; any other value raises TypeError |
| LoginUtils.VerifyProof | examples/chainflow-login/src/utils.py:69-101 | true iff the revealed attributes are a dict with did and expiry_date whose raw string parses to a naive date not before now; false when either attribute is missing, raw is missing, unparseable or earlier; only AttributeError and TypeError escape |
| LoginUtils.VerifyProofExamples | examples/chainflow-login/src/utils.py:69-101 | a sample proof verifies with an expiry at now, not with one a microsecond earlier or an unparseable one, and an aware expiry raises TypeError |
| LoginUtils.FormatDidForDisplay | examples/chainflow-login/src/utils.py:103-116 | strings shorter than 10 (including empty) are returned unchanged; longer ones become 13 characters: the first 6, "...", the last 4 |
| LoginUtils.FormatDidForDisplayIdempotent | examples/chainflow-login/src/utils.py:113-116 | shortening a shortened DID changes nothing |
| LoginUtils.ParseExpiryDate | examples/chainflow-login/src/utils.py:118-136 | the ISO reading wins when it succeeds, then the integer timestamp; None exactly when both fail with ValueError; only fromtimestamp's other errors escape |
| Dashboard.FormatDID | examples/chainflow-login/static/dashboard.js:61-67 | null, empty and short values unchanged; longer ones become 15 characters: the first 8, "...", the last 4 |
| Dashboard.FormatProofId | examples/chainflow-login/static/dashboard.js:72-78 | null, empty and short values unchanged; longer ones become 15 characters |
| Dashboard.FormatProofIdAgreesWithFormatDID | examples/chainflow-login/static/dashboard.js:61-78 | formatProofId equals formatDID on every input |
| Dashboard.FormatDIDIdempotent | examples/chainflow-login/static/dashboard.js:61-67 | shortening a shortened value changes nothing |
| Dashboard.FormatDate | examples/chainflow-login/static/dashboard.js:110-116 | two digits reading as the day, a dot, two digits reading as the zero-based month + 1, a dot, then the year's decimal text (`IntToString`, no leading zeros), which reads back as the year |
| Dashboard.FormatDateRoundTrip | examples/chainflow-login/static/dashboard.js:110-116 | the formatted text parses back to the same date |
| Dashboard.FormattedDateIsNoMessage | examples/chainflow-login/static/dashboard.js:83-116 | a formatted date is never "Geçersiz tarih" nor "Belirtilmemiş" |
| Dashboard.FormatExpiryDate | examples/chainflow-login/static/dashboard.js:83-105 | a valid date string is formatted; else an integer prefix is taken as seconds since the epoch; "Geçersiz tarih" exactly when neither reading works |
| Dashboard.DisplayUserData | examples/chainflow-login/static/dashboard.js:40-56 | the titles are the full DID and proof id, the texts their shortened forms; a missing or empty expiry shows "Belirtilmemiş", otherwise the formatted expiry |
| Dashboard.CheckLogin | examples/chainflow-login/static/dashboard.js:21-35 | redirects to "/" iff userDID or proofId is missing or empty; a missing expiry does not redirect and shows "Belirtilmemiş"; otherwise the page is exactly displayUserData of the stored DID, proof id and expiry |
| Dashboard.ExpiryTextNeverUnspecified | examples/chainflow-login/static/dashboard.js:50-55 | a present expiry never displays as "Belirtilmemiş" |
| Dashboard.Logout | examples/chainflow-login/static/dashboard.js:121-129 | removes exactly userDID, proofId and expiryDate from the session and returns "/" |
| Dashboard.LogoutEndsSession | examples/chainflow-login/static/dashboard.js:21-129 | after logout checkLogin redirects to "/", and every other session key is unchanged |

## Left out

- Ed25519 signing and verification, key generation, and the hex and base58 conversions (`hexToBase58`, `base58ToHex`) are library code. Signing and verification are parameters. Key-pair correctness is the hypothesis `MatchedKeys`, not a proved fact.
- Unforgeability is a property of Ed25519, not of this code, so it is not stated. An example is that a different key or an altered claim fails to verify. What is proved is that an altered verdict or date changes the signed claim.
- `JSON.parse`/`JSON.stringify`, `new Date(...)` parsing, `toISOString`, Python's `datetime.fromisoformat`, `int()`, `datetime.fromtimestamp` and `isoformat` are parameters. JSON numbers are integers only.
- Time zones are not modelled. `new Date("YYYY-MM-DD")` parses as UTC, but its getters read local time. The parameters deliver calendar components directly.
- CryptoUtils.IsAdult: `today` is one date given by the caller. In `saveUserData` the source reads the clock separately for each `isAdult` call and for each ISO timestamp. The model passes one `today` and the two timestamps `credentialTime` and `issuanceTime`.
- CryptoUtils.CreateAgeVerificationCredential: a private key stored as something other than a string (an array given to `Buffer.from`) is treated as an exception. It is not decoded.
- CryptoUtils.VerifyAgeCredential: the credential is a typed value. A malformed object whose property reads would throw inside the `try` is not modelled. Those throws would also yield false.
- CryptoUtils.GenerateDIDDocument takes the DID as a string, as its TypeScript signature says. The JSON object's key order and the `@context` key spelling are not modelled.
- LoginApp.Poll: each request reads the clock once (`now`). The source calls `datetime.now()` again when it creates the proof and when it sets the expiry. These calls are microseconds apart.
- LoginApp: the hex of the mock agent's random draws (`os.urandom(4).hex()`) are parameters. The model does not assume they are fresh or eight hex digits long. The id `request_proof` hands out is a parameter too, so its "proof-" prefix is not modelled. The agent's other settings (wallet, pool, genesis file) are not used by the modelled handlers.
- Strings are sequences of Unicode code points. JavaScript's `split('')`, `.length` and `substring` count UTF-16 code units. These agree on the ASCII keys, DIDs and ids these programs handle, but not on characters outside the Basic Multilingual Plane.
- LoginApp: `print`, FastAPI routing, templates, startup and shutdown are not modelled. The 404 is the `NotFound` answer.
- LoginUtils.GenerateProofRequest: the two clock readings `int(time.time())` and `int(time.time() * 1000)` are independent parameters. The model does not relate them to each other.
- LoginUtils.FormatDidForDisplay takes a `str`, as annotated. A `None` argument, which the source would return unchanged, is not modelled.
- LoginUtils.VerifyProof: the proof argument is any JSON value. An expiry with a UTC offset parses to an aware datetime. Comparing it with the naive clock raises `TypeError`, which the model returns as `Err(TypeError)`.
- Dashboard.FormatExpiryDate: `parseInt` and the epoch conversion are parameters. An out-of-range timestamp prints as "NaN.NaN.NaN".
- Dashboard: the DOM writes (`textContent`, `title`) become the returned `UserView`. Setting `window.location` becomes the returned location.
- The React pages, `login.js` polling and the Indy agent wrapper are outside the modelled core.
