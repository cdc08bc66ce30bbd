/** src/utils/cryptoUtils.ts: DID derivation, the DID document, the adulthood check, the
    age credential (issuance and verification) and the data-minimising `saveUserData`.
    Ed25519, JSON and date parsing are library code and arrive as the `Runtime` parameter. */
module CryptoUtils {
  import opened Wrappers
  import opened Json
  import opened Decimal
  import opened Calendar
  import opened BrowserStorage

  /** The library code the module calls:
      - parse:     `JSON.parse` (None when it throws)
      - stringify: `JSON.stringify`
      - parseDate: `new Date(s)` read through its local-time getters (None for an Invalid Date)
      - sign:      `signMessage(message, privateKeyHex)`, a hex Ed25519 detached signature
                   (None when tweetnacl throws, e.g. on a key of the wrong size)
      - verify:    `nacl.sign.detached.verify` on the hex-decoded signature and key
                   (None when tweetnacl throws on a wrong-size signature or key) */
  datatype Runtime = Runtime(
    parse: string -> Option<Json>,
    stringify: Json -> string,
    parseDate: string -> Option<CalendarDate>,
    sign: (string, string) -> Option<string>,
    verify: (string, string, string) -> Option<bool>)

  /** Exceptions that escape: a property read on `null` or a non-string key given to
      `Buffer.from`, and the signature library's own errors. */
  datatype JsError = TypeError | SignError

  // ------------------------------------------------------------------ JavaScript values

  function BoolString(b: bool): string { if b then "true" else "false" }

  function Join(parts: seq<string>, separator: string): string
  {
    if |parts| == 0 then "" else if |parts| == 1 then parts[0]
    else parts[0] + separator + Join(parts[1..], separator)
  }

  /** `String(v)`, which a template literal applies to every `${v}`. Array elements that
      are null print as nothing; every plain object prints as "[object Object]". */
  function JsString(v: Json): string
    decreases v
  {
    match v
    case JNull => "null"
    case JBool(b) => BoolString(b)
    case JNum(n) => IntToString(n)
    case JStr(s) => s
    case JArr(xs) => Join(seq(|xs|, i requires 0 <= i < |xs| => if xs[i].JNull? then "" else JsString(xs[i])), ",")
    case JObj(_) => "[object Object]"
  }

  /** `v.name`: reading a property of null throws; a missing property, and any of these
      properties of a primitive or an array, is `undefined` (None). */
  function Property(v: Json, name: string): (r: Result<Option<Json>, JsError>)
    ensures r.Err? <==> v.JNull?
    ensures v.JObj? ==> r == Ok(if name in v.fields then Some(v.fields[name]) else None)
  {
    match v
    case JNull => Err(TypeError)
    case JObj(m) => Ok(if name in m then Some(m[name]) else None)
    case _ => Ok(None)
  }

  // ------------------------------------------------------------------ DID derivation

  const DidMethodPrefix := "did:example:"
  const DidSuffixLength := 16

  function Min(a: int, b: int): int { if a <= b then a else b }

  /** `s.split('').reverse().join('')`. */
  function Reverse(s: string): (r: string)
    ensures |r| == |s|
    ensures forall i :: 0 <= i < |s| ==> r[i] == s[|s| - 1 - i]
  {
    if s == [] then [] else [s[|s| - 1]] + Reverse(s[..|s| - 1])
  }

  lemma ReverseReverse(s: string)
    ensures Reverse(Reverse(s)) == s
  {
  }

  /** generateDID: the method prefix, then the key read backwards, cut to 16 characters. */
  function GenerateDID(publicKeyBase58: string): (did: string)
    ensures |did| == |DidMethodPrefix| + Min(DidSuffixLength, |publicKeyBase58|)
    ensures did[..|DidMethodPrefix|] == DidMethodPrefix
    ensures forall i :: 0 <= i < |did| - |DidMethodPrefix| ==>
              did[|DidMethodPrefix|..][i] == publicKeyBase58[|publicKeyBase58| - 1 - i]
  {
    DidMethodPrefix + Reverse(publicKeyBase58)[..Min(DidSuffixLength, |publicKeyBase58|)]
  }

  /** For a key of 16 characters or more the DID is built from the key's last 16
      characters, in reverse order. */
  lemma LongKeyDIDUsesLastSixteenReversed(publicKeyBase58: string)
    requires |publicKeyBase58| >= DidSuffixLength
    ensures GenerateDID(publicKeyBase58) == DidMethodPrefix + Reverse(publicKeyBase58[|publicKeyBase58| - DidSuffixLength..])
  {
    var k := publicKeyBase58;
    var tail := k[|k| - DidSuffixLength..];
    var suffix := GenerateDID(k)[|DidMethodPrefix|..];
    forall i | 0 <= i < DidSuffixLength
      ensures suffix[i] == Reverse(tail)[i]
    {
      assert tail[DidSuffixLength - 1 - i] == k[|k| - 1 - i];
    }
    assert suffix == Reverse(tail);
  }

  // ------------------------------------------------------------------ DID document

  datatype VerificationMethod = VerificationMethod(id: string, kind: string, controller: string, publicKeyBase58: string)

  datatype DIDDocument = DIDDocument(
    context: string,
    id: string,
    verificationMethod: seq<VerificationMethod>,
    authentication: seq<string>,
    created: string,
    updated: string)

  const DidContext := "https://www.w3.org/ns/did/v1"
  const VerificationKeyType := "Ed25519VerificationKey2018"

  /** The id of a DID's first key: `${did}#keys-1`. */
  function KeyId(did: string): string { did + "#keys-1" }

  /** generateDIDDocument, with `now` the ISO time read once for both timestamps. */
  function GenerateDIDDocument(did: string, publicKeyBase58: string, now: string): (doc: DIDDocument)
    ensures doc.context == DidContext && doc.id == did
    ensures |doc.verificationMethod| == 1
    ensures doc.verificationMethod[0].id == doc.id + "#keys-1"
    ensures doc.verificationMethod[0].controller == doc.id
    ensures doc.verificationMethod[0].kind == VerificationKeyType
    ensures doc.verificationMethod[0].publicKeyBase58 == publicKeyBase58
    ensures doc.authentication == [doc.verificationMethod[0].id]
    ensures doc.created == doc.updated == now
  {
    DIDDocument(
      DidContext,
      did,
      [VerificationMethod(KeyId(did), VerificationKeyType, did, publicKeyBase58)],
      [KeyId(did)],
      now,
      now)
  }

  /** The example document: its first key and its authentication entry carry the same id. */
  lemma ExampleDocumentKeyIds(now: string)
    ensures var doc := GenerateDIDDocument("did:example:abcd1234abcd1234", "H3C2AV", now);
      doc.verificationMethod[0].id == "did:example:abcd1234abcd1234#keys-1" && doc.authentication[0] == doc.verificationMethod[0].id
  {
  }

  // ------------------------------------------------------------------ adulthood

  const AdultAge := 18

  /** The local `age` of isAdult: the difference of the years, decremented once when this
      year's birthday (month, then day) is still ahead. */
  function AgeInYears(today: DateParts, birth: DateParts): int
  {
    var age := today.year - birth.year;
    if today.month < birth.month || (today.month == birth.month && today.day < birth.day) then age - 1 else age
  }

  /** Reference definition: the `years`-th anniversary of `birth` is on or before `today`. */
  predicate AnniversaryReached(today: DateParts, birth: DateParts, years: int)
  {
    var y := birth.year + years;
    y < today.year || (y == today.year && (birth.month < today.month || (birth.month == today.month && birth.day <= today.day)))
  }

  /** The age is the number of anniversaries reached: at least `n` exactly when the
      `n`-th anniversary has been reached. */
  lemma AgeCountsAnniversaries(today: DateParts, birth: DateParts, n: int)
    ensures AgeInYears(today, birth) >= n <==> AnniversaryReached(today, birth, n)
  {
  }

  /** isAdult; an unparseable birth date gives NaN getters, so `NaN >= 18` is false. */
  function IsAdult(parseDate: string -> Option<CalendarDate>, today: CalendarDate, birthDate: string): (adult: bool)
    ensures adult <==> parseDate(birthDate).Some? && AnniversaryReached(today, parseDate(birthDate).value, AdultAge)
  {
    match parseDate(birthDate)
    case None => false
    case Some(birth) => AgeCountsAnniversaries(today, birth, AdultAge); AgeInYears(today, birth) >= AdultAge
  }

  /** The 18th birthday itself counts as adult; the day before it does not, whether that is
      earlier in the same month, the last day `lastDay` of the previous month (whatever
      its length) or the 31st of December of the previous year. */
  lemma EighteenthBirthdayBoundary(parseDate: string -> Option<CalendarDate>, birthDate: string, birth: CalendarDate, lastDay: int)
    requires parseDate(birthDate) == Some(birth)
    ensures IsAdult(parseDate, DateParts(birth.year + AdultAge, birth.month, birth.day), birthDate)
    ensures birth.day > 1 ==> !IsAdult(parseDate, DateParts(birth.year + AdultAge, birth.month, birth.day - 1), birthDate)
    ensures birth.day == 1 && birth.month > 0 && 1 <= lastDay <= 31 ==>
      !IsAdult(parseDate, DateParts(birth.year + AdultAge, birth.month - 1, lastDay), birthDate)
    ensures birth.day == 1 && birth.month == 0 ==> !IsAdult(parseDate, DateParts(birth.year + AdultAge - 1, 11, 31), birthDate)
  {
  }

  /** Born 2000-01-01 is adult on 2024-06-01; born 2010-01-01 is not. */
  lemma AdulthoodExamples(parseDate: string -> Option<CalendarDate>)
    requires parseDate("2000-01-01") == Some(DateParts(2000, 0, 1))
    requires parseDate("2010-01-01") == Some(DateParts(2010, 0, 1))
    ensures IsAdult(parseDate, DateParts(2024, 5, 1), "2000-01-01")
    ensures !IsAdult(parseDate, DateParts(2024, 5, 1), "2010-01-01")
  {
  }

  // ------------------------------------------------------------------ signatures

  /** signMessage applied to whatever the `privateKey` property held: `Buffer.from`
      throws on anything but a string, tweetnacl on a key of the wrong size. */
  function SignMessage(sign: (string, string) -> Option<string>, message: string, privateKey: Option<Json>): (r: Result<string, JsError>)
    ensures r.Ok? <==> privateKey.Some? && privateKey.value.JStr? && sign(message, privateKey.value.s).Some?
    ensures r.Ok? ==> sign(message, privateKey.value.s) == Some(r.value)
  {
    match privateKey
    case Some(JStr(hex)) =>
      (match sign(message, hex)
       case Some(signature) => Ok(signature)
       case None => Err(SignError))
    case _ => Err(TypeError)
  }

  /** verifySignature: fail-closed, any exception of the library reads as `false`. */
  function VerifySignature(verify: (string, string, string) -> Option<bool>, message: string, signatureHex: string, publicKeyHex: string): (valid: bool)
    ensures valid <==> verify(message, signatureHex, publicKeyHex) == Some(true)
    ensures verify(message, signatureHex, publicKeyHex).None? ==> !valid
  {
    match verify(message, signatureHex, publicKeyHex)
    case Some(ok) => ok
    case None => false
  }

  /** Correctness of Ed25519 for one key pair, which the model assumes of the library:
      whatever `sign` produces under the private key verifies under the public key. */
  ghost predicate MatchedKeys(sign: (string, string) -> Option<string>, verify: (string, string, string) -> Option<bool>,
                              privateKeyHex: string, publicKeyHex: string)
  {
    forall m :: sign(m, privateKeyHex).Some? ==> verify(m, sign(m, privateKeyHex).value, publicKeyHex) == Some(true)
  }

  // ------------------------------------------------------------------ storage

  const UserDataKey := "userData"
  const UserCredentialKey := "userCredential"
  const AgeCredentialKey := "ageCredential"
  const DidKey := "did"
  const KeyPairKey := "didKeyPair"

  /** getFromLocalStorage over the stored strings `items`: null for an absent or empty
      value, the parsed value, or the raw string when `JSON.parse` throws. */
  function GetFromLocalStorage(items: map<string, string>, parse: string -> Option<Json>, key: string): (v: Json)
    ensures key !in items || items[key] == "" ==> v == JNull
    ensures key in items && items[key] != "" && parse(items[key]).None? ==> v == JStr(items[key])
    ensures key in items && items[key] != "" && parse(items[key]).Some? ==> v == parse(items[key]).value
  {
    if key in items && items[key] != "" then
      match parse(items[key])
      case Some(value) => value
      case None => JStr(items[key])
    else JNull
  }

  /** saveToLocalStorage. */
  method SaveToLocalStorage(store: Store, stringify: Json -> string, key: string, value: Json)
    modifies store
    ensures store.items == old(store.items)[key := stringify(value)]
  {
    store.SetItem(key, stringify(value));
  }

  /** A value saved with saveToLocalStorage reads back unchanged, provided JSON.parse
      inverts JSON.stringify on it; other keys read as before. */
  lemma SavedValueReadsBack(items: map<string, string>, parse: string -> Option<Json>, stringify: Json -> string,
                            key: string, value: Json, other: string)
    requires parse(stringify(value)) == Some(value) && stringify(value) != ""
    requires other != key
    ensures GetFromLocalStorage(items[key := stringify(value)], parse, key) == value
    ensures GetFromLocalStorage(items[key := stringify(value)], parse, other) == GetFromLocalStorage(items, parse, other)
  {
  }

  // ------------------------------------------------------------------ age credential

  datatype CredentialSubject = CredentialSubject(id: Json, isAdult: bool)

  datatype CredentialProof = CredentialProof(
    kind: string,
    created: string,
    verificationMethod: string,
    proofPurpose: string,
    proofValue: string)

  datatype VerifiableCredential = VerifiableCredential(
    id: string,
    types: seq<string>,
    issuer: string,
    issuanceDate: string,
    credentialSubject: CredentialSubject,
    proof: CredentialProof)

  const CredentialIssuer := "did:example:issuer"
  const CredentialTypes := ["VerifiableCredential", "AgeVerificationCredential"]
  const SignatureType := "Ed25519Signature2018"
  const AssertionPurpose := "assertionMethod"

  /** The signed claim `${did}:isAdult:${isAdult}:${issuanceDate}`. */
  function ClaimMessage(subject: string, adult: bool, issuanceDate: string): string
  {
    subject + ":isAdult:" + BoolString(adult) + ":" + issuanceDate
  }

  /** For one subject the claim determines both the verdict and the issuance date, so a
      credential whose `isAdult` or date was altered carries a different claim. */
  lemma ClaimDeterminesVerdictAndDate(subject: string, adult1: bool, date1: string, adult2: bool, date2: string)
    requires ClaimMessage(subject, adult1, date1) == ClaimMessage(subject, adult2, date2)
    ensures adult1 == adult2 && date1 == date2
  {
    var head := subject + ":isAdult:";
    var m1, m2 := ClaimMessage(subject, adult1, date1), ClaimMessage(subject, adult2, date2);
    assert m1 == head + (BoolString(adult1) + ":" + date1);
    assert m2 == head + (BoolString(adult2) + ":" + date2);
    assert m1[|head|..] == BoolString(adult1) + ":" + date1;
    assert m2[|head|..] == BoolString(adult2) + ":" + date2;
    assert m1[|head|] == BoolString(adult1)[0];
    assert m2[|head|] == BoolString(adult2)[0];
    assert adult1 == adult2;
    var rest := BoolString(adult1) + ":";
    assert m1[|head| + |rest|..] == date1;
    assert m2[|head| + |rest|..] == date2;
  }

  /** The claim that verifyAgeCredential rebuilds from a credential's own fields. */
  function CredentialClaim(credential: VerifiableCredential): string
  {
    ClaimMessage(JsString(credential.credentialSubject.id), credential.credentialSubject.isAdult, credential.issuanceDate)
  }

  /** The private key createAgeVerificationCredential reads: the `privateKey` property of
      the stored `didKeyPair`, when it is a string. */
  function StoredSigningKey(items: map<string, string>, parse: string -> Option<Json>): Option<string>
  {
    match GetFromLocalStorage(items, parse, KeyPairKey)
    case JObj(m) => if "privateKey" in m && m["privateKey"].JStr? then Some(m["privateKey"].s) else None
    case _ => None
  }

  /** createAgeVerificationCredential over the stored strings `items`, with `today` the
      calendar date and `now` the ISO time read by the call. The `publicKeyBase58`
      argument is never used. */
  function CreateAgeVerificationCredential(items: map<string, string>, rt: Runtime, did: Json, publicKeyBase58: Option<Json>,
                                           birthDate: string, today: CalendarDate, now: string): (r: Result<VerifiableCredential, JsError>)
    ensures r.Ok? <==> StoredSigningKey(items, rt.parse).Some? &&
                       rt.sign(ClaimMessage(JsString(did), IsAdult(rt.parseDate, today, birthDate), now), StoredSigningKey(items, rt.parse).value).Some?
    ensures GetFromLocalStorage(items, rt.parse, KeyPairKey).JNull? ==> r == Err(TypeError)
    ensures r.Ok? ==>
      var vc := r.value;
      && vc.id == JsString(did) + "#age-credential"
      && vc.types == CredentialTypes
      && vc.issuer == CredentialIssuer
      && vc.issuanceDate == now && vc.proof.created == now
      && vc.credentialSubject == CredentialSubject(did, IsAdult(rt.parseDate, today, birthDate))
      && vc.proof.kind == SignatureType
      && vc.proof.verificationMethod == KeyId(JsString(did))
      && vc.proof.proofPurpose == AssertionPurpose
      && rt.sign(CredentialClaim(vc), StoredSigningKey(items, rt.parse).value) == Some(vc.proof.proofValue)
  {
    var isUserAdult := IsAdult(rt.parseDate, today, birthDate);
    var message := ClaimMessage(JsString(did), isUserAdult, now);
    var privateKey :- Property(GetFromLocalStorage(items, rt.parse, KeyPairKey), "privateKey");
    var signature :- SignMessage(rt.sign, message, privateKey);
    Ok(VerifiableCredential(
      JsString(did) + "#age-credential",
      CredentialTypes,
      CredentialIssuer,
      now,
      CredentialSubject(did, isUserAdult),
      CredentialProof(SignatureType, now, KeyId(JsString(did)), AssertionPurpose, signature)))
  }

  /** verifyAgeCredential: checks the signature over the rebuilt claim, fail-closed. */
  function VerifyAgeCredential(verify: (string, string, string) -> Option<bool>, credential: VerifiableCredential, publicKeyHex: string): (valid: bool)
    ensures valid <==> verify(CredentialClaim(credential), credential.proof.proofValue, publicKeyHex) == Some(true)
  {
    VerifySignature(verify, CredentialClaim(credential), credential.proof.proofValue, publicKeyHex)
  }

  /** Credential round trip: verification rebuilds exactly the claim that issuance signed,
      so a fresh credential checks out under the public key matching the stored private key. */
  lemma IssuedCredentialVerifies(items: map<string, string>, rt: Runtime, did: Json, publicKeyBase58: Option<Json>,
                                 birthDate: string, today: CalendarDate, now: string, publicKeyHex: string)
    requires CreateAgeVerificationCredential(items, rt, did, publicKeyBase58, birthDate, today, now).Ok?
    ensures var vc := CreateAgeVerificationCredential(items, rt, did, publicKeyBase58, birthDate, today, now).value;
      CredentialClaim(vc) == ClaimMessage(JsString(did), IsAdult(rt.parseDate, today, birthDate), now) &&
      VerifyAgeCredential(rt.verify, vc, publicKeyHex) == VerifySignature(rt.verify, CredentialClaim(vc), vc.proof.proofValue, publicKeyHex)
    ensures MatchedKeys(rt.sign, rt.verify, StoredSigningKey(items, rt.parse).value, publicKeyHex) ==>
      VerifyAgeCredential(rt.verify, CreateAgeVerificationCredential(items, rt, did, publicKeyBase58, birthDate, today, now).value, publicKeyHex)
  {
  }

  // ------------------------------------------------------------------ saveUserData

  datatype UserData = UserData(firstName: string, lastName: string, birthDate: string)

  /** `verkey` is None when the stored key pair has no `publicKeyBase58` (undefined). */
  datatype UserCredential = UserCredential(did: Json, verkey: Option<Json>, isAdult: bool, issuanceDate: string)

  /** The object `{ firstName, lastName }`. */
  function UserDataJson(firstName: string, lastName: string): Json
  {
    JObj(map["firstName" := JStr(firstName), "lastName" := JStr(lastName)])
  }

  /** A user credential as JSON.stringify sees it: an undefined `verkey` is left out. */
  function UserCredentialJson(c: UserCredential): Json
  {
    var fields := map["did" := c.did, "isAdult" := JBool(c.isAdult), "issuanceDate" := JStr(c.issuanceDate)];
    JObj(match c.verkey case Some(v) => fields["verkey" := v] case None => fields)
  }

  function CredentialJson(vc: VerifiableCredential): Json
  {
    JObj(map[
      "id" := JStr(vc.id),
      "type" := JArr(seq(|vc.types|, i requires 0 <= i < |vc.types| => JStr(vc.types[i]))),
      "issuer" := JStr(vc.issuer),
      "issuanceDate" := JStr(vc.issuanceDate),
      "credentialSubject" := JObj(map["id" := vc.credentialSubject.id, "isAdult" := JBool(vc.credentialSubject.isAdult)]),
      "proof" := JObj(map[
        "type" := JStr(vc.proof.kind),
        "created" := JStr(vc.proof.created),
        "verificationMethod" := JStr(vc.proof.verificationMethod),
        "proofPurpose" := JStr(vc.proof.proofPurpose),
        "proofValue" := JStr(vc.proof.proofValue)])])
  }

  /** The stored strings after saveUserData, and its outcome. An exception leaves the
      writes made before it in place. `credentialTime` is the ISO time of the user
      credential, `issuanceTime` the one read inside createAgeVerificationCredential. */
  function SaveUserDataEffect(items: map<string, string>, rt: Runtime, userData: UserData, today: CalendarDate,
                              credentialTime: string, issuanceTime: string): (r: (map<string, string>, Result<UserCredential, JsError>))
    ensures forall k :: k != UserDataKey && k != UserCredentialKey && k != AgeCredentialKey ==>
              (k in r.0 <==> k in items) && (k in items ==> r.0[k] == items[k])
    ensures UserDataKey in r.0 && r.0[UserDataKey] == rt.stringify(UserDataJson(userData.firstName, userData.lastName))
    ensures GetFromLocalStorage(items, rt.parse, KeyPairKey).JNull? ==> r.1 == Err(TypeError) && r.0 == items[UserDataKey := r.0[UserDataKey]]
    ensures r.1.Ok? ==>
      var uc := r.1.value;
      && uc.did == GetFromLocalStorage(items, rt.parse, DidKey)
      && Property(GetFromLocalStorage(items, rt.parse, KeyPairKey), "publicKeyBase58") == Ok(uc.verkey)
      && uc.isAdult == IsAdult(rt.parseDate, today, userData.birthDate)
      && uc.issuanceDate == credentialTime
      && UserCredentialKey in r.0 && r.0[UserCredentialKey] == rt.stringify(UserCredentialJson(uc))
      && CreateAgeVerificationCredential(items, rt, uc.did, uc.verkey, userData.birthDate, today, issuanceTime).Ok?
      && AgeCredentialKey in r.0
      && r.0[AgeCredentialKey] == rt.stringify(CredentialJson(CreateAgeVerificationCredential(items, rt, uc.did, uc.verkey, userData.birthDate, today, issuanceTime).value))
  {
    var items1 := items[UserDataKey := rt.stringify(UserDataJson(userData.firstName, userData.lastName))];
    var isUserAdult := IsAdult(rt.parseDate, today, userData.birthDate);
    var did := GetFromLocalStorage(items1, rt.parse, DidKey);
    match Property(GetFromLocalStorage(items1, rt.parse, KeyPairKey), "publicKeyBase58")
    case Err(e) => (items1, Err(e))
    case Ok(verkey) =>
      var userCredential := UserCredential(did, verkey, isUserAdult, credentialTime);
      var items2 := items1[UserCredentialKey := rt.stringify(UserCredentialJson(userCredential))];
      match CreateAgeVerificationCredential(items2, rt, did, verkey, userData.birthDate, today, issuanceTime)
      case Err(e) => (items2, Err(e))
      case Ok(credential) => (items2[AgeCredentialKey := rt.stringify(CredentialJson(credential))], Ok(userCredential))
  }

  /** When saveUserData succeeds, and what a failure leaves behind: with a stored key pair
      the user credential is written, and the call succeeds exactly when the pair's private
      key signs the claim; a failed call leaves the stored age credential as it was. */
  lemma SaveUserDataOutcome(items: map<string, string>, rt: Runtime, userData: UserData, today: CalendarDate,
                            credentialTime: string, issuanceTime: string)
    ensures var r := SaveUserDataEffect(items, rt, userData, today, credentialTime, issuanceTime);
      !GetFromLocalStorage(items, rt.parse, KeyPairKey).JNull? ==>
      var uc := UserCredential(GetFromLocalStorage(items, rt.parse, DidKey),
                               Property(GetFromLocalStorage(items, rt.parse, KeyPairKey), "publicKeyBase58").value,
                               IsAdult(rt.parseDate, today, userData.birthDate), credentialTime);
      && UserCredentialKey in r.0 && r.0[UserCredentialKey] == rt.stringify(UserCredentialJson(uc))
      && (r.1.Ok? <==>
            (StoredSigningKey(items, rt.parse).Some? &&
             rt.sign(ClaimMessage(JsString(uc.did), uc.isAdult, issuanceTime), StoredSigningKey(items, rt.parse).value).Some?))
    ensures var r := SaveUserDataEffect(items, rt, userData, today, credentialTime, issuanceTime);
      r.1.Err? ==> (AgeCredentialKey in r.0 <==> AgeCredentialKey in items) &&
                   (AgeCredentialKey in items ==> r.0[AgeCredentialKey] == items[AgeCredentialKey])
  {
    var items1 := items[UserDataKey := rt.stringify(UserDataJson(userData.firstName, userData.lastName))];
    assert GetFromLocalStorage(items1, rt.parse, DidKey) == GetFromLocalStorage(items, rt.parse, DidKey);
    assert GetFromLocalStorage(items1, rt.parse, KeyPairKey) == GetFromLocalStorage(items, rt.parse, KeyPairKey);
    if !GetFromLocalStorage(items, rt.parse, KeyPairKey).JNull? {
      var verkey := Property(GetFromLocalStorage(items, rt.parse, KeyPairKey), "publicKeyBase58").value;
      var uc := UserCredential(GetFromLocalStorage(items, rt.parse, DidKey), verkey, IsAdult(rt.parseDate, today, userData.birthDate), credentialTime);
      var items2 := items1[UserCredentialKey := rt.stringify(UserCredentialJson(uc))];
      assert StoredSigningKey(items2, rt.parse) == StoredSigningKey(items, rt.parse);
    }
  }

  /** Data minimisation: the birth date reaches storage and the result only through the
      adulthood bit. Two users with the same names whose birth dates agree on adulthood
      leave identical storage and get identical results. */
  lemma BirthDateOnlyThroughAdulthood(items: map<string, string>, rt: Runtime, user1: UserData, user2: UserData,
                                      today: CalendarDate, credentialTime: string, issuanceTime: string)
    requires user1.firstName == user2.firstName && user1.lastName == user2.lastName
    requires IsAdult(rt.parseDate, today, user1.birthDate) == IsAdult(rt.parseDate, today, user2.birthDate)
    ensures SaveUserDataEffect(items, rt, user1, today, credentialTime, issuanceTime)
         == SaveUserDataEffect(items, rt, user2, today, credentialTime, issuanceTime)
  {
  }

  /** saveUserData on the browser's localStorage; an exception is returned as `Err`. */
  method SaveUserData(store: Store, rt: Runtime, userData: UserData, today: CalendarDate,
                      credentialTime: string, issuanceTime: string) returns (r: Result<UserCredential, JsError>)
    modifies store
    ensures (store.items, r) == SaveUserDataEffect(old(store.items), rt, userData, today, credentialTime, issuanceTime)
  {
    SaveToLocalStorage(store, rt.stringify, UserDataKey, UserDataJson(userData.firstName, userData.lastName));
    var birthDate := userData.birthDate;
    var isUserAdult := IsAdult(rt.parseDate, today, birthDate);
    var did := GetFromLocalStorage(store.items, rt.parse, DidKey);
    var verkey :- Property(GetFromLocalStorage(store.items, rt.parse, KeyPairKey), "publicKeyBase58");
    var userCredential := UserCredential(did, verkey, isUserAdult, credentialTime);
    SaveToLocalStorage(store, rt.stringify, UserCredentialKey, UserCredentialJson(userCredential));
    var credential :- CreateAgeVerificationCredential(store.items, rt, userCredential.did, userCredential.verkey, birthDate, today, issuanceTime);
    SaveToLocalStorage(store, rt.stringify, AgeCredentialKey, CredentialJson(credential));
    r := Ok(userCredential);
  }
}
