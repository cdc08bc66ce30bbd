/** examples/chainflow-login/src/utils.py: the proof request the login asks for, the
    simulated proof check, and two display/parsing helpers. The clock, the environment,
    and Python's `datetime.fromisoformat`, `int` and `datetime.fromtimestamp` are
    parameters. */
module LoginUtils {
  import opened Wrappers
  import opened Json
  import opened Decimal
  import opened PyRuntime

  // ------------------------------------------------------------------ generate_proof_request

  /** `{"cred_def_id": ...}` */
  datatype Restriction = Restriction(credDefId: string)

  datatype AttributeRequest = AttributeRequest(name: string, restrictions: seq<Restriction>)

  /** A predicate `name pType pValue` over a credential attribute. */
  datatype PredicateRequest = PredicateRequest(name: string, pType: string, pValue: int, restrictions: seq<Restriction>)

  /** `non_revoked`: the interval in which the credential must not be revoked. */
  datatype Interval = Interval(fromTime: int, toTime: int)

  datatype ProofRequest = ProofRequest(
    name: string,
    version: string,
    nonce: string,
    requestedAttributes: map<string, AttributeRequest>,
    requestedPredicates: map<string, PredicateRequest>,
    nonRevoked: Interval)

  const CredDefIdVariable := "CHAINFLOW_CRED_DEF_ID"

  /** `os.getenv(name, "")` */
  function GetEnv(env: map<string, string>, name: string): string
  {
    if name in env then env[name] else ""
  }

  /** generate_proof_request. `nowSeconds` is `int(time.time())` and `nowMillis` is
      `int(time.time() * 1000)`, two readings of the clock. */
  function GenerateProofRequest(nowSeconds: int, nowMillis: int, env: map<string, string>): (r: ProofRequest)
    ensures r.name == "ChainFlow Login Proof" && r.version == "1.0"
    // the nonce is the decimal text of the millisecond clock
    ensures ParseInt(r.nonce) == Some(nowMillis)
    // exactly did, name and expiry_date are requested, each under its own name
    ensures r.requestedAttributes.Keys == {"did", "name", "expiry_date"}
    ensures forall key :: key in r.requestedAttributes ==> r.requestedAttributes[key].name == key
    // one predicate: the expiry is not before now
    ensures r.requestedPredicates.Keys == {"expiry_check"}
    ensures var p := r.requestedPredicates["expiry_check"];
      p.name == "expiry_date" && p.pType == ">=" && p.pValue == nowSeconds
    // every attribute and the predicate carry the same single credential-definition restriction
    ensures forall key :: key in r.requestedAttributes ==>
      r.requestedAttributes[key].restrictions == [Restriction(GetEnv(env, CredDefIdVariable))]
    ensures r.requestedPredicates["expiry_check"].restrictions == [Restriction(GetEnv(env, CredDefIdVariable))]
    // not revoked from the epoch up to the same `now` the predicate uses
    ensures r.nonRevoked == Interval(0, nowSeconds)
    ensures r.nonRevoked.toTime == r.requestedPredicates["expiry_check"].pValue
  {
    var restrictions := [Restriction(GetEnv(env, CredDefIdVariable))];
    IntToStringRoundTrip(nowMillis);
    ProofRequest(
      "ChainFlow Login Proof",
      "1.0",
      IntToString(nowMillis),
      map[
        "did" := AttributeRequest("did", restrictions),
        "name" := AttributeRequest("name", restrictions),
        "expiry_date" := AttributeRequest("expiry_date", restrictions)],
      map["expiry_check" := PredicateRequest("expiry_date", ">=", nowSeconds, restrictions)],
      Interval(0, nowSeconds))
  }

  // ------------------------------------------------------------------ verify_proof

  /** `proof.get("requested_proof", {}).get("revealed_attrs", {})` */
  function RevealedAttrs(proof: Json): (r: Result<Json, PyError>)
    ensures r.Err? <==> !proof.JObj? || !Get(proof, "requested_proof", EmptyObject).value.JObj?
    ensures r.Err? ==> r.error == AttributeError
  {
    var requestedProof :- Get(proof, "requested_proof", EmptyObject);
    Get(requestedProof, "revealed_attrs", EmptyObject)
  }

  /** `datetime.fromisoformat(raw)`: a str argument parses or raises ValueError; any other
      argument is a TypeError. */
  function FromIsoFormat(fromIso: string -> Option<DateTime>, raw: Json): (r: Result<DateTime, PyError>)
    ensures r.Ok? <==> raw.JStr? && fromIso(raw.s).Some?
    ensures r.Ok? ==> r.value == fromIso(raw.s).value
    ensures r.Err? ==> r.error == (if raw.JStr? then ValueError else TypeError)
  {
    match raw
    case JStr(s) => (match fromIso(s) case Some(d) => Ok(d) case None => Err(ValueError))
    case _ => Err(TypeError)
  }

  /** The body of the `try` block: whether the revealed expiry is not before `now`. */
  function ExpiryNotPassed(revealedAttrs: Json, fromIso: string -> Option<DateTime>, now: int): Result<bool, PyError>
  {
    var attribute :- Subscript(revealedAttrs, "expiry_date");
    var raw :- Subscript(attribute, "raw");
    var expiry :- FromIsoFormat(fromIso, raw);
    var expired :- Less(expiry, DateTime(now, false));
    Ok(!expired)
  }

  /** The shape of an accepted proof, stated directly: revealed attributes are a dict with
      "did" and "expiry_date", the latter a dict whose "raw" string parses to a naive
      datetime that is not earlier than `now`. */
  predicate CarriesLiveExpiry(proof: Json, fromIso: string -> Option<DateTime>, now: int)
  {
    && proof.JObj?
    && var requestedProof := if "requested_proof" in proof.fields then proof.fields["requested_proof"] else EmptyObject;
    && requestedProof.JObj?
    && var attrs := if "revealed_attrs" in requestedProof.fields then requestedProof.fields["revealed_attrs"] else EmptyObject;
    && attrs.JObj?
    && "did" in attrs.fields
    && "expiry_date" in attrs.fields
    && attrs.fields["expiry_date"].JObj?
    && "raw" in attrs.fields["expiry_date"].fields
    && var raw := attrs.fields["expiry_date"].fields["raw"];
    && raw.JStr?
    && fromIso(raw.s).Some?
    && !fromIso(raw.s).value.aware
    && fromIso(raw.s).value.micros >= now
  }

  /** verify_proof, with `now` the naive `datetime.now()` in microseconds. KeyError and
      ValueError inside the `try` read as False; the other exceptions escape. */
  function VerifyProof(proof: Json, fromIso: string -> Option<DateTime>, now: int): (r: Result<bool, PyError>)
    // True exactly for a proof of the accepted shape
    ensures r == Ok(true) <==> CarriesLiveExpiry(proof, fromIso, now)
    // a missing did or expiry_date in a dict of revealed attributes is False
    ensures RevealedAttrs(proof).Ok? && RevealedAttrs(proof).value.JObj? ==>
      var attrs := RevealedAttrs(proof).value.fields;
      ("did" !in attrs || "expiry_date" !in attrs) ==> r == Ok(false)
    // a missing raw value, an unparseable one, or an earlier date is False
    ensures RevealedAttrs(proof).Ok? && RevealedAttrs(proof).value.JObj? ==>
      var attrs := RevealedAttrs(proof).value.fields;
      "did" in attrs && "expiry_date" in attrs && attrs["expiry_date"].JObj? ==>
      var expiry := attrs["expiry_date"].fields;
      && ("raw" !in expiry ==> r == Ok(false))
      && ("raw" in expiry && expiry["raw"].JStr? && fromIso(expiry["raw"].s).None? ==> r == Ok(false))
      && ("raw" in expiry && expiry["raw"].JStr? && fromIso(expiry["raw"].s).Some? ==>
            var d := fromIso(expiry["raw"].s).value;
            !d.aware && d.micros < now ==> r == Ok(false))
    // what escapes: AttributeError from a non-dict level, TypeError from the rest
    ensures RevealedAttrs(proof).Err? ==> r == Err(AttributeError)
    ensures r.Err? ==> r.error == AttributeError || r.error == TypeError
  {
    var revealedAttrs :- RevealedAttrs(proof);
    var hasDid :- Contains(revealedAttrs, "did");
    // the second membership test cannot raise once the first did not
    if !hasDid || !Contains(revealedAttrs, "expiry_date").value then Ok(false)
    else
      var checked := ExpiryNotPassed(revealedAttrs, fromIso, now);
      if checked.Err? && (checked.error == KeyError || checked.error == ValueError) then Ok(false)
      else checked
  }

  /** A proof as the wallet returns it, with the given revealed raw values. */
  function SampleProof(did: string, expiry: string): Json
  {
    JObj(map["requested_proof" := JObj(map["revealed_attrs" := JObj(map[
      "did" := JObj(map["raw" := JStr(did)]),
      "expiry_date" := JObj(map["raw" := JStr(expiry)])])])])
  }

  /** A well-formed proof verifies while its expiry lies ahead and not once it has passed;
      an expiry written with a UTC offset parses to an aware datetime, and comparing it with
      the naive clock raises TypeError. */
  lemma VerifyProofExamples(fromIso: string -> Option<DateTime>, now: int, expiry: string)
    ensures fromIso(expiry) == Some(DateTime(now, false)) ==> VerifyProof(SampleProof("did:sov:x", expiry), fromIso, now) == Ok(true)
    ensures fromIso(expiry) == Some(DateTime(now - 1, false)) ==> VerifyProof(SampleProof("did:sov:x", expiry), fromIso, now) == Ok(false)
    ensures fromIso(expiry) == Some(DateTime(now, true)) ==> VerifyProof(SampleProof("did:sov:x", expiry), fromIso, now) == Err(TypeError)
    ensures fromIso(expiry) == None ==> VerifyProof(SampleProof("did:sov:x", expiry), fromIso, now) == Ok(false)
  {
  }

  // ------------------------------------------------------------------ format_did_for_display

  /** format_did_for_display: a string of 10 or more characters becomes its first 6, "...",
      and its last 4; shorter (and empty) strings are returned as they are. */
  function FormatDidForDisplay(did: string): (r: string)
    ensures |did| < 10 ==> r == did
    ensures |did| >= 10 ==> |r| == 13 && r[..6] == did[..6] && r[6..9] == "..." && r[9..] == did[|did| - 4..]
  {
    if |did| < 10 then did else did[..6] + "..." + did[|did| - 4..]
  }

  /** Shortening an already shortened DID changes nothing. */
  lemma FormatDidForDisplayIdempotent(did: string)
    ensures FormatDidForDisplay(FormatDidForDisplay(did)) == FormatDidForDisplay(did)
  {
    var r := FormatDidForDisplay(did);
    if |did| >= 10 {
      assert r[|r| - 4..] == r[9..];
    }
  }

  // ------------------------------------------------------------------ parse_expiry_date

  /** parse_expiry_date: ISO 8601 first; failing that, an integer Unix timestamp in local
      time. A ValueError in either step falls through; None only when both fail.
      `fromTimestamp` may also raise OverflowError or OSError, which escape. */
  function ParseExpiryDate(s: string, fromIso: string -> Option<DateTime>, parseInt: string -> Option<int>,
                           fromTimestamp: int -> Result<DateTime, PyError>): (r: Result<Option<DateTime>, PyError>)
    // the ISO reading wins whenever it succeeds
    ensures fromIso(s).Some? ==> r == Ok(fromIso(s))
    // otherwise the timestamp reading
    ensures fromIso(s).None? && parseInt(s).Some? && fromTimestamp(parseInt(s).value).Ok? ==>
      r == Ok(Some(fromTimestamp(parseInt(s).value).value))
    // None exactly when both readings fail with ValueError
    ensures r == Ok(None) <==>
      fromIso(s).None? && (parseInt(s).None? || fromTimestamp(parseInt(s).value) == Err(ValueError))
    // only the timestamp conversion's other errors escape
    ensures r.Err? ==> fromIso(s).None? && parseInt(s).Some? && r == fromTimestamp(parseInt(s).value).PropagateFailure<Option<DateTime>>()
  {
    match fromIso(s)
    case Some(d) => Ok(Some(d))
    case None =>
      match parseInt(s)
      case None => Ok(None)
      case Some(timestamp) =>
        match fromTimestamp(timestamp)
        case Ok(d) => Ok(Some(d))
        case Err(e) => if e == ValueError then Ok(None) else Err(e)
  }
}
