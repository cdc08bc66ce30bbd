/** examples/chainflow-login/app.py: the demo login handshake of the FastAPI backend.
    Two in-memory tables, `active_connections` and `active_proofs`, advance
    invited -> connected -> proof requested -> verified: by elapsed time on each status
    poll, and by the agent's webhooks. The clock (`datetime.now()`, in microseconds), the
    ids the mock agent draws from `os.urandom`, and `isoformat` are parameters. */
module LoginApp {
  import opened Wrappers
  import opened Json
  import opened PyRuntime

  const MicrosPerSecond := 1_000_000
  /** `(now - created_at).total_seconds() > 3`, on microsecond timestamps. */
  const ConnectDelay := 3 * MicrosPerSecond
  /** `(now - created_at).total_seconds() > 5`. */
  const VerifyDelay := 5 * MicrosPerSecond
  /** `timedelta(days=365)`. */
  const ExpiryPeriod := 365 * 24 * 60 * 60 * MicrosPerSecond
  /** The DID the demo reports for every verified proof. */
  const DemoDid := "did:sov:2wJPyULfLLnYTEFYzByfUR"

  const Invited := JStr("invited")
  const Connected := JStr("connected")
  const Requested := JStr("requested")
  const Verified := JStr("verified")

  /** An entry of `active_connections`. A webhook may store any JSON value as status. */
  datatype Connection = Connection(createdAt: int, status: Json)

  /** An entry of `active_proofs`. `did` and `expiryDate` are JNull until set, which is
      also what `.get` returns for the missing keys. */
  datatype ProofEntry = ProofEntry(proofId: string, createdAt: int, status: Json, did: Json, expiryDate: Json)

  /** Both tables; `proofOrder` lists the keys of `proofs` in insertion order, the order
      in which Python iterates the dict. */
  datatype Tables = Tables(connections: map<string, Connection>, proofs: map<string, ProofEntry>, proofOrder: seq<string>)

  /** `proofOrder` enumerates the keys of `proofs` once each, and a proof is only ever
      requested for a known connection. */
  ghost predicate Inv(t: Tables)
  {
    && (forall i, j :: 0 <= i < j < |t.proofOrder| ==> t.proofOrder[i] != t.proofOrder[j])
    && (forall k :: k in t.proofs <==> k in t.proofOrder)
    && (forall k :: k in t.proofs ==> k in t.connections)
  }

  /** The JSON bodies the handlers return. */
  datatype InitResponse = InitResponse(connectionId: string, invitation: Json, status: string)

  datatype StatusResponse =
    | NotFound                                          // HTTPException(404, "Connection not found")
    | ProofRequested(connectionId: string, proofId: string)  // status "proof_requested"
    | LoginSuccessful(connectionId: string, did: Json, proofId: string, expiryDate: Json)  // status "login_successful"
    | CurrentStatus(status: Json, connectionId: string) // the connection's stored status

  // ------------------------------------------------------------------ the mock agent

  const ConnectionIdPrefix := "connection-"
  const InvitationIdPrefix := "invitation-"
  const InvitationType := "did:sov:BzCbsNYhMrjHiqZDTUASHg;spec/connections/1.0/invitation"
  const VerifierLabel := "ChainFlow Verifier"
  const MockRecipientKey := "mock-key-1"

  /** create_invitation of the mock agent: a connection id and a fixed invitation naming
      the agent's endpoint. `connectionHex` and `invitationHex` are the hex of the two
      `os.urandom(4)` draws. */
  function CreateInvitation(endpoint: string, connectionHex: string, invitationHex: string): (r: (string, Json))
    ensures |r.0| == |ConnectionIdPrefix| + |connectionHex|
    ensures r.0[..|ConnectionIdPrefix|] == ConnectionIdPrefix && r.0[|ConnectionIdPrefix|..] == connectionHex
    ensures r.1.JObj? && r.1.fields.Keys == {"@type", "@id", "label", "recipientKeys", "serviceEndpoint", "routingKeys"}
    ensures r.1.fields["@type"] == JStr(InvitationType)
    ensures r.1.fields["@id"] == JStr(InvitationIdPrefix + invitationHex)
    ensures r.1.fields["label"] == JStr(VerifierLabel)
    ensures r.1.fields["recipientKeys"] == JArr([JStr(MockRecipientKey)])
    ensures r.1.fields["serviceEndpoint"] == JStr(endpoint)
    ensures r.1.fields["routingKeys"] == JArr([])
  {
    (ConnectionIdPrefix + connectionHex,
     JObj(map[
       "@type" := JStr(InvitationType),
       "@id" := JStr(InvitationIdPrefix + invitationHex),
       "label" := JStr(VerifierLabel),
       "recipientKeys" := JArr([JStr(MockRecipientKey)]),
       "serviceEndpoint" := JStr(endpoint),
       "routingKeys" := JArr([])]))
  }

  /** Connection ids are as distinct as the random draws behind them. */
  lemma {:induction false} ConnectionIdsDistinct(endpoint: string, hex1: string, hex2: string, invitationHex1: string, invitationHex2: string)
    ensures CreateInvitation(endpoint, hex1, invitationHex1).0 == CreateInvitation(endpoint, hex2, invitationHex2).0 <==> hex1 == hex2
  {
    var id1, id2 := CreateInvitation(endpoint, hex1, invitationHex1).0, CreateInvitation(endpoint, hex2, invitationHex2).0;
    if id1 == id2 {
      assert hex1 == id1[|ConnectionIdPrefix|..] == id2[|ConnectionIdPrefix|..] == hex2;
    }
  }

  // ------------------------------------------------------------------ status polling

  /** A requested proof once the simulated verification has happened at time `now`. */
  function VerifiedEntry(proof: ProofEntry, now: int, isoFormat: int -> string): ProofEntry
  {
    proof.(status := Verified, did := JStr(DemoDid), expiryDate := JStr(isoFormat(now + ExpiryPeriod)))
  }

  /** check_login_status: the tables after one poll at time `now`, and the answer.
      `newProofId` is the id the agent would hand out if a proof is requested. */
  function Poll(t: Tables, connectionId: string, now: int, newProofId: string, isoFormat: int -> string): (r: (Tables, StatusResponse))
    // an unknown connection is a 404 and changes nothing
    ensures connectionId !in t.connections <==> r.1 == NotFound
    ensures connectionId !in t.connections ==> r.0 == t
    // connections: only this entry's status changes, and only from invited to connected,
    // which happens exactly when more than 3 seconds have passed
    ensures r.0.connections.Keys == t.connections.Keys
    ensures forall k :: k in t.connections && k != connectionId ==> r.0.connections[k] == t.connections[k]
    ensures connectionId in t.connections ==>
      var c, c' := t.connections[connectionId], r.0.connections[connectionId];
      && c'.createdAt == c.createdAt
      && (c' == c || (c.status == Invited && c'.status == Connected))
      && (c.status == Invited ==> (c'.status == Connected <==> now - c.createdAt > ConnectDelay))
    // proofs: an existing entry keeps its id and creation time, and only this
    // connection's entry changes; a new one is created exactly when a proof is requested
    ensures forall k :: k in t.proofs ==> k in r.0.proofs && r.0.proofs[k].proofId == t.proofs[k].proofId && r.0.proofs[k].createdAt == t.proofs[k].createdAt
    ensures forall k :: k in t.proofs && k != connectionId ==> r.0.proofs[k] == t.proofs[k]
    ensures r.1.ProofRequested? <==> connectionId !in t.proofs && connectionId in r.0.proofs
    // a known connection that is (or has just become) connected and has no proof yet
    // gets a proof request
    ensures connectionId in t.connections && connectionId !in t.proofs && r.0.connections[connectionId].status == Connected ==>
      r.1.ProofRequested?
    ensures r.1.ProofRequested? ==>
      && r.1 == ProofRequested(connectionId, newProofId)
      && r.0.connections[connectionId].status == Connected
      && r.0.proofs == t.proofs[connectionId := ProofEntry(newProofId, now, Requested, JNull, JNull)]
      && r.0.proofOrder == t.proofOrder + [connectionId]
    ensures !r.1.ProofRequested? ==> r.0.proofs.Keys == t.proofs.Keys && r.0.proofOrder == t.proofOrder
    // a requested proof becomes verified exactly when more than 5 seconds have passed
    ensures connectionId in t.connections && connectionId in t.proofs ==>
      var p, p' := t.proofs[connectionId], r.0.proofs[connectionId];
      && (p.status == Requested ==> (p'.status == Verified <==> now - p.createdAt > VerifyDelay))
      && (p' == p || (p.status == Requested && p' == VerifiedEntry(p, now, isoFormat)))
    // the answer: login_successful exactly for a verified proof, with its stored fields;
    // otherwise the connection's stored status
    ensures connectionId in t.connections ==>
      (r.1.LoginSuccessful? <==> connectionId in r.0.proofs && r.0.proofs[connectionId].status == Verified)
    ensures r.1.LoginSuccessful? ==>
      var p := r.0.proofs[connectionId];
      r.1 == LoginSuccessful(connectionId, p.did, p.proofId, p.expiryDate)
    ensures r.1.CurrentStatus? ==> r.1 == CurrentStatus(r.0.connections[connectionId].status, connectionId)
    ensures Inv(t) ==> Inv(r.0)
  {
    if connectionId !in t.connections then (t, NotFound)
    else
      var connection := t.connections[connectionId];
      var t1 := if connection.status == Invited && now - connection.createdAt > ConnectDelay
                then t.(connections := t.connections[connectionId := connection.(status := Connected)])
                else t;
      var status := t1.connections[connectionId].status;
      if status == Connected && connectionId !in t1.proofs then
        (t1.(proofs := t1.proofs[connectionId := ProofEntry(newProofId, now, Requested, JNull, JNull)],
             proofOrder := t1.proofOrder + [connectionId]),
         ProofRequested(connectionId, newProofId))
      else if connectionId in t1.proofs then
        var proof := t1.proofs[connectionId];
        var t2 := if proof.status == Requested && now - proof.createdAt > VerifyDelay
                  then t1.(proofs := t1.proofs[connectionId := VerifiedEntry(proof, now, isoFormat)])
                  else t1;
        var proof' := t2.proofs[connectionId];
        if proof'.status == Verified then (t2, LoginSuccessful(connectionId, proof'.did, proof'.proofId, proof'.expiryDate))
        else (t2, CurrentStatus(status, connectionId))
      else (t1, CurrentStatus(status, connectionId))
  }

  /** One poll's inputs: the clock and the id the agent would hand out. */
  datatype PollInput = PollInput(now: int, newProofId: string)

  /** A run of polls for one connection, with no other requests in between. */
  function RunPolls(t: Tables, connectionId: string, polls: seq<PollInput>, isoFormat: int -> string): (r: (Tables, seq<StatusResponse>))
    ensures |r.1| == |polls|
    decreases |polls|
  {
    if polls == [] then (t, [])
    else
      var step := Poll(t, connectionId, polls[0].now, polls[0].newProofId, isoFormat);
      var rest := RunPolls(step.0, connectionId, polls[1..], isoFormat);
      (rest.0, [step.1] + rest.1)
  }

  /** Once a connection has a proof, later polls never request a second one: the entry
      keeps its id and no answer is "proof_requested". */
  lemma {:induction false} OneProofPerConnection(t: Tables, connectionId: string, polls: seq<PollInput>, isoFormat: int -> string)
    requires connectionId in t.proofs
    ensures var r := RunPolls(t, connectionId, polls, isoFormat);
      && connectionId in r.0.proofs
      && r.0.proofs[connectionId].proofId == t.proofs[connectionId].proofId
      && r.0.proofs.Keys == t.proofs.Keys
      && forall i :: 0 <= i < |r.1| ==> !r.1[i].ProofRequested?
    decreases |polls|
  {
    if polls != [] {
      var step := Poll(t, connectionId, polls[0].now, polls[0].newProofId, isoFormat);
      OneProofPerConnection(step.0, connectionId, polls[1..], isoFormat);
    }
  }

  /** Once the proof is verified, every poll of a run with no webhook in between answers
      login_successful with the stored did, proof id and expiry, and the entry does not
      change. (A webhook can still take the proof out of "verified": see
      WebhookCanRevokeVerified.) */
  lemma {:induction false} VerifiedStableUnderPolls(t: Tables, connectionId: string, polls: seq<PollInput>, isoFormat: int -> string)
    requires connectionId in t.connections && connectionId in t.proofs
    requires t.proofs[connectionId].status == Verified
    ensures var r := RunPolls(t, connectionId, polls, isoFormat);
      var p := t.proofs[connectionId];
      && connectionId in r.0.proofs && r.0.proofs[connectionId] == p
      && forall i :: 0 <= i < |r.1| ==> r.1[i] == LoginSuccessful(connectionId, p.did, p.proofId, p.expiryDate)
    decreases |polls|
  {
    if polls != [] {
      var step := Poll(t, connectionId, polls[0].now, polls[0].newProofId, isoFormat);
      VerifiedStableUnderPolls(step.0, connectionId, polls[1..], isoFormat);
    }
  }

  /** The demo's happy path: a fresh invitation polled after 3 s asks for a proof, and the
      proof polled after 5 more seconds logs the user in with the demo DID. */
  lemma HappyPath(t: Tables, connectionId: string, created: int, proofId: string, isoFormat: int -> string)
    requires connectionId !in t.proofs
    ensures var t0 := t.(connections := t.connections[connectionId := Connection(created, Invited)]);
      var first := Poll(t0, connectionId, created + ConnectDelay + 1, proofId, isoFormat);
      var second := Poll(first.0, connectionId, created + ConnectDelay + VerifyDelay + 2, "unused", isoFormat);
      && first.1 == ProofRequested(connectionId, proofId)
      && second.1 == LoginSuccessful(connectionId, JStr(DemoDid), proofId, JStr(isoFormat(created + ConnectDelay + VerifyDelay + 2 + ExpiryPeriod)))
  {
  }

  // ------------------------------------------------------------------ webhooks

  /** `payload.get(key)` of a dict payload (JNull when absent). */
  function PayloadField(payload: Json, key: string): Json
  {
    match payload
    case JObj(m) => if key in m then m[key] else JNull
    case _ => JNull
  }

  /** One level of the descent: the field of a dict, or `{}` when the dict lacks it. */
  function Child(v: Json, key: string): Json
  {
    if v.JObj? && key in v.fields then v.fields[key] else EmptyObject
  }

  /** The `"raw"` field of a dict attribute, None when absent. */
  function RawField(attr: Json): Json
  {
    if attr.JObj? && "raw" in attr.fields then attr.fields["raw"] else JNull
  }

  /** The revealed did and expiry a verified presentation carries, read as
      `payload.get("presentation", {}).get("requested_proof", {}).get("revealed_attrs", {})`
      and then `.get("did", {}).get("raw")` and `.get("expiry_date", {}).get("raw")`;
      any level that is not a dict raises AttributeError. */
  function RevealedDidAndExpiry(payload: Json): (r: Result<(Json, Json), PyError>)
    ensures r.Ok? ==> payload.JObj?
    // the read succeeds exactly when every level it descends through is a dict (an
    // absent level reads as `{}`), and then yields the two "raw" fields (None if absent)
    ensures var presentation := Child(payload, "presentation");
      var requestedProof := Child(presentation, "requested_proof");
      var attrs := Child(requestedProof, "revealed_attrs");
      var didAttr, expiryAttr := Child(attrs, "did"), Child(attrs, "expiry_date");
      && (r.Ok? <==> payload.JObj? && presentation.JObj? && requestedProof.JObj? && attrs.JObj? && didAttr.JObj? && expiryAttr.JObj?)
      && (r.Ok? ==> r.value == (RawField(didAttr), RawField(expiryAttr)))
    ensures r.Err? ==> r.error == AttributeError
  {
    var presentation :- Get(payload, "presentation", EmptyObject);
    var requestedProof :- Get(presentation, "requested_proof", EmptyObject);
    var revealedAttrs :- Get(requestedProof, "revealed_attrs", EmptyObject);
    var didAttr :- Get(revealedAttrs, "did", EmptyObject);
    var did :- Get(didAttr, "raw", JNull);
    // revealed_attrs is a dict by now, so this `.get` cannot raise
    var expiryAttr := Get(revealedAttrs, "expiry_date", EmptyObject).value;
    var expiry :- Get(expiryAttr, "raw", JNull);
    Ok((did, expiry))
  }

  /** Whether an entry is the one `presentation_exchange_id` names (a str compared with
      any JSON value). */
  predicate Names(proofId: Json, entry: ProofEntry) { proofId == JStr(entry.proofId) }

  /** The loop of the present_proof webhook over the entries `order` (in that order):
      each entry named by `proofId` takes the new `state`; on "verified" it also takes the
      revealed did and expiry, and when those cannot be read the exception ends the loop
      right after the status of that entry was set. */
  function UpdateProofs(proofs: map<string, ProofEntry>, order: seq<string>, proofId: Json, state: Json,
                        revealed: Result<(Json, Json), PyError>): (r: map<string, ProofEntry>)
    requires forall k :: k in order ==> k in proofs
    ensures r.Keys == proofs.Keys
    decreases |order|
  {
    if order == [] then proofs
    else
      var k := order[0];
      if Names(proofId, proofs[k]) then
        var entry := proofs[k].(status := state);
        if state == Verified then
          match revealed
          case Err(_) => proofs[k := entry]
          case Ok((did, expiry)) => UpdateProofs(proofs[k := entry.(did := did, expiryDate := expiry)], order[1..], proofId, state, revealed)
        else UpdateProofs(proofs[k := entry], order[1..], proofId, state, revealed)
      else UpdateProofs(proofs, order[1..], proofId, state, revealed)
  }

  /** One iteration of the present_proof loop, unfolded. */
  lemma UpdateProofsStep(proofs: map<string, ProofEntry>, order: seq<string>, proofId: Json, state: Json,
                         revealed: Result<(Json, Json), PyError>)
    requires forall k :: k in order ==> k in proofs
    requires order != []
    ensures var k := order[0];
      var entry := proofs[k].(status := state);
      UpdateProofs(proofs, order, proofId, state, revealed) ==
        if !Names(proofId, proofs[k]) then UpdateProofs(proofs, order[1..], proofId, state, revealed)
        else if state != Verified then UpdateProofs(proofs[k := entry], order[1..], proofId, state, revealed)
        else if revealed.Err? then proofs[k := entry]
        else UpdateProofs(proofs[k := entry.(did := revealed.value.0, expiryDate := revealed.value.1)], order[1..], proofId, state, revealed)
  {
  }

  /** The present_proof loop never changes a proof's id or creation time, and leaves
      every entry the webhook does not name as it was. */
  lemma {:induction false} UpdateProofsFrame(proofs: map<string, ProofEntry>, order: seq<string>, proofId: Json, state: Json,
                                             revealed: Result<(Json, Json), PyError>)
    requires forall k :: k in order ==> k in proofs
    ensures var r := UpdateProofs(proofs, order, proofId, state, revealed);
      && (forall k :: k in proofs ==> r[k].proofId == proofs[k].proofId && r[k].createdAt == proofs[k].createdAt)
      && (forall k :: k in proofs && (k !in order || !Names(proofId, proofs[k])) ==> r[k] == proofs[k])
    decreases |order|
  {
    if order != [] {
      var k := order[0];
      UpdateProofsStep(proofs, order, proofId, state, revealed);
      if Names(proofId, proofs[k]) {
        var entry := proofs[k].(status := state);
        if state != Verified {
          UpdateProofsFrame(proofs[k := entry], order[1..], proofId, state, revealed);
        } else if revealed.Ok? {
          UpdateProofsFrame(proofs[k := entry.(did := revealed.value.0, expiryDate := revealed.value.1)], order[1..], proofId, state, revealed);
        }
      } else {
        UpdateProofsFrame(proofs, order[1..], proofId, state, revealed);
      }
    }
  }

  /** When nothing goes wrong, every named entry takes the webhook's state and, on
      "verified", the revealed did and expiry. */
  lemma {:induction false} UpdateProofsApplies(proofs: map<string, ProofEntry>, order: seq<string>, proofId: Json, state: Json,
                                               revealed: Result<(Json, Json), PyError>)
    requires forall k :: k in order ==> k in proofs
    requires state != Verified || revealed.Ok?
    ensures var r := UpdateProofs(proofs, order, proofId, state, revealed);
      forall k :: k in order && Names(proofId, proofs[k]) ==>
        && r[k].status == state
        && (state == Verified ==> r[k].did == revealed.value.0 && r[k].expiryDate == revealed.value.1)
        && (state != Verified ==> r[k] == proofs[k].(status := state))
    decreases |order|
  {
    if order != [] {
      var k := order[0];
      UpdateProofsStep(proofs, order, proofId, state, revealed);
      if Names(proofId, proofs[k]) {
        var entry := proofs[k].(status := state);
        if state != Verified {
          UpdateProofsApplies(proofs[k := entry], order[1..], proofId, state, revealed);
          UpdateProofsFrame(proofs[k := entry], order[1..], proofId, state, revealed);
        } else {
          UpdateProofsApplies(proofs[k := entry.(did := revealed.value.0, expiryDate := revealed.value.1)], order[1..], proofId, state, revealed);
          UpdateProofsFrame(proofs[k := entry.(did := revealed.value.0, expiryDate := revealed.value.1)], order[1..], proofId, state, revealed);
        }
      } else {
        UpdateProofsApplies(proofs, order[1..], proofId, state, revealed);
      }
    }
  }

  /** The position in `order` of the first entry `proofId` names, if any. */
  function FirstNamed(proofs: map<string, ProofEntry>, order: seq<string>, proofId: Json): (i: Option<nat>)
    requires forall k :: k in order ==> k in proofs
    ensures i.Some? ==> i.value < |order| && Names(proofId, proofs[order[i.value]])
    ensures i.Some? ==> forall j :: 0 <= j < i.value ==> !Names(proofId, proofs[order[j]])
    ensures i.None? ==> forall j :: 0 <= j < |order| ==> !Names(proofId, proofs[order[j]])
    decreases |order|
  {
    if order == [] then None
    else if Names(proofId, proofs[order[0]]) then Some(0)
    else
      match FirstNamed(proofs, order[1..], proofId)
      case None => None
      case Some(i) => Some(i + 1)
  }

  /** When a verified presentation's attributes cannot be read, the handler stops at the
      first named entry in insertion order: that entry, and only it, becomes "verified",
      with nothing else of it changed; with no named entry nothing changes. */
  lemma {:induction false} UpdateProofsStopsOnReadError(proofs: map<string, ProofEntry>, order: seq<string>, proofId: Json,
                                                        revealed: Result<(Json, Json), PyError>)
    requires forall k :: k in order ==> k in proofs
    requires revealed.Err?
    ensures UpdateProofs(proofs, order, proofId, Verified, revealed) ==
      match FirstNamed(proofs, order, proofId)
      case None => proofs
      case Some(i) => proofs[order[i] := proofs[order[i]].(status := Verified)]
    ensures var r := UpdateProofs(proofs, order, proofId, Verified, revealed);
      && (forall k :: k in proofs ==> r[k] == proofs[k] || r[k] == proofs[k].(status := Verified))
      && (forall k1, k2 :: k1 in proofs && k2 in proofs && r[k1] != proofs[k1] && r[k2] != proofs[k2] ==> k1 == k2)
    decreases |order|
  {
    if order != [] {
      UpdateProofsStep(proofs, order, proofId, Verified, revealed);
      if !Names(proofId, proofs[order[0]]) {
        UpdateProofsStopsOnReadError(proofs, order[1..], proofId, revealed);
      }
    }
  }

  /** handle_webhook: the tables after a webhook with the given topic and request body
      (None when the body is not JSON). Every exception is swallowed. */
  function Webhook(t: Tables, topic: string, body: Option<Json>): (r: Tables)
    requires Inv(t)
    ensures Inv(r)
    ensures r.proofOrder == t.proofOrder
    ensures r.connections.Keys == t.connections.Keys && r.proofs.Keys == t.proofs.Keys
    ensures topic != "connections" && topic != "present_proof" ==> r == t
    // connections: the status of the named known connection becomes the payload's state;
    // every other entry, and the proofs table, is untouched
    ensures topic == "connections" ==>
      && r.proofs == t.proofs
      && forall k :: k in t.connections ==>
           r.connections[k] == t.connections[k] ||
           (body.Some? && PayloadField(body.value, "connection_id") == JStr(k) &&
            r.connections[k] == t.connections[k].(status := PayloadField(body.value, "state")))
    ensures topic == "connections" && body.Some? && body.value.JObj? ==>
      forall k :: k in t.connections && PayloadField(body.value, "connection_id") == JStr(k) ==>
        r.connections[k].status == PayloadField(body.value, "state")
    // present_proof: only proofs named by presentation_exchange_id change; connections do not
    ensures topic == "present_proof" ==>
      && r.connections == t.connections
      && forall k :: k in t.proofs && (body.None? || !Names(PayloadField(body.value, "presentation_exchange_id"), t.proofs[k])) ==>
           r.proofs[k] == t.proofs[k]
  {
    match body
    case None => t
    case Some(payload) =>
      if topic == "connections" then
        if !payload.JObj? then t
        else
          var connectionId := PayloadField(payload, "connection_id");
          var state := PayloadField(payload, "state");
          if KeyIn(connectionId, t.connections.Keys) == Ok(true) then
            t.(connections := t.connections[connectionId.s := t.connections[connectionId.s].(status := state)])
          else t
      else if topic == "present_proof" then
        if !payload.JObj? then t
        else
          UpdateProofsFrame(t.proofs, t.proofOrder, PayloadField(payload, "presentation_exchange_id"),
                            PayloadField(payload, "state"), RevealedDidAndExpiry(payload));
          t.(proofs := UpdateProofs(t.proofs, t.proofOrder, PayloadField(payload, "presentation_exchange_id"),
                                    PayloadField(payload, "state"), RevealedDidAndExpiry(payload)))
      else t
  }

  /** A present_proof webhook sets the state of every proof it names, together with the
      revealed did and expiry on "verified", unless those cannot be read. */
  lemma PresentProofSetsState(t: Tables, payload: Json)
    requires Inv(t) && payload.JObj?
    requires PayloadField(payload, "state") != Verified || RevealedDidAndExpiry(payload).Ok?
    ensures var r := Webhook(t, "present_proof", Some(payload));
      var state := PayloadField(payload, "state");
      forall k :: k in t.proofs && Names(PayloadField(payload, "presentation_exchange_id"), t.proofs[k]) ==>
        && r.proofs[k].status == state
        && (state == Verified ==> (r.proofs[k].did, r.proofs[k].expiryDate) == RevealedDidAndExpiry(payload).value)
  {
    UpdateProofsApplies(t.proofs, t.proofOrder, PayloadField(payload, "presentation_exchange_id"),
                        PayloadField(payload, "state"), RevealedDidAndExpiry(payload));
  }

  /** A verified presentation whose attributes cannot be read still marks the first proof
      it names (in insertion order) as verified, without a did or expiry, and changes
      nothing else. */
  lemma VerifiedWithoutAttributes(t: Tables, payload: Json)
    requires Inv(t) && payload.JObj?
    requires PayloadField(payload, "state") == Verified && RevealedDidAndExpiry(payload).Err?
    ensures var r := Webhook(t, "present_proof", Some(payload));
      && r.connections == t.connections && r.proofOrder == t.proofOrder
      && r.proofs == match FirstNamed(t.proofs, t.proofOrder, PayloadField(payload, "presentation_exchange_id"))
                     case None => t.proofs
                     case Some(i) => t.proofs[t.proofOrder[i] := t.proofs[t.proofOrder[i]].(status := Verified)]
    ensures var r := Webhook(t, "present_proof", Some(payload));
      && (forall k :: k in t.proofs ==> r.proofs[k] == t.proofs[k] || r.proofs[k] == t.proofs[k].(status := Verified))
      && (forall k1, k2 :: k1 in t.proofs && k2 in t.proofs && r.proofs[k1] != t.proofs[k1] && r.proofs[k2] != t.proofs[k2] ==> k1 == k2)
  {
    UpdateProofsStopsOnReadError(t.proofs, t.proofOrder, PayloadField(payload, "presentation_exchange_id"), RevealedDidAndExpiry(payload));
  }

  /** "verified" is not final: a present_proof webhook naming a verified proof with any
      state other than "verified" or "requested" overwrites its status, and the next poll
      no longer logs the user in. */
  lemma WebhookCanRevokeVerified(t: Tables, connectionId: string, state: Json, now: int, newProofId: string, isoFormat: int -> string)
    requires Inv(t) && connectionId in t.proofs && t.proofs[connectionId].status == Verified
    requires state != Verified && state != Requested
    ensures var payload := JObj(map["presentation_exchange_id" := JStr(t.proofs[connectionId].proofId), "state" := state]);
      var t' := Webhook(t, "present_proof", Some(payload));
      && t'.proofs[connectionId].status == state
      && !Poll(t', connectionId, now, newProofId, isoFormat).1.LoginSuccessful?
  {
    var payload := JObj(map["presentation_exchange_id" := JStr(t.proofs[connectionId].proofId), "state" := state]);
    assert PayloadField(payload, "state") == state;
    assert PayloadField(payload, "presentation_exchange_id") == JStr(t.proofs[connectionId].proofId);
    PresentProofSetsState(t, payload);
  }

  /** Replacing the values of the proofs table, with the same keys, keeps the invariant. */
  lemma SameKeysKeepInv(t: Tables, proofs: map<string, ProofEntry>)
    requires Inv(t) && proofs.Keys == t.proofs.Keys
    ensures Inv(t.(proofs := proofs))
  {
  }

  // ------------------------------------------------------------------ the server

  /** The module-level tables of app.py and its three handlers. */
  class LoginServer {
    var connections: map<string, Connection>
    var proofs: map<string, ProofEntry>
    var proofOrder: seq<string>

    function State(): Tables
      reads this
    {
      Tables(connections, proofs, proofOrder)
    }

    ghost predicate Valid()
      reads this
    {
      Inv(State())
    }

    constructor ()
      ensures Valid()
      ensures connections == map[] && proofs == map[] && proofOrder == []
    {
      connections, proofs, proofOrder := map[], map[], [];
    }

    /** init_login: asks the mock agent (at `endpoint`, with its two random draws) for an
        invitation and records the new connection as invited at `now`. */
    method InitLogin(endpoint: string, connectionHex: string, invitationHex: string, now: int) returns (response: InitResponse)
      requires Valid()
      modifies this
      ensures Valid()
      ensures var (connectionId, invitation) := CreateInvitation(endpoint, connectionHex, invitationHex);
        && connections == old(connections)[connectionId := Connection(now, Invited)]
        && response == InitResponse(connectionId, invitation, "invitation_created")
      ensures proofs == old(proofs) && proofOrder == old(proofOrder)
    {
      var (connectionId, invitation) := CreateInvitation(endpoint, connectionHex, invitationHex);
      connections := connections[connectionId := Connection(now, Invited)];
      response := InitResponse(connectionId, invitation, "invitation_created");
    }

    /** check_login_status. */
    method CheckLoginStatus(connectionId: string, now: int, newProofId: string, isoFormat: int -> string) returns (response: StatusResponse)
      requires Valid()
      modifies this
      ensures Valid()
      ensures (State(), response) == Poll(old(State()), connectionId, now, newProofId, isoFormat)
    {
      if connectionId !in connections {
        return NotFound;
      }
      var connection := connections[connectionId];
      var currentStatus := connection.status;
      if currentStatus == Invited {
        if now - connection.createdAt > ConnectDelay {
          connections := connections[connectionId := connection.(status := Connected)];
          currentStatus := Connected;
        }
      }
      if currentStatus == Connected && connectionId !in proofs {
        proofs := proofs[connectionId := ProofEntry(newProofId, now, Requested, JNull, JNull)];
        proofOrder := proofOrder + [connectionId];
        return ProofRequested(connectionId, newProofId);
      }
      if connectionId in proofs {
        var proof := proofs[connectionId];
        if proof.status == Requested && now - proof.createdAt > VerifyDelay {
          proof := VerifiedEntry(proof, now, isoFormat);
          proofs := proofs[connectionId := proof];
        }
        if proof.status == Verified {
          return LoginSuccessful(connectionId, proof.did, proof.proofId, proof.expiryDate);
        }
      }
      return CurrentStatus(connections[connectionId].status, connectionId);
    }

    /** handle_webhook; the reply is always `{}`. */
    method HandleWebhook(topic: string, body: Option<Json>) returns (response: Json)
      requires Valid()
      modifies this
      ensures Valid()
      ensures State() == Webhook(old(State()), topic, body)
      ensures response == EmptyObject
    {
      response := EmptyObject;
      if body.None? {
        return;
      }
      var payload := body.value;
      if topic == "connections" {
        var connectionId := Get(payload, "connection_id", JNull);
        var state := Get(payload, "state", JNull);
        if connectionId.Err? || state.Err? {
          return;
        }
        var known := KeyIn(connectionId.value, connections.Keys);
        if known == Ok(true) {
          var id := connectionId.value.s;
          connections := connections[id := connections[id].(status := state.value)];
        }
      } else if topic == "present_proof" {
        var proofId := Get(payload, "presentation_exchange_id", JNull);
        var state := Get(payload, "state", JNull);
        if proofId.Err? || state.Err? {
          return;
        }
        UpdateMatchingProofs(proofId.value, state.value, payload);
        SameKeysKeepInv(old(State()), proofs);
      }
    }

    /** The loop of the present_proof webhook over `active_proofs`. */
    method UpdateMatchingProofs(proofId: Json, state: Json, payload: Json)
      requires forall k :: k in proofOrder ==> k in proofs
      modifies this
      ensures connections == old(connections) && proofOrder == old(proofOrder)
      ensures proofs == UpdateProofs(old(proofs), proofOrder, proofId, state, RevealedDidAndExpiry(payload))
    {
      ghost var revealed := RevealedDidAndExpiry(payload);
      ghost var target := UpdateProofs(proofs, proofOrder, proofId, state, revealed);
      var table, order := proofs, proofOrder;
      var i := 0;
      assert order[i..] == order;
      while i < |order|
        invariant 0 <= i <= |order|
        invariant proofs == old(proofs) && connections == old(connections) && proofOrder == old(proofOrder)
        invariant table.Keys == proofs.Keys
        invariant forall k :: k in order[i..] ==> k in table
        invariant target == UpdateProofs(table, order[i..], proofId, state, revealed)
      {
        var k := order[i];
        ghost var rest := order[i..];
        assert rest[0] == k && rest[1..] == order[i + 1..];
        UpdateProofsStep(table, rest, proofId, state, revealed);
        if Names(proofId, table[k]) {
          // the status is written first; an exception while reading the revealed
          // attributes leaves it written and ends the handler
          var entry := table[k].(status := state);
          if state == Verified {
            var attributes := RevealedDidAndExpiry(payload);
            if attributes.Err? {
              proofs := table[k := entry];
              return;
            }
            entry := entry.(did := attributes.value.0, expiryDate := attributes.value.1);
          }
          table := table[k := entry];
        }
        i := i + 1;
      }
      proofs := table;
    }
  }
}
