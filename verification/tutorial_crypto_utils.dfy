/** examples/did-tutorial/src/utils/cryptoUtils.ts: the tutorial's copy of the utilities.
    Its DID is a plain prefix of the key; its document builder, signature check and storage
    helpers are the same code as the root module's, which the lemmas at the end confirm. */
module TutorialCryptoUtils {
  import opened Wrappers
  import opened Json
  import opened BrowserStorage
  import CryptoUtils

  /** generateDID: the method prefix followed by the key's first (at most) 16 characters. */
  function GenerateDID(publicKeyBase58: string): (did: string)
    ensures |did| == |CryptoUtils.DidMethodPrefix| + CryptoUtils.Min(CryptoUtils.DidSuffixLength, |publicKeyBase58|)
    ensures did[..|CryptoUtils.DidMethodPrefix|] == CryptoUtils.DidMethodPrefix
    ensures forall i :: 0 <= i < |did| - |CryptoUtils.DidMethodPrefix| ==>
              did[|CryptoUtils.DidMethodPrefix|..][i] == publicKeyBase58[i]
  {
    CryptoUtils.DidMethodPrefix + publicKeyBase58[..CryptoUtils.Min(CryptoUtils.DidSuffixLength, |publicKeyBase58|)]
  }

  /** The two derivations are related by reversal: the tutorial's DID of a key is the root
      module's DID of the reversed key (so they differ on any key whose first 16 characters
      are not a palindrome). */
  lemma TutorialDIDIsRootDIDOfReversedKey(publicKeyBase58: string)
    ensures GenerateDID(publicKeyBase58) == CryptoUtils.GenerateDID(CryptoUtils.Reverse(publicKeyBase58))
  {
    var k := publicKeyBase58;
    var tutorial, root := GenerateDID(k), CryptoUtils.GenerateDID(CryptoUtils.Reverse(k));
    var n := |CryptoUtils.DidMethodPrefix|;
    CryptoUtils.ReverseReverse(k);
    assert |tutorial| == |root|;
    forall i | 0 <= i < |tutorial|
      ensures tutorial[i] == root[i]
    {
      if i >= n {
        assert tutorial[i] == tutorial[n..][i - n];
        assert root[i] == root[n..][i - n];
      } else {
        assert tutorial[i] == tutorial[..n][i];
        assert root[i] == root[..n][i];
      }
    }
  }

  /** A key on which the two derivations disagree. */
  lemma DerivationsDiverge()
    ensures GenerateDID("ab") == "did:example:ab"
    ensures CryptoUtils.GenerateDID("ab") == "did:example:ba"
  {
    assert CryptoUtils.Reverse("ab") == "ba" by {
      assert CryptoUtils.Reverse("ab")[0] == 'b' && CryptoUtils.Reverse("ab")[1] == 'a';
    }
  }

  /** generateDIDDocument, with `now` the ISO time read once for both timestamps. */
  function GenerateDIDDocument(did: string, publicKeyBase58: string, now: string): (doc: CryptoUtils.DIDDocument)
    ensures doc.context == CryptoUtils.DidContext && doc.id == did
    ensures |doc.verificationMethod| == 1
    ensures doc.verificationMethod[0].id == doc.id + "#keys-1"
    ensures doc.verificationMethod[0].controller == doc.id
    ensures doc.verificationMethod[0].kind == CryptoUtils.VerificationKeyType
    ensures doc.verificationMethod[0].publicKeyBase58 == publicKeyBase58
    ensures doc.authentication == [doc.verificationMethod[0].id]
    ensures doc.created == doc.updated == now
  {
    var keyId := did + "#keys-1";
    CryptoUtils.DIDDocument(
      CryptoUtils.DidContext,
      did,
      [CryptoUtils.VerificationMethod(keyId, CryptoUtils.VerificationKeyType, did, publicKeyBase58)],
      [keyId],
      now,
      now)
  }

  /** verifySignature: fail-closed, any exception of the library reads as `false`. */
  function VerifySignature(verify: (string, string, string) -> Option<bool>, message: string, signatureHex: string, publicKeyHex: string): (valid: bool)
    ensures valid <==> verify(message, signatureHex, publicKeyHex) == Some(true)
  {
    match verify(message, signatureHex, publicKeyHex)
    case Some(ok) => ok
    case None => false
  }

  /** getFromLocalStorage: null for an absent or empty value, the parsed value, or the
      raw string when `JSON.parse` throws. */
  function GetFromLocalStorage(items: map<string, string>, parse: string -> Option<Json>, key: string): (v: Json)
    ensures key !in items || items[key] == "" ==> v == JNull
    ensures key in items && items[key] != "" && parse(items[key]).None? ==> v == JStr(items[key])
    ensures key in items && items[key] != "" && parse(items[key]).Some? ==> v == parse(items[key]).value
  {
    if key in items && items[key] != "" then
      match parse(items[key])
      case Some(value) => value
      case None => JStr(items[key])
    else JNull
  }

  /** saveToLocalStorage. */
  method SaveToLocalStorage(store: Store, stringify: Json -> string, key: string, value: Json)
    modifies store
    ensures store.items == old(store.items)[key := stringify(value)]
  {
    store.SetItem(key, stringify(value));
  }

  /** Apart from DID derivation the tutorial's helpers compute what the root module's do. */
  lemma SameHelpersAsRoot(did: string, publicKeyBase58: string, now: string,
                          verify: (string, string, string) -> Option<bool>, message: string, signatureHex: string, publicKeyHex: string,
                          items: map<string, string>, parse: string -> Option<Json>, key: string)
    ensures GenerateDIDDocument(did, publicKeyBase58, now) == CryptoUtils.GenerateDIDDocument(did, publicKeyBase58, now)
    ensures VerifySignature(verify, message, signatureHex, publicKeyHex) == CryptoUtils.VerifySignature(verify, message, signatureHex, publicKeyHex)
    ensures GetFromLocalStorage(items, parse, key) == CryptoUtils.GetFromLocalStorage(items, parse, key)
  {
  }
}
