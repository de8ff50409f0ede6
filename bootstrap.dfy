/**
 * The `/authenticate` handshake (server.js:173-203): check the CPF, find the
 * stored public key, compare it with the claimed one up to PEM formatting,
 * and on a match return three payloads each encrypted under the claimed key.
 *
 * The credential files are a pair of maps, and RSA is symbolic: a ciphertext
 * records the key it was made under and its plaintext, and only the holder of
 * the matching private key can recover the plaintext.
 */
module Bootstrap {
  import opened Wrappers
  import opened Transport
  import opened KeyNormalization

  /**
   * `isValidCPF` (server.js:112-114), written as the source does: the CPF
   * must be truthy (present and not "") and have 11 characters. The
   * truthiness test adds nothing to the length test.
   */
  predicate IsValidCpf(cpf: Option<string>)
    ensures IsValidCpf(cpf) <==> cpf.Some? && |cpf.value| == 11
  {
    cpf.Some? && cpf.value != [] && |cpf.value| == 11
  }

  /**
   * The certificate directory: per CPF, the text of its `.pem` file and the
   * `name` field of its `.json` profile, when those exist.
   */
  datatype CredentialStore = CredentialStore(keys: map<string, string>, names: map<string, string>)

  /** `getPublicKey` (server.js:116-124): the key file's text, or nothing. */
  function StoredPublicKey(store: CredentialStore, cpf: string): Option<string> {
    if cpf in store.keys then Some(store.keys[cpf]) else None
  }

  /** `getName` (server.js:126-138): `parsedData.name || null`, so an empty name counts as none. */
  function StoredName(store: CredentialStore, cpf: string): Option<string> {
    if cpf in store.names && store.names[cpf] != [] then Some(store.names[cpf]) else None
  }

  /** `!storedPublicKey` (server.js:180): no key file, or an empty one, both mean "not found". */
  predicate HasStoredKey(store: CredentialStore, cpf: string) {
    StoredPublicKey(store, cpf).Some? && StoredPublicKey(store, cpf).value != []
  }

  /** What `encryptWithPublicKey` is applied to: a string, or the `{nome, cpf}` record as JSON. */
  datatype Plaintext = Text(text: string) | UserRecord(nome: Option<string>, cpf: string)

  datatype Ciphertext = Encrypted(publicKey: string, plaintext: Plaintext)

  /** Two PEM texts denote the same key when they agree after normalization. */
  predicate SameKey(a: string, b: string) {
    NormalizeKey(a) == NormalizeKey(b)
  }

  /**
   * `encryptWithPublicKey` (server.js:140-144): the private half of the key
   * pair recovers the message, and the private half of any other pair does not.
   */
  function Encrypt(publicKey: string, m: Plaintext): (c: Ciphertext)
    ensures Decrypt(publicKey, c) == Some(m)
    ensures forall k :: !SameKey(k, publicKey) ==> Decrypt(k, c) == None
  {
    Encrypted(publicKey, m)
  }

  /** Decryption by the holder of the private half of the key pair whose public half is `publicKey`. */
  function Decrypt(publicKey: string, c: Ciphertext): (r: Option<Plaintext>)
    ensures r.Some? <==> SameKey(publicKey, c.publicKey)
    ensures r.Some? ==> r.value == c.plaintext
  {
    if SameKey(publicKey, c.publicKey) then Some(c.plaintext) else None
  }

  datatype AuthRequest = AuthRequest(cpf: Option<string>, publicKey: Option<string>)

  datatype AuthFailure = InvalidCpf | KeyNotFound | KeyMismatch

  datatype AuthResponse =
    | Authenticated(encryptedUserInfo: Ciphertext,
                    encryptedSymmetricKey: Ciphertext,
                    encryptedMulticastAddress: Ciphertext)
    | Rejected(reason: AuthFailure)
      // `normalizeKey` was applied to a missing or non-string `publicKey` and threw
    | HandlerError

  /** The `message` of each rejection (server.js:181, 198, 201). */
  function FailureMessage(f: AuthFailure): string {
    match f
    case InvalidCpf => "CPF inválido."
    case KeyNotFound => "Chave pública não encontrada para validação."
    case KeyMismatch => "Chave pública inválida ou não encontrada."
  }

  /** The three rejection messages are pairwise different. */
  lemma FailureMessagesDistinct(f: AuthFailure, g: AuthFailure)
    requires f != g
    ensures FailureMessage(f) != FailureMessage(g)
  {
  }

  /** The JSON body Express sends, with the HTTP status. */
  datatype HttpResponse = HttpResponse(
    status: int,
    success: bool,
    message: Option<string>,
    encryptedUserInfo: Option<Ciphertext>,
    encryptedSymmetricKey: Option<Ciphertext>,
    encryptedMulticastAddress: Option<Ciphertext>)

  /**
   * `res.json` / `res.status(400).json` (server.js:181, 191-196, 198, 201),
   * and Express's status 500 for a handler that threw: only a success carries
   * ciphertexts, and each rejection carries its own message.
   */
  function ToHttp(r: AuthResponse): (h: HttpResponse)
    ensures h.success <==> r.Authenticated?
    ensures h.success <==> h.status == 200
    ensures r.Rejected? ==> h.status == 400 && h.message == Some(FailureMessage(r.reason))
    ensures r.HandlerError? ==> h.status == 500 && h.message.None?
    ensures !h.success <==> h.encryptedUserInfo.None?
    ensures !h.success <==> h.encryptedSymmetricKey.None?
    ensures !h.success <==> h.encryptedMulticastAddress.None?
    ensures r.Authenticated? ==>
              && h.encryptedUserInfo == Some(r.encryptedUserInfo)
              && h.encryptedSymmetricKey == Some(r.encryptedSymmetricKey)
              && h.encryptedMulticastAddress == Some(r.encryptedMulticastAddress)
  {
    match r
    case Authenticated(user, symmetric, address) =>
      HttpResponse(200, true, None, Some(user), Some(symmetric), Some(address))
    case Rejected(reason) => HttpResponse(400, false, Some(FailureMessage(reason)), None, None, None)
    case HandlerError => HttpResponse(500, false, None, None, None, None)
  }

  /**
   * The handler's decision. The checks run in order and the first that fails
   * decides: an invalid CPF, then a missing stored key, then a claimed key that
   * differs from the stored one after normalization. Only when all pass are the
   * session key, the user record and the multicast address encrypted, each
   * under the key the caller sent.
   */
  function Authenticate(request: AuthRequest, store: CredentialStore, symmetricKey: string): (r: AuthResponse)
    ensures r == Rejected(InvalidCpf) <==> !IsValidCpf(request.cpf)
    ensures r == Rejected(KeyNotFound) <==>
              && IsValidCpf(request.cpf)
              && !(request.cpf.value in store.keys && store.keys[request.cpf.value] != [])
    ensures r == HandlerError <==>
              IsValidCpf(request.cpf) && HasStoredKey(store, request.cpf.value) && request.publicKey.None?
    ensures r == Rejected(KeyMismatch) <==>
              && IsValidCpf(request.cpf) && HasStoredKey(store, request.cpf.value) && request.publicKey.Some?
              && !SameKey(StoredPublicKey(store, request.cpf.value).value, request.publicKey.value)
    ensures r.Authenticated? <==>
              && IsValidCpf(request.cpf) && HasStoredKey(store, request.cpf.value) && request.publicKey.Some?
              && SameKey(StoredPublicKey(store, request.cpf.value).value, request.publicKey.value)
    ensures r.Authenticated? ==>
              var key := request.publicKey.value;
              && r.encryptedSymmetricKey == Encrypt(key, Text(symmetricKey))
              && r.encryptedUserInfo == Encrypt(key, UserRecord(StoredName(store, request.cpf.value), request.cpf.value))
              && r.encryptedMulticastAddress == Encrypt(key, Text(MulticastAddress))
  {
    if IsValidCpf(request.cpf) then
      var cpf := request.cpf.value;
      var storedPublicKey := StoredPublicKey(store, cpf);
      var storedName := StoredName(store, cpf);
      if storedPublicKey.None? || storedPublicKey.value == [] then
        Rejected(KeyNotFound)
      else if request.publicKey.None? then
        HandlerError
      else if NormalizeKey(storedPublicKey.value) == NormalizeKey(request.publicKey.value) then
        var publicKey := request.publicKey.value;
        var user := UserRecord(storedName, cpf);
        Authenticated(Encrypt(publicKey, user), Encrypt(publicKey, Text(symmetricKey)),
                      Encrypt(publicKey, Text(MulticastAddress)))
      else
        Rejected(KeyMismatch)
    else
      Rejected(InvalidCpf)
  }

  /**
   * The handshake's round trip: whoever holds the private key registered for
   * the CPF recovers the session key, the user record and the multicast
   * address, byte for byte, from a successful response.
   */
  lemma AuthenticatedRoundTrip(request: AuthRequest, store: CredentialStore, symmetricKey: string)
    requires Authenticate(request, store, symmetricKey).Authenticated?
    ensures var r := Authenticate(request, store, symmetricKey);
            var cpf := request.cpf.value;
            var stored := StoredPublicKey(store, cpf).value;
            && Decrypt(stored, r.encryptedSymmetricKey) == Some(Text(symmetricKey))
            && Decrypt(stored, r.encryptedUserInfo) == Some(UserRecord(StoredName(store, cpf), cpf))
            && Decrypt(stored, r.encryptedMulticastAddress) == Some(Text(MulticastAddress))
  {
  }

  /**
   * Re-wrapping the claimed key's PEM text (adding or removing CR and LF)
   * never changes whether the handshake succeeds or why it fails.
   */
  lemma AuthenticateIgnoresLineBreaks(cpf: Option<string>, store: CredentialStore, symmetricKey: string,
                                      a: string, c: char, b: string)
    requires IsLineBreak(c)
    ensures var r1 := Authenticate(AuthRequest(cpf, Some(a + [c] + b)), store, symmetricKey);
            var r2 := Authenticate(AuthRequest(cpf, Some(a + b)), store, symmetricKey);
            r1.Authenticated? == r2.Authenticated? && (r1.Rejected? ==> r1 == r2)
  {
    var r1 := Authenticate(AuthRequest(cpf, Some(a + [c] + b)), store, symmetricKey);
    var r2 := Authenticate(AuthRequest(cpf, Some(a + b)), store, symmetricKey);
    if !IsValidCpf(cpf) {
      assert r1 == r2 == Rejected(InvalidCpf);
    } else if !HasStoredKey(store, cpf.value) {
      assert r1 == r2 == Rejected(KeyNotFound);
    } else {
      var stored := StoredPublicKey(store, cpf.value).value;
      LineBreakInsensitive(a, c, b);
      assert SameKey(stored, a + [c] + b) == SameKey(stored, a + b);
    }
  }

  /**
   * A claimed key that is already in normal form and differs from a stored key
   * in normal form is refused: the normalization identifies PEM layouts, not
   * different keys.
   */
  lemma DistinctCleanKeysMismatch(cpf: string, store: CredentialStore, symmetricKey: string, claimed: string)
    requires |cpf| == 11 && cpf in store.keys
    requires var stored := store.keys[cpf];
             && stored != [] && stored != claimed
             && NoLineBreaks(stored) && !IsJsWhitespace(stored[0]) && !IsJsWhitespace(stored[|stored| - 1])
    requires NoLineBreaks(claimed)
    requires claimed == [] || (!IsJsWhitespace(claimed[0]) && !IsJsWhitespace(claimed[|claimed| - 1]))
    ensures Authenticate(AuthRequest(Some(cpf), Some(claimed)), store, symmetricKey) == Rejected(KeyMismatch)
  {
    var stored := store.keys[cpf];
    NormalizeCleanKey(stored);
    NormalizeCleanKey(claimed);
    assert !SameKey(stored, claimed);
    assert IsValidCpf(Some(cpf)) && HasStoredKey(store, cpf);
    assert StoredPublicKey(store, cpf).value == stored;
  }
}
