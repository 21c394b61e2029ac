/** The elliptic-curve ElGamal worker: a message handler over one module
    variable, `keypair` (`null` until the first `generate-keys`). A message
    `[messageType, text?, key?]` is answered with `[messageType, result]` on
    success or `['error', message]` on any error; a message that is not a
    non-empty array is answered with `['error', 'Invalid message format']`.

    `Step` and the functions it calls are the specification; the class
    `Worker` runs the handler statement by statement and is proved equal to
    it. */
module ElGamalCryptoWorker {
  import opened Js
  import opened Sjcl

  /** The argument of `generateKeys`: the 256-bit curve. */
  const CURVE_BITS: nat := 256
  /** The curve `unserializePublicKey` builds keys on: `sjcl.ecc.curves.c256`. */
  const CURVE := "c256"

  const INVALID_FORMAT := "Invalid message format"
  const MISSING_ENCRYPT_PARAMS := "Missing parameters for encryption"
  const MISSING_DECRYPT_PARAM := "Missing parameter for decryption"
  const UNKNOWN_TYPE := "Unknown message type: "
  const NO_KEYPAIR := "Keypair not generated. Generate keys first."

  /** The variable `keypair` after an operation, and what the operation
      returned or threw. */
  datatype Effect = Effect(keypair: Option<KeyPair>, outcome: Outcome<JsValue>)

  /** The variable `keypair` after a message, and the array posted for it. */
  datatype Transition = Transition(next: Option<KeyPair>, reply: Posted)

  /** `serializePublicKey`: the base64 text of the coordinates `x` then `y`. */
  function SerializePublicKey(key: Point, lib: EccLibrary): string
  {
    lib.fromBits(key.x + key.y)
  }

  /** `unserializePublicKey`: decode the base64 text and build a public key
      on the `c256` curve; either step may throw. */
  function UnserializePublicKey(keyStr: JsValue, lib: EccLibrary): Outcome<PublicKey>
  {
    var keyBits := lib.toBits(keyStr);
    if keyBits.Threw? then Threw(keyBits.message)
    else lib.publicKey(CURVE, keyBits.value)
  }

  /** `generateKeypair`: `keypair` is assigned only when the library returns,
      and only the serialized public half is returned. */
  function KeygenStep(keypair: Option<KeyPair>, lib: EccLibrary): Effect
  {
    var generated := lib.generateKeys(CURVE_BITS);
    if generated.Threw? then Effect(keypair, Threw(generated.message))
    else Effect(Some(generated.value), Returned(Str(SerializePublicKey(generated.value.pub, lib))))
  }

  /** `encrypt(content, publicKeyString)`: uses only the caller's key. */
  function EncryptStep(content: JsValue, publicKeyString: JsValue, lib: EccLibrary): Outcome<JsValue>
  {
    var publicKey := UnserializePublicKey(publicKeyString, lib);
    if publicKey.Threw? then Threw(publicKey.message)
    else lib.encrypt(publicKey.value, content)
  }

  /** `decrypt(content)`: needs a stored key pair with a secret key. */
  function DecryptStep(keypair: Option<KeyPair>, content: JsValue, lib: EccLibrary): Outcome<JsValue>
  {
    if keypair.None? || keypair.value.sec.None? then Threw(NO_KEYPAIR)
    else lib.decrypt(keypair.value.sec.value, content)
  }

  /** The `switch` on `messageType` with its parameter checks. */
  function Dispatch(keypair: Option<KeyPair>, messageType: JsValue, text: JsValue, key: JsValue,
                    lib: EccLibrary): (e: Effect)
    ensures messageType != Str("generate-keys") ==> e.keypair == keypair
  {
    if messageType == Str("generate-keys") then KeygenStep(keypair, lib)
    else if messageType == Str("encrypt") then
      if !Truthy(text) || !Truthy(key) then Effect(keypair, Threw(MISSING_ENCRYPT_PARAMS))
      else Effect(keypair, EncryptStep(text, key, lib))
    else if messageType == Str("decrypt") then
      if !Truthy(text) then Effect(keypair, Threw(MISSING_DECRYPT_PARAM))
      else Effect(keypair, DecryptStep(keypair, text, lib))
    else Effect(keypair, Threw(UNKNOWN_TYPE + Display(messageType)))
  }

  predicate WellFormed(data: JsValue)
  {
    data.Arr? && |data.elems| >= 1
  }

  /** The whole handler: the shape check, the dispatch, and the reply
      `['error', message]` or `[messageType, result]`. */
  function Step(keypair: Option<KeyPair>, data: JsValue, lib: EccLibrary): (t: Transition)
    ensures t.next != keypair ==> WellFormed(data) && data.elems[0] == Str("generate-keys")
    ensures t.reply.head != Str("error") ==> WellFormed(data) && t.reply.head == data.elems[0]
  {
    if !WellFormed(data) then Transition(keypair, ErrorPair(INVALID_FORMAT))
    else
      var messageType := At(data.elems, 0);
      var e := Dispatch(keypair, messageType, At(data.elems, 1), At(data.elems, 2), lib);
      if e.outcome.Threw? then Transition(e.keypair, ErrorPair(e.outcome.message))
      else Transition(e.keypair, Posted(messageType, Value(e.outcome.value)))
  }

  /** The worker's module variable and its handler. */
  class Worker {
    var keypair: Option<KeyPair>

    constructor ()
      ensures keypair == None
    {
      keypair := None;
    }

    method GenerateKeypair(lib: EccLibrary) returns (r: Outcome<JsValue>)
      modifies this
      ensures Effect(keypair, r) == KeygenStep(old(keypair), lib)
    {
      var generated := lib.generateKeys(CURVE_BITS);
      if generated.Threw? {
        return Threw(generated.message);
      }
      keypair := Some(generated.value);
      return Returned(Str(SerializePublicKey(keypair.value.pub, lib)));
    }

    /** `decrypt`: reads `keypair`, changes nothing. */
    method Decrypt(content: JsValue, lib: EccLibrary) returns (r: Outcome<JsValue>)
      ensures r == DecryptStep(keypair, content, lib)
    {
      if keypair.None? || keypair.value.sec.None? {
        return Threw(NO_KEYPAIR);
      }
      return lib.decrypt(keypair.value.sec.value, content);
    }

    /** The `message` listener: the posted array is returned. */
    method Handle(data: JsValue, lib: EccLibrary) returns (posted: Posted)
      modifies this
      ensures Transition(keypair, posted) == Step(old(keypair), data, lib)
    {
      if !data.Arr? || |data.elems| < 1 {
        return ErrorPair(INVALID_FORMAT);
      }
      var messageType, text, key := At(data.elems, 0), At(data.elems, 1), At(data.elems, 2);
      var result: Outcome<JsValue>;
      if messageType == Str("generate-keys") {
        result := GenerateKeypair(lib);
      } else if messageType == Str("encrypt") {
        if !Truthy(text) || !Truthy(key) {
          result := Threw(MISSING_ENCRYPT_PARAMS);
        } else {
          result := EncryptStep(text, key, lib);
        }
      } else if messageType == Str("decrypt") {
        if !Truthy(text) {
          result := Threw(MISSING_DECRYPT_PARAM);
        } else {
          result := Decrypt(text, lib);
        }
      } else {
        result := Threw(UNKNOWN_TYPE + Display(messageType));
      }
      if result.Threw? {
        return ErrorPair(result.message);
      }
      return Posted(messageType, Value(result.value));
    }
  }

  // ---------------------------------------------------------------------
  // Properties of the handler
  // ---------------------------------------------------------------------

  /** A message that is not an array, or an empty one, gets
      `['error', 'Invalid message format']` and leaves `keypair` alone. */
  lemma MalformedMessageRejected(keypair: Option<KeyPair>, data: JsValue, lib: EccLibrary)
    requires !data.Arr? || data.elems == []
    ensures Step(keypair, data, lib) ==
      Transition(keypair, Posted(Str("error"), Value(Str("Invalid message format"))))
  {
  }

  /** The one-element message `['generate-keys']` is well formed: when the
      library generates a pair, it is stored and its serialized public key
      is the reply. */
  lemma SingleElementGenerateAccepted(keypair: Option<KeyPair>, lib: EccLibrary)
    requires lib.generateKeys(CURVE_BITS).Returned?
    ensures var pair := lib.generateKeys(CURVE_BITS).value;
      Step(keypair, Arr([Str("generate-keys")]), lib) ==
        Transition(Some(pair), Posted(Str("generate-keys"), Value(Str(lib.fromBits(pair.pub.x + pair.pub.y)))))
  {
  }

  /** A well-formed message gets exactly one reply: `['error', message]`
      when its operation threw, `[messageType, result]` otherwise; since a
      successful `messageType` is one of the three operation names, the head
      tells the two apart. A failing message never changes `keypair`. */
  lemma ReplyHeadSignalsFailure(keypair: Option<KeyPair>, data: JsValue, lib: EccLibrary)
    requires WellFormed(data)
    ensures var e := Dispatch(keypair, data.elems[0], At(data.elems, 1), At(data.elems, 2), lib);
      var t := Step(keypair, data, lib);
      (t.reply.head == Str("error") <==> e.outcome.Threw?) &&
      (e.outcome.Threw? ==> t.reply.body == Value(Str(e.outcome.message)) && t.next == keypair) &&
      (e.outcome.Returned? ==> t.reply == Posted(data.elems[0], Value(e.outcome.value)))
  {
  }

  /** Missing parameters and unknown types are answered with their own
      messages, without a library call and without a state change. */
  lemma RequestErrorsRejected(keypair: Option<KeyPair>, data: JsValue, lib1: EccLibrary, lib2: EccLibrary)
    requires WellFormed(data)
    requires var messageType, text, key := data.elems[0], At(data.elems, 1), At(data.elems, 2);
      (messageType == Str("encrypt") && (!Truthy(text) || !Truthy(key))) ||
      (messageType == Str("decrypt") && !Truthy(text)) ||
      messageType !in {Str("generate-keys"), Str("encrypt"), Str("decrypt")}
    ensures Step(keypair, data, lib1) == Step(keypair, data, lib2)
    ensures Step(keypair, data, lib1) ==
      Transition(keypair, ErrorPair(
        if data.elems[0] == Str("encrypt") then "Missing parameters for encryption"
        else if data.elems[0] == Str("decrypt") then "Missing parameter for decryption"
        else "Unknown message type: " + Display(data.elems[0])))
  {
  }

  /** `decrypt` without a stored key pair, or with one lacking its secret
      key, is answered with the "generate keys first" error, without a
      library call. */
  lemma DecryptRequiresSecretKey(keypair: Option<KeyPair>, data: JsValue, lib1: EccLibrary, lib2: EccLibrary)
    requires WellFormed(data) && data.elems[0] == Str("decrypt") && Truthy(At(data.elems, 1))
    requires keypair.None? || keypair.value.sec.None?
    ensures Step(keypair, data, lib1) == Step(keypair, data, lib2)
    ensures Step(keypair, data, lib1) ==
      Transition(keypair, ErrorPair("Keypair not generated. Generate keys first."))
  {
  }

  /** With a stored secret key, `decrypt` hands the content to the library
      under that key, keeps `keypair`, and replies with the plaintext or the
      library's error. */
  lemma DecryptUsesStoredSecretKey(keypair: Option<KeyPair>, data: JsValue, lib: EccLibrary)
    requires WellFormed(data) && data.elems[0] == Str("decrypt") && Truthy(At(data.elems, 1))
    requires keypair.Some? && keypair.value.sec.Some?
    ensures var d := lib.decrypt(keypair.value.sec.value, At(data.elems, 1));
      Step(keypair, data, lib) ==
        if d.Threw? then Transition(keypair, ErrorPair(d.message))
        else Transition(keypair, Posted(Str("decrypt"), Value(d.value)))
  {
  }

  /** `generate-keys` replaces `keypair` whenever the library returns a pair
      and replies with the serialization of its public point; when the
      library throws, `keypair` is kept and the error is the reply. */
  lemma KeygenReplacesKeypair(keypair: Option<KeyPair>, data: JsValue, lib: EccLibrary)
    requires WellFormed(data) && data.elems[0] == Str("generate-keys")
    ensures var generated := lib.generateKeys(CURVE_BITS);
      Step(keypair, data, lib) ==
        if generated.Threw? then Transition(keypair, ErrorPair(generated.message))
        else Transition(Some(generated.value),
               Posted(Str("generate-keys"), Value(Str(SerializePublicKey(generated.value.pub, lib)))))
  {
  }

  /** The reply to `generate-keys` never depends on the secret key: two
      generations with the same public point (and the same base64 text for
      it) give the same reply, whatever their secret keys. */
  lemma KeygenDisclosesOnlyPublicKey(keypair: Option<KeyPair>, data: JsValue, lib1: EccLibrary, lib2: EccLibrary,
                                     pub: Point, sec1: Option<SecretKey>, sec2: Option<SecretKey>)
    requires WellFormed(data) && data.elems[0] == Str("generate-keys")
    requires lib1.generateKeys(CURVE_BITS) == Returned(KeyPair(pub, sec1))
    requires lib2.generateKeys(CURVE_BITS) == Returned(KeyPair(pub, sec2))
    requires lib1.fromBits(pub.x + pub.y) == lib2.fromBits(pub.x + pub.y)
    ensures Step(keypair, data, lib1).reply == Step(keypair, data, lib2).reply
  {
  }

  /** `encrypt` neither reads nor writes `keypair`: any two workers give the
      same reply and keep their own key pairs. */
  lemma EncryptIgnoresKeypair(kp1: Option<KeyPair>, kp2: Option<KeyPair>, data: JsValue, lib: EccLibrary)
    requires WellFormed(data) && data.elems[0] == Str("encrypt")
    ensures Step(kp1, data, lib).reply == Step(kp2, data, lib).reply
    ensures Step(kp1, data, lib).next == kp1 && Step(kp2, data, lib).next == kp2
  {
  }

  /** `encrypt` with both parameters decodes the caller's key string,
      builds a key on `c256` and encrypts under it, keeping `keypair`; an
      error from any of the three calls is the reply. */
  lemma EncryptUsesCallerKey(keypair: Option<KeyPair>, data: JsValue, lib: EccLibrary)
    requires WellFormed(data) && data.elems[0] == Str("encrypt")
    requires Truthy(At(data.elems, 1)) && Truthy(At(data.elems, 2))
    ensures var text, keyStr := At(data.elems, 1), At(data.elems, 2);
      var bits := lib.toBits(keyStr);
      Step(keypair, data, lib) ==
        if bits.Threw? then Transition(keypair, ErrorPair(bits.message))
        else
          var key := lib.publicKey(CURVE, bits.value);
          if key.Threw? then Transition(keypair, ErrorPair(key.message))
          else
            var c := lib.encrypt(key.value, text);
            if c.Threw? then Transition(keypair, ErrorPair(c.message))
            else Transition(keypair, Posted(Str("encrypt"), Value(c.value)))
  {
  }

  /** When the base64 codec decodes what it encodes and the curve accepts the
      generated point, the published key decodes back to that point. */
  lemma PublicKeyRoundTrip(pair: KeyPair, lib: EccLibrary)
    requires lib.toBits(Str(lib.fromBits(pair.pub.x + pair.pub.y))) == Returned(pair.pub.x + pair.pub.y)
    requires lib.publicKey(CURVE, pair.pub.x + pair.pub.y) == Returned(PublicKey(CURVE, pair.pub))
    ensures UnserializePublicKey(Str(SerializePublicKey(pair.pub, lib)), lib) == Returned(PublicKey(CURVE, pair.pub))
  {
  }

  /** The protocol run `generate-keys`, `encrypt` with the key just
      published, `decrypt` of the ciphertext just returned yields the
      original text, provided the codec round-trips the public key and the
      library decrypts what it encrypted under the generated pair. */
  lemma GenerateEncryptDecrypt(lib: EccLibrary, text: JsValue, pub: Point, sec: SecretKey)
    requires Truthy(text)
    requires lib.generateKeys(CURVE_BITS) == Returned(KeyPair(pub, Some(sec)))
    requires Truthy(Str(lib.fromBits(pub.x + pub.y)))
    requires lib.toBits(Str(lib.fromBits(pub.x + pub.y))) == Returned(pub.x + pub.y)
    requires lib.publicKey(CURVE, pub.x + pub.y) == Returned(PublicKey(CURVE, pub))
    requires var ct := lib.encrypt(PublicKey(CURVE, pub), text);
      ct.Returned? && Truthy(ct.value) && lib.decrypt(sec, ct.value) == Returned(text)
    ensures var t1 := Step(None, Arr([Str("generate-keys")]), lib);
      var published := Str(lib.fromBits(pub.x + pub.y));
      var ct := lib.encrypt(PublicKey(CURVE, pub), text).value;
      var t2 := Step(t1.next, Arr([Str("encrypt"), text, published]), lib);
      var t3 := Step(t2.next, Arr([Str("decrypt"), ct]), lib);
      t1.reply == Posted(Str("generate-keys"), Value(published)) &&
      t2.reply == Posted(Str("encrypt"), Value(ct)) &&
      t3.reply == Posted(Str("decrypt"), Value(text))
  {
    var pair := KeyPair(pub, Some(sec));
    PublicKeyRoundTrip(pair, lib);
    var published := Str(lib.fromBits(pub.x + pub.y));
    var t1 := Step(None, Arr([Str("generate-keys")]), lib);
    assert t1 == Transition(Some(pair), Posted(Str("generate-keys"), Value(published)));
    var msg2 := Arr([Str("encrypt"), text, published]);
    assert At(msg2.elems, 1) == text && At(msg2.elems, 2) == published;
    var t2 := Step(t1.next, msg2, lib);
    assert t2.next == Some(pair);
    var ct := lib.encrypt(PublicKey(CURVE, pub), text).value;
    var msg3 := Arr([Str("decrypt"), ct]);
    assert At(msg3.elems, 1) == ct;
  }
}
