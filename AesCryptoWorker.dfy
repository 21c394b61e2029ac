/** The AES worker: a stateless message handler. A message
    `[messageType, text, secret]` is answered with `[messageType, result]`
    on success or `['error', message]` on any error; a message that is not
    an array of at least three elements is answered with
    `['error', 'Invalid message data format']`. The shared secret comes with
    every message, so the reply is a function of the message alone. */
module AesCryptoWorker {
  import opened Js
  import opened Sjcl

  /** The `ks` option: a 256-bit derived key. */
  const KEY_SIZE: nat := 256

  const INVALID_FORMAT := "Invalid message data format"
  const UNKNOWN_TYPE := "Unknown message type: "

  /** `encrypt(content, secret)`: one library call, nothing checked. */
  function Encrypt(content: JsValue, secret: JsValue, lib: AesLibrary): Outcome<JsValue>
  {
    lib.encrypt(secret, content, AesOptions(KEY_SIZE))
  }

  /** `decrypt(content, secret)`: one library call, nothing checked. */
  function Decrypt(content: JsValue, secret: JsValue, lib: AesLibrary): Outcome<JsValue>
  {
    lib.decrypt(secret, content, AesOptions(KEY_SIZE))
  }

  /** The `switch` on `messageType`: only `encrypt` and `decrypt`. */
  function Dispatch(messageType: JsValue, text: JsValue, secret: JsValue, lib: AesLibrary): (r: Outcome<JsValue>)
    ensures r.Returned? ==> messageType == Str("encrypt") || messageType == Str("decrypt")
  {
    if messageType == Str("encrypt") then Encrypt(text, secret, lib)
    else if messageType == Str("decrypt") then Decrypt(text, secret, lib)
    else Threw(UNKNOWN_TYPE + Display(messageType))
  }

  predicate WellFormed(data: JsValue)
  {
    data.Arr? && |data.elems| >= 3
  }

  /** The whole handler: the shape check, the dispatch, and the reply
      `['error', message]` or `[messageType, result]`. */
  function Handle(data: JsValue, lib: AesLibrary): (r: Posted)
    ensures r.head == Str("error") ||
      (WellFormed(data) && r.head == data.elems[0] && (r.head == Str("encrypt") || r.head == Str("decrypt")))
  {
    if !WellFormed(data) then ErrorPair(INVALID_FORMAT)
    else
      var messageType := data.elems[0];
      var result := Dispatch(messageType, data.elems[1], data.elems[2], lib);
      if result.Threw? then ErrorPair(result.message)
      else Posted(messageType, Value(result.value))
  }

  // ---------------------------------------------------------------------
  // Properties of the handler
  // ---------------------------------------------------------------------

  /** A message that is not an array, or has fewer than three elements,
      gets `['error', 'Invalid message data format']` without a library
      call. */
  lemma MalformedMessageRejected(data: JsValue, lib: AesLibrary)
    requires !data.Arr? || |data.elems| < 3
    ensures Handle(data, lib) == Posted(Str("error"), Value(Str("Invalid message data format")))
  {
  }

  /** Only `encrypt` and `decrypt` are handled: any other tag, `generate-keys`
      included, gets `['error', 'Unknown message type: …']` without a
      library call. */
  lemma OnlyEncryptAndDecrypt(data: JsValue, lib1: AesLibrary, lib2: AesLibrary)
    requires WellFormed(data)
    requires data.elems[0] != Str("encrypt") && data.elems[0] != Str("decrypt")
    ensures Handle(data, lib1) == Handle(data, lib2)
    ensures Handle(data, lib1) == ErrorPair("Unknown message type: " + Display(data.elems[0]))
  {
  }

  /** `generate-keys` in particular is an unknown type here. */
  lemma GenerateKeysUnsupported(data: JsValue, lib: AesLibrary)
    requires WellFormed(data) && data.elems[0] == Str("generate-keys")
    ensures Handle(data, lib) == ErrorPair("Unknown message type: generate-keys")
  {
    OnlyEncryptAndDecrypt(data, lib, lib);
    assert "Unknown message type: " + "generate-keys" == "Unknown message type: generate-keys";
  }

  /** A well-formed message gets exactly one reply: `['error', message]`
      when its operation threw and `[messageType, result]` otherwise; as a
      successful `messageType` is `encrypt` or `decrypt`, the head tells the
      two apart. */
  lemma ReplyHeadSignalsFailure(data: JsValue, lib: AesLibrary)
    requires WellFormed(data)
    ensures var result := Dispatch(data.elems[0], data.elems[1], data.elems[2], lib);
      var reply := Handle(data, lib);
      (reply.head == Str("error") <==> result.Threw?) &&
      (result.Threw? ==> reply.body == Value(Str(result.message))) &&
      (result.Returned? ==> reply == Posted(data.elems[0], Value(result.value)) &&
                            (reply.head == Str("encrypt") || reply.head == Str("decrypt")))
  {
  }

  /** The text and the secret of the message reach the library unchanged,
      with `{ks: 256}`, whatever they are: there is no parameter check, so
      an `undefined` text or secret is the library's to reject, and its
      error is the reply. */
  lemma ParametersReachLibraryUnchanged(data: JsValue, lib: AesLibrary)
    requires WellFormed(data)
    requires data.elems[0] == Str("encrypt") || data.elems[0] == Str("decrypt")
    ensures var text, secret := data.elems[1], data.elems[2];
      var result := if data.elems[0] == Str("encrypt")
        then lib.encrypt(secret, text, AesOptions(KEY_SIZE))
        else lib.decrypt(secret, text, AesOptions(KEY_SIZE));
      Handle(data, lib) ==
        if result.Threw? then ErrorPair(result.message)
        else Posted(data.elems[0], Value(result.value))
  {
  }

  /** The worker keeps nothing between messages: the reply reads the first
      three elements only, so messages that agree on them get the same
      reply. */
  lemma ReplyDependsOnFirstThreeElements(d1: JsValue, d2: JsValue, lib: AesLibrary)
    requires WellFormed(d1) && WellFormed(d2)
    requires d1.elems[..3] == d2.elems[..3]
    ensures Handle(d1, lib) == Handle(d2, lib)
  {
    assert d1.elems[0] == d1.elems[..3][0] && d2.elems[0] == d2.elems[..3][0];
    assert d1.elems[1] == d1.elems[..3][1] && d2.elems[1] == d2.elems[..3][1];
    assert d1.elems[2] == d1.elems[..3][2] && d2.elems[2] == d2.elems[..3][2];
  }

  /** When the library decrypts under a secret what it encrypted under that
      secret, decrypting the ciphertext of an `encrypt` reply with the same
      secret replies with the original text. */
  lemma EncryptThenDecrypt(text: JsValue, secret: JsValue, lib: AesLibrary)
    requires var ct := lib.encrypt(secret, text, AesOptions(KEY_SIZE));
      ct.Returned? && lib.decrypt(secret, ct.value, AesOptions(KEY_SIZE)) == Returned(text)
    ensures var r1 := Handle(Arr([Str("encrypt"), text, secret]), lib);
      r1.body.Value? &&
      Handle(Arr([Str("decrypt"), r1.body.v, secret]), lib) == Posted(Str("decrypt"), Value(text))
  {
    var ct := lib.encrypt(secret, text, AesOptions(KEY_SIZE)).value;
    assert Handle(Arr([Str("encrypt"), text, secret]), lib) == Posted(Str("encrypt"), Value(ct));
  }
}
