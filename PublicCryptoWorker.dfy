/** The RSA worker served from `public/`: the same protocol and the same two
    module variables as the hardened worker, but no input sanitising: the
    content is not type-checked, trimmed or bounded, a generated key pair is
    not checked for emptiness, and `encrypt` before any `generate-keys` meets
    `crypt === null`.

    `Step` and the functions it calls are the specification; the class
    `Worker` runs the handler statement by statement and is proved equal to
    it. */
module PublicCryptoWorker {
  import opened Js
  import opened JsEncrypt

  /** The `default_key_size` of the instances this worker creates. */
  const KEY_SIZE: nat := 2056

  const INVALID_FORMAT := "Invalid message format"
  const ENCRYPT_NEEDS_PARAMS := "Encryption requires both text and a public key."
  const DECRYPT_NEEDS_TEXT := "Decryption requires text."
  const UNKNOWN_TYPE := "Unknown message type: "
  const EMPTY_CIPHERTEXT := "Encryption failed."
  const NO_PRIVATE_KEY := "Private key not generated. Please generate keys first."
  const EMPTY_PLAINTEXT := "Decryption failed."

  /** `generateKeypair`: a new instance, its private key stored, its public
      key returned unchecked. */
  function KeygenStep(s: State, lib: Library): (e: Effect)
    ensures e.outcome.Returned? && Consistent(e.state)
    ensures e.state.crypt.Some? && e.state.crypt.value.key.Generated?
    ensures e.outcome.value == e.state.crypt.value.key.pair.publicKey
    ensures e.state.privateKey == e.state.crypt.value.key.pair.privateKey
  {
    var pair := lib.generate(KEY_SIZE);
    Effect(State(Some(Instance(KEY_SIZE, Generated(pair))), pair.privateKey), Returned(pair.publicKey))
  }

  /** `encrypt(content, publicKey)`: `crypt.setKey(publicKey)` (a `TypeError`
      while `crypt` is `null`), then `crypt.encrypt(content)` on the content
      as received. */
  function EncryptStep(s: State, content: JsValue, publicKey: JsValue, lib: Library): (e: Effect)
    ensures e.state.privateKey == s.privateKey
    ensures e.state.crypt.Some? <==> s.crypt.Some?
    ensures e.outcome.Returned? ==> Truthy(e.outcome.value)
  {
    var loaded := SetKeyOn(s.crypt, publicKey);
    if loaded.Threw? then Effect(s, Threw(loaded.message))
    else
      var s' := s.(crypt := Some(loaded.value));
      var encrypted := lib.encrypt(publicKey, content);
      if encrypted.Threw? then Effect(s', encrypted)
      else if !Truthy(encrypted.value) then Effect(s', Threw(EMPTY_CIPHERTEXT))
      else Effect(s', encrypted)
  }

  /** `decrypt(content)`: the private-key check, then
      `crypt.setKey(privateKey)` and `crypt.decrypt(content)`. */
  function DecryptStep(s: State, content: JsValue, lib: Library): (e: Effect)
    ensures e.state.privateKey == s.privateKey
    ensures e.state.crypt.Some? <==> s.crypt.Some?
    ensures e.outcome.Returned? ==> Truthy(e.outcome.value)
  {
    if !Truthy(s.privateKey) then Effect(s, Threw(NO_PRIVATE_KEY))
    else
      var loaded := SetKeyOn(s.crypt, s.privateKey);
      if loaded.Threw? then Effect(s, Threw(loaded.message))
      else
        var s' := s.(crypt := Some(loaded.value));
        var decrypted := lib.decrypt(s.privateKey, content);
        if decrypted.Threw? then Effect(s', decrypted)
        else if !Truthy(decrypted.value) then Effect(s', Threw(EMPTY_PLAINTEXT))
        else Effect(s', decrypted)
  }

  /** The `switch` on `messageType` with its parameter checks. */
  function Dispatch(s: State, messageType: JsValue, text: JsValue, key: JsValue, lib: Library): (e: Effect)
    ensures messageType != Str("generate-keys") ==>
      e.state.privateKey == s.privateKey && (e.state.crypt.Some? <==> s.crypt.Some?)
  {
    if messageType == Str("generate-keys") then KeygenStep(s, lib)
    else if messageType == Str("encrypt") then
      if !Truthy(text) || !Truthy(key) then Effect(s, Threw(ENCRYPT_NEEDS_PARAMS))
      else EncryptStep(s, text, key, lib)
    else if messageType == Str("decrypt") then
      if !Truthy(text) then Effect(s, Threw(DECRYPT_NEEDS_TEXT))
      else DecryptStep(s, text, lib)
    else Effect(s, Threw(UNKNOWN_TYPE + Display(messageType)))
  }

  predicate WellFormed(data: JsValue)
  {
    data.Arr? && |data.elems| >= 2
  }

  /** The whole handler: the shape check, the dispatch, and the reply
      `[messageId, result]` or `[messageId, {error}]`. */
  function Step(s: State, data: JsValue, lib: Library): (t: Transition)
    ensures WellFormed(data) ==> t.reply.head == data.elems[1]
    ensures t.next != s ==>
      WellFormed(data) && data.elems[0] in {Str("generate-keys"), Str("encrypt"), Str("decrypt")}
  {
    if !WellFormed(data) then Transition(s, ErrorPair(INVALID_FORMAT))
    else
      var e := Dispatch(s, At(data.elems, 0), At(data.elems, 2), At(data.elems, 3), lib);
      Transition(e.state, Posted(At(data.elems, 1), ResultBody(e.outcome)))
  }

  /** The worker's module variables and its handler. */
  class Worker {
    var crypt: Option<Instance>
    var privateKey: JsValue

    function Snapshot(): State
      reads this
    {
      State(crypt, privateKey)
    }

    ghost predicate Valid()
      reads this
    {
      Consistent(Snapshot())
    }

    constructor ()
      ensures Snapshot() == Initial && Valid()
    {
      crypt := None;
      privateKey := Null;
    }

    method GenerateKeypair(lib: Library) returns (r: Outcome<JsValue>)
      modifies this
      ensures Effect(Snapshot(), r) == KeygenStep(old(Snapshot()), lib)
    {
      crypt := Some(Instance(KEY_SIZE, Generated(lib.generate(KEY_SIZE))));
      privateKey := crypt.value.key.pair.privateKey;
      return Returned(crypt.value.key.pair.publicKey);
    }

    method Encrypt(content: JsValue, publicKey: JsValue, lib: Library) returns (r: Outcome<JsValue>)
      modifies this
      ensures Effect(Snapshot(), r) == EncryptStep(old(Snapshot()), content, publicKey, lib)
    {
      if crypt.None? {
        return Threw(NULL_SET_KEY_MESSAGE);
      }
      crypt := Some(crypt.value.(key := SetKey(publicKey)));
      var encrypted := lib.encrypt(publicKey, content);
      if encrypted.Threw? {
        return encrypted;
      }
      if !Truthy(encrypted.value) {
        return Threw(EMPTY_CIPHERTEXT);
      }
      return encrypted;
    }

    method Decrypt(content: JsValue, lib: Library) returns (r: Outcome<JsValue>)
      modifies this
      ensures Effect(Snapshot(), r) == DecryptStep(old(Snapshot()), content, lib)
    {
      if !Truthy(privateKey) {
        return Threw(NO_PRIVATE_KEY);
      }
      if crypt.None? {
        return Threw(NULL_SET_KEY_MESSAGE);
      }
      var key := privateKey;
      crypt := Some(crypt.value.(key := SetKey(key)));
      var decrypted := lib.decrypt(key, content);
      if decrypted.Threw? {
        return decrypted;
      }
      if !Truthy(decrypted.value) {
        return Threw(EMPTY_PLAINTEXT);
      }
      return decrypted;
    }

    /** The `message` listener: the posted array is returned. */
    method Handle(data: JsValue, lib: Library) returns (posted: Posted)
      requires Valid()
      modifies this
      ensures Valid()
      ensures Transition(Snapshot(), posted) == Step(old(Snapshot()), data, lib)
    {
      if !data.Arr? || |data.elems| < 2 {
        return ErrorPair(INVALID_FORMAT);
      }
      var messageType, messageId, text, key :=
        At(data.elems, 0), At(data.elems, 1), At(data.elems, 2), At(data.elems, 3);
      var result: Outcome<JsValue>;
      ghost var s := Snapshot();
      if messageType == Str("generate-keys") {
        result := GenerateKeypair(lib);
      } else if messageType == Str("encrypt") {
        if !Truthy(text) || !Truthy(key) {
          result := Threw(ENCRYPT_NEEDS_PARAMS);
        } else {
          result := Encrypt(text, key, lib);
        }
      } else if messageType == Str("decrypt") {
        if !Truthy(text) {
          result := Threw(DECRYPT_NEEDS_TEXT);
        } else {
          result := Decrypt(text, lib);
        }
      } else {
        result := Threw(UNKNOWN_TYPE + Display(messageType));
      }
      posted := Posted(messageId, ResultBody(result));
      StepPreservesConsistent(s, data, lib);
    }
  }

  // ---------------------------------------------------------------------
  // Properties of the handler
  // ---------------------------------------------------------------------

  /** A message of the wrong shape gets `['error', 'Invalid message format']`
      and changes neither variable. */
  lemma MalformedMessageRejected(s: State, data: JsValue, lib: Library)
    requires !data.Arr? || |data.elems| < 2
    ensures Step(s, data, lib) == Transition(s, Posted(Str("error"), Value(Str("Invalid message format"))))
  {
  }

  /** Every well-formed message gets one reply headed by its own
      `messageId`: `{error: message}` with the thrown message when the
      operation threw, the returned value itself otherwise. */
  lemma ReplyEchoesMessageId(s: State, data: JsValue, lib: Library)
    requires WellFormed(data)
    ensures var t := Step(s, data, lib);
      var e := Dispatch(s, data.elems[0], At(data.elems, 2), At(data.elems, 3), lib);
      t.reply.head == data.elems[1] &&
      (t.reply.body.ErrorRecord? <==> e.outcome.Threw?) &&
      (e.outcome.Threw? ==> t.reply.body == ErrorRecord(e.outcome.message)) &&
      (e.outcome.Returned? ==> t.reply.body == Value(e.outcome.value))
  {
  }

  /** Missing parameters and unknown types are answered with an error
      record, without a library call and without a state change. */
  lemma RequestErrorsLeaveStateUnchanged(s: State, data: JsValue, lib1: Library, lib2: Library)
    requires WellFormed(data)
    requires var messageType, text, key := data.elems[0], At(data.elems, 2), At(data.elems, 3);
      (messageType == Str("encrypt") && (!Truthy(text) || !Truthy(key))) ||
      (messageType == Str("decrypt") && !Truthy(text)) ||
      messageType !in {Str("generate-keys"), Str("encrypt"), Str("decrypt")}
    ensures Step(s, data, lib1) == Step(s, data, lib2)
    ensures Step(s, data, lib1).next == s
    ensures Step(s, data, lib1).reply.body ==
      ErrorRecord(if data.elems[0] == Str("encrypt") then "Encryption requires both text and a public key."
                  else if data.elems[0] == Str("decrypt") then "Decryption requires text."
                  else "Unknown message type: " + Display(data.elems[0]))
  {
  }

  /** `decrypt` while `privateKey` is falsy (on a fresh worker, for one) is
      answered with the "generate keys first" error, without a library call
      and without a state change. */
  lemma DecryptWithoutPrivateKey(s: State, data: JsValue, lib1: Library, lib2: Library)
    requires WellFormed(data) && data.elems[0] == Str("decrypt") && Truthy(At(data.elems, 2))
    requires !Truthy(s.privateKey)
    ensures Step(s, data, lib1) == Step(s, data, lib2)
    ensures Step(s, data, lib1) ==
      Transition(s, Posted(data.elems[1], ErrorRecord("Private key not generated. Please generate keys first.")))
  {
  }

  /** `generate-keys` always succeeds: it stores the new instance and its
      private key and replies with the public key, even an empty one. */
  lemma KeygenStoresPrivateReturnsPublic(s: State, data: JsValue, lib: Library)
    requires WellFormed(data) && data.elems[0] == Str("generate-keys")
    ensures var pair := lib.generate(KEY_SIZE);
      Step(s, data, lib) ==
        Transition(State(Some(Instance(KEY_SIZE, Generated(pair))), pair.privateKey),
                   Posted(data.elems[1], Value(pair.publicKey)))
  {
  }

  /** The reply to `generate-keys` does not depend on the generated private
      key at all. */
  lemma KeygenDisclosesOnlyPublicKey(s: State, data: JsValue, lib1: Library, lib2: Library)
    requires WellFormed(data) && data.elems[0] == Str("generate-keys")
    requires lib1.generate(KEY_SIZE).publicKey == lib2.generate(KEY_SIZE).publicKey
    ensures Step(s, data, lib1).reply == Step(s, data, lib2).reply
  {
  }

  /** `encrypt` before any `generate-keys` meets `crypt === null`: the
      `TypeError` is delivered as an error record and nothing changes. */
  lemma EncryptBeforeKeygenFails(s: State, data: JsValue, lib: Library)
    requires WellFormed(data) && data.elems[0] == Str("encrypt")
    requires Truthy(At(data.elems, 2)) && Truthy(At(data.elems, 3))
    requires s.crypt.None?
    ensures Step(s, data, lib) ==
      Transition(s, Posted(data.elems[1], ErrorRecord("Cannot read properties of null (reading 'setKey')")))
  {
  }

  /** With an instance present, `encrypt` loads the caller's key as given and
      hands the content to the library exactly as received (no trim, no
      length bound); an empty ciphertext is reported as an error and a
      library error passes through unchanged. */
  lemma EncryptPassesContentUnchanged(s: State, data: JsValue, lib: Library)
    requires WellFormed(data) && data.elems[0] == Str("encrypt")
    requires Truthy(At(data.elems, 2)) && Truthy(At(data.elems, 3))
    requires s.crypt.Some?
    ensures var text, key := At(data.elems, 2), At(data.elems, 3);
      var t := Step(s, data, lib);
      var encrypted := lib.encrypt(key, text);
      t.next == s.(crypt := Some(s.crypt.value.(key := SetKey(key)))) &&
      t.reply.head == data.elems[1] &&
      t.reply.body == (if encrypted.Threw? then ErrorRecord(encrypted.message)
                       else if !Truthy(encrypted.value) then ErrorRecord("Encryption failed.")
                       else Value(encrypted.value))
  {
  }

  /** With a stored private key and an instance, `decrypt` loads the
      private key and hands the content to the library exactly as received
      (no type check, no trim); an empty plaintext is reported as an error
      and a library error passes through unchanged. */
  lemma DecryptPassesContentUnchanged(s: State, data: JsValue, lib: Library)
    requires WellFormed(data) && data.elems[0] == Str("decrypt") && Truthy(At(data.elems, 2))
    requires Truthy(s.privateKey) && s.crypt.Some?
    ensures var text := At(data.elems, 2);
      var t := Step(s, data, lib);
      var decrypted := lib.decrypt(s.privateKey, text);
      t.next == s.(crypt := Some(s.crypt.value.(key := SetKey(s.privateKey)))) &&
      t.reply.head == data.elems[1] &&
      t.reply.body == (if decrypted.Threw? then ErrorRecord(decrypted.message)
                       else if !Truthy(decrypted.value) then ErrorRecord("Decryption failed.")
                       else Value(decrypted.value))
  {
  }

  /** No reply to `encrypt` or `decrypt` carries an empty result. */
  lemma CipherResultsNeverEmpty(s: State, data: JsValue, lib: Library)
    requires WellFormed(data) && data.elems[0] in {Str("encrypt"), Str("decrypt")}
    requires Step(s, data, lib).reply.body.Value?
    ensures Truthy(Step(s, data, lib).reply.body.v)
  {
  }

  /** The stored private key is read only by `decrypt`: for any other
      message, two workers that differ only in their secrets (the
      `privateKey` variable and whatever key `crypt` holds) send the same
      reply and end with instances that again differ at most in their
      keys. */
  lemma PrivateKeyConfinedToDecrypt(s1: State, s2: State, data: JsValue, lib: Library)
    requires EraseKey(s1.crypt) == EraseKey(s2.crypt)
    requires !(data.Arr? && At(data.elems, 0) == Str("decrypt"))
    ensures Step(s1, data, lib).reply == Step(s2, data, lib).reply
    ensures EraseKey(Step(s1, data, lib).next.crypt) == EraseKey(Step(s2, data, lib).next.crypt)
  {
  }

  /** Every message keeps the variables consistent, so `decrypt` with a
      stored key never meets `crypt === null`. */
  lemma StepPreservesConsistent(s: State, data: JsValue, lib: Library)
    requires Consistent(s)
    ensures Consistent(Step(s, data, lib).next)
  {
  }
}
