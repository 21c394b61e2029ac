/** The hardened RSA worker: a message handler over two module variables,
    `crypt` (a JSEncrypt instance, `null` until the first `generate-keys`) and
    `privateKey` (`null` until then). Each message `[messageType, messageId,
    text?, key?]` is answered with exactly one `[messageId, result]` or
    `[messageId, {error}]`; a message that is not an array of at least two
    elements is answered with `['error', 'Invalid message format']`.

    `Step` and the functions it calls are the specification; the class
    `Worker` runs the same handler statement by statement over its two
    fields and is proved equal to it. */
module RsaCryptoWorker {
  import opened Js
  import opened JsEncrypt

  /** Largest accepted plaintext, in UTF-16 code units, after trimming. */
  const MAX_MESSAGE_LENGTH: nat := 10000
  /** The `default_key_size` of the instances this worker creates. */
  const KEY_SIZE: nat := 4096

  const INVALID_FORMAT := "Invalid message format"
  const ENCRYPT_NEEDS_PARAMS := "Encryption requires both text and a public key."
  const DECRYPT_NEEDS_TEXT := "Decryption requires text."
  const UNKNOWN_TYPE := "Unknown message type: "
  const KEYGEN_FAILED := "Failed to generate cryptographically secure keypair"
  const INVALID_ENCRYPT_TYPES := "Invalid input types for encryption"
  const TOO_LARGE := "Message too large for encryption"
  const EMPTY_INPUT := "Empty content or public key"
  const ENCRYPT_FAILED := "Encryption process failed: "
  const EMPTY_CIPHERTEXT := "Encryption failed"
  const INVALID_DECRYPT_TYPE := "Invalid input type for decryption"
  const NO_PRIVATE_KEY := "Private key not generated. Please generate keys first."
  const DECRYPT_FAILED := "Decryption process failed: "
  const EMPTY_PLAINTEXT := "Decryption failed"

  /** `secureKeyStorage`: the identity. */
  function SecureKeyStorage(key: JsValue): JsValue
  {
    key
  }

  /** `generateKeypair`: both variables are assigned before the emptiness
      check, so a failed generation still replaces them. */
  function KeygenStep(s: State, lib: Library): (e: Effect)
    ensures e.outcome.Returned? ==> Truthy(e.outcome.value)
  {
    var pair := lib.generate(KEY_SIZE);
    var s' := State(Some(Instance(KEY_SIZE, Generated(pair))), pair.privateKey);
    if !Truthy(pair.publicKey) || !Truthy(pair.privateKey) then
      Effect(s', Threw(KEYGEN_FAILED))
    else
      Effect(s'.(privateKey := SecureKeyStorage(pair.privateKey)), Returned(pair.publicKey))
  }

  /** The checks `encrypt` makes before it reaches the cipher, in the order
      it makes them: both inputs are strings, the trimmed content is within
      the length bound, neither trimmed input is empty. On success, the
      trimmed content and key. */
  function SanitizeEncryptInput(content: JsValue, publicKey: JsValue): (r: Outcome<(string, string)>)
    ensures r.Returned? <==>
      content.Str? && publicKey.Str? &&
      0 < |Trim(content.s)| && Utf16Length(Trim(content.s)) <= MAX_MESSAGE_LENGTH &&
      0 < |Trim(publicKey.s)|
    ensures r.Returned? ==> r.value == (Trim(content.s), Trim(publicKey.s))
    ensures !content.Str? || !publicKey.Str? ==> r == Threw(INVALID_ENCRYPT_TYPES)
    ensures content.Str? && publicKey.Str? && Utf16Length(Trim(content.s)) > MAX_MESSAGE_LENGTH ==>
      r == Threw(TOO_LARGE)
    ensures (content.Str? && publicKey.Str? && Utf16Length(Trim(content.s)) <= MAX_MESSAGE_LENGTH &&
             (Trim(content.s) == [] || Trim(publicKey.s) == [])) ==> r == Threw(EMPTY_INPUT)
  {
    if !content.Str? || !publicKey.Str? then Threw(INVALID_ENCRYPT_TYPES)
    else
      var c := Trim(content.s);
      if Utf16Length(c) > MAX_MESSAGE_LENGTH then Threw(TOO_LARGE)
      else
        var k := Trim(publicKey.s);
        if c == [] || k == [] then Threw(EMPTY_INPUT)
        else Returned((c, k))
  }

  /** `encrypt(content, publicKey)`: validation, then `crypt.setKey` and
      `crypt.encrypt` inside a block that prefixes every error. */
  function EncryptStep(s: State, content: JsValue, publicKey: JsValue, lib: Library): (e: Effect)
    ensures e.state.privateKey == s.privateKey
    ensures e.state.crypt.Some? <==> s.crypt.Some?
    ensures e.outcome.Returned? ==> Truthy(e.outcome.value)
  {
    var checked := SanitizeEncryptInput(content, publicKey);
    if checked.Threw? then Effect(s, Threw(checked.message))
    else
      var (c, k) := checked.value;
      var loaded := SetKeyOn(s.crypt, Str(k));
      if loaded.Threw? then Effect(s, Threw(ENCRYPT_FAILED + loaded.message))
      else
        var s' := s.(crypt := Some(loaded.value));
        var encrypted := lib.encrypt(Str(k), Str(c));
        if encrypted.Threw? then Effect(s', Threw(ENCRYPT_FAILED + encrypted.message))
        else if !Truthy(encrypted.value) then Effect(s', Threw(ENCRYPT_FAILED + EMPTY_CIPHERTEXT))
        else Effect(s', encrypted)
  }

  /** `decrypt(content)`: type check, the private-key check, then
      `crypt.setKey(privateKey)` and `crypt.decrypt` inside a block that
      prefixes every error. `decrypt` trims before the private-key check,
      as `Worker.Decrypt` does; here the check comes first, which gives the
      same outcome because trimming cannot fail or change state. */
  function DecryptStep(s: State, content: JsValue, lib: Library): (e: Effect)
    ensures e.state.privateKey == s.privateKey
    ensures e.state.crypt.Some? <==> s.crypt.Some?
    ensures e.outcome.Returned? ==> Truthy(e.outcome.value)
  {
    if !content.Str? then Effect(s, Threw(INVALID_DECRYPT_TYPE))
    else if !Truthy(s.privateKey) then Effect(s, Threw(NO_PRIVATE_KEY))
      else
        var c := Trim(content.s);
        var loaded := SetKeyOn(s.crypt, s.privateKey);
        if loaded.Threw? then Effect(s, Threw(DECRYPT_FAILED + loaded.message))
        else
          var s' := s.(crypt := Some(loaded.value));
          var decrypted := lib.decrypt(s.privateKey, Str(c));
          if decrypted.Threw? then Effect(s', Threw(DECRYPT_FAILED + decrypted.message))
          else if !Truthy(decrypted.value) then Effect(s', Threw(DECRYPT_FAILED + EMPTY_PLAINTEXT))
          else Effect(s', decrypted)
  }

  /** The `switch` on `messageType` with its parameter checks. */
  function Dispatch(s: State, messageType: JsValue, text: JsValue, key: JsValue, lib: Library): (e: Effect)
    ensures messageType != Str("generate-keys") ==>
      e.state.privateKey == s.privateKey && (e.state.crypt.Some? <==> s.crypt.Some?)
    ensures e.outcome.Returned? ==> Truthy(e.outcome.value)
  {
    if messageType == Str("generate-keys") then KeygenStep(s, lib)
    else if messageType == Str("encrypt") then
      if !Truthy(text) || !Truthy(key) then Effect(s, Threw(ENCRYPT_NEEDS_PARAMS))
      else EncryptStep(s, text, key, lib)
    else if messageType == Str("decrypt") then
      if !Truthy(text) then Effect(s, Threw(DECRYPT_NEEDS_TEXT))
      else DecryptStep(s, text, lib)
    else Effect(s, Threw(UNKNOWN_TYPE + Display(messageType)))
  }

  predicate WellFormed(data: JsValue)
  {
    data.Arr? && |data.elems| >= 2
  }

  /** The whole handler: the shape check, then the dispatch, then the reply
      `[messageId, result]` or `[messageId, {error}]`. */
  function Step(s: State, data: JsValue, lib: Library): (t: Transition)
    ensures WellFormed(data) ==> t.reply.head == data.elems[1]
    ensures t.next != s ==>
      WellFormed(data) && data.elems[0] in {Str("generate-keys"), Str("encrypt"), Str("decrypt")}
  {
    if !WellFormed(data) then Transition(s, ErrorPair(INVALID_FORMAT))
    else
      var e := Dispatch(s, At(data.elems, 0), At(data.elems, 2), At(data.elems, 3), lib);
      Transition(e.state, Posted(At(data.elems, 1), ResultBody(e.outcome)))
  }

  /** The worker's module variables and its handler. */
  class Worker {
    var crypt: Option<Instance>
    var privateKey: JsValue

    function Snapshot(): State
      reads this
    {
      State(crypt, privateKey)
    }

    ghost predicate Valid()
      reads this
    {
      Consistent(Snapshot())
    }

    constructor ()
      ensures Snapshot() == Initial && Valid()
    {
      crypt := None;
      privateKey := Null;
    }

    method GenerateKeypair(lib: Library) returns (r: Outcome<JsValue>)
      modifies this
      ensures Effect(Snapshot(), r) == KeygenStep(old(Snapshot()), lib)
    {
      crypt := Some(Instance(KEY_SIZE, Generated(lib.generate(KEY_SIZE))));
      var publicKey := crypt.value.key.pair.publicKey;
      privateKey := crypt.value.key.pair.privateKey;
      if !Truthy(publicKey) || !Truthy(privateKey) {
        return Threw(KEYGEN_FAILED);
      }
      privateKey := SecureKeyStorage(privateKey);
      return Returned(publicKey);
    }

    method Encrypt(content: JsValue, publicKey: JsValue, lib: Library) returns (r: Outcome<JsValue>)
      modifies this
      ensures Effect(Snapshot(), r) == EncryptStep(old(Snapshot()), content, publicKey, lib)
    {
      if !content.Str? || !publicKey.Str? {
        return Threw(INVALID_ENCRYPT_TYPES);
      }
      var text := Trim(content.s);
      if Utf16Length(text) > MAX_MESSAGE_LENGTH {
        return Threw(TOO_LARGE);
      }
      var key := Trim(publicKey.s);
      if text == [] || key == [] {
        return Threw(EMPTY_INPUT);
      }
      if crypt.None? {
        return Threw(ENCRYPT_FAILED + NULL_SET_KEY_MESSAGE);
      }
      crypt := Some(crypt.value.(key := SetKey(Str(key))));
      var encrypted := lib.encrypt(Str(key), Str(text));
      if encrypted.Threw? {
        return Threw(ENCRYPT_FAILED + encrypted.message);
      }
      if !Truthy(encrypted.value) {
        return Threw(ENCRYPT_FAILED + EMPTY_CIPHERTEXT);
      }
      return encrypted;
    }

    method Decrypt(content: JsValue, lib: Library) returns (r: Outcome<JsValue>)
      modifies this
      ensures Effect(Snapshot(), r) == DecryptStep(old(Snapshot()), content, lib)
    {
      if !content.Str? {
        return Threw(INVALID_DECRYPT_TYPE);
      }
      var text := Trim(content.s);
      if !Truthy(privateKey) {
        return Threw(NO_PRIVATE_KEY);
      }
      if crypt.None? {
        return Threw(DECRYPT_FAILED + NULL_SET_KEY_MESSAGE);
      }
      var key := privateKey;
      crypt := Some(crypt.value.(key := SetKey(key)));
      var decrypted := lib.decrypt(key, Str(text));
      if decrypted.Threw? {
        return Threw(DECRYPT_FAILED + decrypted.message);
      }
      if !Truthy(decrypted.value) {
        return Threw(DECRYPT_FAILED + EMPTY_PLAINTEXT);
      }
      return decrypted;
    }

    /** The `message` listener: the posted array is returned. */
    method Handle(data: JsValue, lib: Library) returns (posted: Posted)
      requires Valid()
      modifies this
      ensures Valid()
      ensures Transition(Snapshot(), posted) == Step(old(Snapshot()), data, lib)
    {
      if !data.Arr? || |data.elems| < 2 {
        return ErrorPair(INVALID_FORMAT);
      }
      var messageType, messageId, text, key :=
        At(data.elems, 0), At(data.elems, 1), At(data.elems, 2), At(data.elems, 3);
      var result: Outcome<JsValue>;
      ghost var s := Snapshot();
      if messageType == Str("generate-keys") {
        result := GenerateKeypair(lib);
      } else if messageType == Str("encrypt") {
        if !Truthy(text) || !Truthy(key) {
          result := Threw(ENCRYPT_NEEDS_PARAMS);
        } else {
          result := Encrypt(text, key, lib);
        }
      } else if messageType == Str("decrypt") {
        if !Truthy(text) {
          result := Threw(DECRYPT_NEEDS_TEXT);
        } else {
          result := Decrypt(text, lib);
        }
      } else {
        result := Threw(UNKNOWN_TYPE + Display(messageType));
      }
      posted := Posted(messageId, ResultBody(result));
      StepPreservesConsistent(s, data, lib);
    }
  }

  // ---------------------------------------------------------------------
  // Properties of the handler
  // ---------------------------------------------------------------------

  /** A message of the wrong shape gets `['error', 'Invalid message format']`
      and changes neither variable. */
  lemma MalformedMessageRejected(s: State, data: JsValue, lib: Library)
    requires !data.Arr? || |data.elems| < 2
    ensures Step(s, data, lib) == Transition(s, Posted(Str("error"), Value(Str("Invalid message format"))))
  {
  }

  /** Every well-formed message gets one reply headed by its own
      `messageId`: `{error: message}` with the thrown message when the
      operation threw, the returned value itself otherwise. */
  lemma ReplyEchoesMessageId(s: State, data: JsValue, lib: Library)
    requires WellFormed(data)
    ensures var t := Step(s, data, lib);
      var e := Dispatch(s, data.elems[0], At(data.elems, 2), At(data.elems, 3), lib);
      t.reply.head == data.elems[1] &&
      (t.reply.body.ErrorRecord? <==> e.outcome.Threw?) &&
      (e.outcome.Threw? ==> t.reply.body == ErrorRecord(e.outcome.message)) &&
      (e.outcome.Returned? ==> t.reply.body == Value(e.outcome.value))
  {
  }

  /** An unknown `messageType` is answered with an error naming it and
      changes no state, whatever the library would do. */
  lemma UnknownTypeRejected(s: State, data: JsValue, lib: Library)
    requires WellFormed(data)
    requires data.elems[0] !in {Str("generate-keys"), Str("encrypt"), Str("decrypt")}
    ensures Step(s, data, lib) ==
      Transition(s, Posted(data.elems[1], ErrorRecord("Unknown message type: " + Display(data.elems[0]))))
  {
  }

  /** `encrypt` without a truthy `text` and `key`, and `decrypt` without a
      truthy `text`, are rejected before any library call: the reply is the
      same for every library and the state is unchanged. */
  lemma MissingParametersRejected(s: State, data: JsValue, lib1: Library, lib2: Library)
    requires WellFormed(data)
    requires (data.elems[0] == Str("encrypt") && (!Truthy(At(data.elems, 2)) || !Truthy(At(data.elems, 3))))
          || (data.elems[0] == Str("decrypt") && !Truthy(At(data.elems, 2)))
    ensures Step(s, data, lib1) == Step(s, data, lib2)
    ensures Step(s, data, lib1).next == s
    ensures Step(s, data, lib1).reply.body ==
      ErrorRecord(if data.elems[0] == Str("encrypt") then "Encryption requires both text and a public key."
                  else "Decryption requires text.")
  {
  }

  /** Whatever `encrypt`'s input checks reject is rejected before the
      library is reached, with the state unchanged and the message of the
      first check that fails: non-string inputs, then trimmed content over
      the bound, then empty trimmed content or key. */
  lemma EncryptInputRejectedBeforeCipher(s: State, data: JsValue, lib1: Library, lib2: Library)
    requires WellFormed(data) && data.elems[0] == Str("encrypt")
    requires Truthy(At(data.elems, 2)) && Truthy(At(data.elems, 3))
    requires SanitizeEncryptInput(At(data.elems, 2), At(data.elems, 3)).Threw?
    ensures Step(s, data, lib1) == Step(s, data, lib2)
    ensures var text, key := At(data.elems, 2), At(data.elems, 3);
      Step(s, data, lib1) == Transition(s, Posted(data.elems[1], ErrorRecord(
        if !text.Str? || !key.Str? then "Invalid input types for encryption"
        else if Utf16Length(Trim(text.s)) > MAX_MESSAGE_LENGTH then "Message too large for encryption"
        else "Empty content or public key")))
  {
  }

  /** `decrypt` of a truthy value that is not a string is refused before
      anything else, without a library call and without a state change. */
  lemma DecryptRejectsNonString(s: State, data: JsValue, lib1: Library, lib2: Library)
    requires WellFormed(data) && data.elems[0] == Str("decrypt")
    requires Truthy(At(data.elems, 2)) && !At(data.elems, 2).Str?
    ensures Step(s, data, lib1) == Step(s, data, lib2)
    ensures Step(s, data, lib1) ==
      Transition(s, Posted(data.elems[1], ErrorRecord("Invalid input type for decryption")))
  {
  }

  /** Once its input passes the checks, every failure of `encrypt` is
      reported with the prefix "Encryption process failed: ": a `null`
      instance, a library error, or an empty ciphertext. The caller's key is
      loaded into an existing instance even when encryption then fails. */
  lemma EncryptFailuresPrefixed(s: State, data: JsValue, lib: Library)
    requires WellFormed(data) && data.elems[0] == Str("encrypt")
    requires Truthy(At(data.elems, 2)) && Truthy(At(data.elems, 3))
    requires SanitizeEncryptInput(At(data.elems, 2), At(data.elems, 3)).Returned?
    ensures var text, key := At(data.elems, 2).s, At(data.elems, 3).s;
      var t := Step(s, data, lib);
      var encrypted := lib.encrypt(Str(Trim(key)), Str(Trim(text)));
      (s.crypt.None? ==>
         t == Transition(s, Posted(data.elems[1], ErrorRecord("Encryption process failed: " + NULL_SET_KEY_MESSAGE)))) &&
      (s.crypt.Some? ==>
         t.next == s.(crypt := Some(s.crypt.value.(key := SetKey(Str(Trim(key)))))) &&
         (encrypted.Threw? ==> t.reply.body == ErrorRecord("Encryption process failed: " + encrypted.message)) &&
         (encrypted.Returned? && !Truthy(encrypted.value) ==>
            t.reply.body == ErrorRecord("Encryption process failed: " + "Encryption failed")))
  {
  }

  /** With a string text and a stored private key, every failure of
      `decrypt` is reported with the prefix "Decryption process failed: ":
      a `null` instance, a library error, or an empty plaintext. The private
      key is loaded into an existing instance even when decryption fails. */
  lemma DecryptFailuresPrefixed(s: State, data: JsValue, lib: Library)
    requires WellFormed(data) && data.elems[0] == Str("decrypt")
    requires At(data.elems, 2).Str? && Truthy(At(data.elems, 2)) && Truthy(s.privateKey)
    ensures var text := At(data.elems, 2).s;
      var t := Step(s, data, lib);
      var decrypted := lib.decrypt(s.privateKey, Str(Trim(text)));
      (s.crypt.None? ==>
         t == Transition(s, Posted(data.elems[1], ErrorRecord("Decryption process failed: " + NULL_SET_KEY_MESSAGE)))) &&
      (s.crypt.Some? ==>
         t.next == s.(crypt := Some(s.crypt.value.(key := SetKey(s.privateKey)))) &&
         (decrypted.Threw? ==> t.reply.body == ErrorRecord("Decryption process failed: " + decrypted.message)) &&
         (decrypted.Returned? && !Truthy(decrypted.value) ==>
            t.reply.body == ErrorRecord("Decryption process failed: " + "Decryption failed")))
  {
  }

  /** The length bound is inclusive: trimmed content of exactly
      `MAX_MESSAGE_LENGTH` code units passes the checks, one more does not. */
  lemma LengthBoundInclusive(content: string, publicKey: string)
    ensures Utf16Length(Trim(content)) == MAX_MESSAGE_LENGTH && 0 < |Trim(publicKey)| ==>
      SanitizeEncryptInput(Str(content), Str(publicKey)) == Returned((Trim(content), Trim(publicKey)))
    ensures Utf16Length(Trim(content)) == MAX_MESSAGE_LENGTH + 1 ==>
      SanitizeEncryptInput(Str(content), Str(publicKey)) == Threw("Message too large for encryption")
  {
  }

  /** Content made only of whitespace (with a string key) is refused as
      empty: it survives the truthiness and length checks but not the trim. */
  lemma WhitespaceContentRejected(content: string, publicKey: string)
    requires 0 < |content| && AllWhitespace(content)
    ensures SanitizeEncryptInput(Str(content), Str(publicKey)) == Threw("Empty content or public key")
  {
    TrimEmptyIffAllWhitespace(content);
  }

  /** `decrypt` of a string while `privateKey` is falsy (on a fresh worker,
      for one) is answered with the "generate keys first" error, without a
      library call and without a state change. */
  lemma DecryptWithoutPrivateKey(s: State, data: JsValue, lib1: Library, lib2: Library)
    requires WellFormed(data) && data.elems[0] == Str("decrypt")
    requires At(data.elems, 2).Str? && Truthy(At(data.elems, 2))
    requires !Truthy(s.privateKey)
    ensures Step(s, data, lib1) == Step(s, data, lib2)
    ensures Step(s, data, lib1) ==
      Transition(s, Posted(data.elems[1], ErrorRecord("Private key not generated. Please generate keys first.")))
  {
  }

  /** `generate-keys` replaces both variables with the new instance and its
      private key whether or not generation succeeded, and replies with the
      public key only when both halves are non-empty. */
  lemma KeygenReplacesStateEvenOnFailure(s: State, data: JsValue, lib: Library)
    requires WellFormed(data) && data.elems[0] == Str("generate-keys")
    ensures var pair := lib.generate(KEY_SIZE);
      var t := Step(s, data, lib);
      t.next == State(Some(Instance(KEY_SIZE, Generated(pair))), pair.privateKey) &&
      t.reply.head == data.elems[1] &&
      (if Truthy(pair.publicKey) && Truthy(pair.privateKey) then t.reply.body == Value(pair.publicKey)
       else t.reply.body == ErrorRecord("Failed to generate cryptographically secure keypair"))
  {
  }

  /** The reply to `generate-keys` depends on the generated private key only
      through its truthiness: two generations with the same public key give
      the same reply. */
  lemma KeygenDisclosesOnlyPublicKey(s: State, data: JsValue, lib1: Library, lib2: Library)
    requires WellFormed(data) && data.elems[0] == Str("generate-keys")
    requires lib1.generate(KEY_SIZE).publicKey == lib2.generate(KEY_SIZE).publicKey
    requires Truthy(lib1.generate(KEY_SIZE).privateKey) == Truthy(lib2.generate(KEY_SIZE).privateKey)
    ensures Step(s, data, lib1).reply == Step(s, data, lib2).reply
  {
  }

  /** The stored private key is confined to `decrypt`: for any other message,
      two workers that differ only in their secrets (the `privateKey`
      variable and whatever key `crypt` holds) send the same reply and end
      with instances that again differ at most in their keys. */
  lemma PrivateKeyConfinedToDecrypt(s1: State, s2: State, data: JsValue, lib: Library)
    requires EraseKey(s1.crypt) == EraseKey(s2.crypt)
    requires !(data.Arr? && At(data.elems, 0) == Str("decrypt"))
    ensures Step(s1, data, lib).reply == Step(s2, data, lib).reply
    ensures EraseKey(Step(s1, data, lib).next.crypt) == EraseKey(Step(s2, data, lib).next.crypt)
  {
    if WellFormed(data) {
      var messageType, text, key := data.elems[0], At(data.elems, 2), At(data.elems, 3);
      if messageType == Str("encrypt") && Truthy(text) && Truthy(key) {
        EncryptIgnoresPrivateKey(s1, s2, text, key, lib);
      }
    }
  }

  /** `encrypt` reads neither `privateKey` nor the key `crypt` holds (it
      loads the caller's key first): its outcome, and the instance it leaves
      up to its key, are the same whatever the secrets. */
  lemma EncryptIgnoresPrivateKey(s1: State, s2: State, content: JsValue, publicKey: JsValue, lib: Library)
    requires EraseKey(s1.crypt) == EraseKey(s2.crypt)
    ensures EncryptStep(s1, content, publicKey, lib).outcome == EncryptStep(s2, content, publicKey, lib).outcome
    ensures EraseKey(EncryptStep(s1, content, publicKey, lib).state.crypt) ==
      EraseKey(EncryptStep(s2, content, publicKey, lib).state.crypt)
  {
  }

  /** `encrypt` never touches `privateKey`; the only change it makes is
      loading the caller's trimmed key into the existing instance. */
  lemma EncryptKeepsPrivateKey(s: State, data: JsValue, lib: Library)
    requires WellFormed(data) && data.elems[0] == Str("encrypt")
    ensures var t := Step(s, data, lib);
      t.next.privateKey == s.privateKey &&
      (t.next.crypt == s.crypt ||
       (At(data.elems, 3).Str? && s.crypt.Some? &&
        t.next.crypt == Some(s.crypt.value.(key := SetKey(Str(Trim(At(data.elems, 3).s)))))))
  {
  }

  /** No reply carries an empty result: an empty key, ciphertext or
      plaintext from the library is reported as an error. */
  lemma ResultsNeverEmpty(s: State, data: JsValue, lib: Library)
    requires WellFormed(data)
    requires Step(s, data, lib).reply.body.Value?
    ensures Truthy(Step(s, data, lib).reply.body.v)
  {
  }

  /** Every message keeps the variables consistent. */
  lemma StepPreservesConsistent(s: State, data: JsValue, lib: Library)
    requires Consistent(s)
    ensures Consistent(Step(s, data, lib).next)
  {
  }

  /** On a consistent worker, `decrypt` of a string with a stored private
      key never meets a `null` instance: it loads that key into the instance
      and hands the trimmed text to the library. */
  lemma DecryptLoadsStoredKey(s: State, content: JsValue, lib: Library)
    requires Consistent(s)
    requires content.Str? && Truthy(s.privateKey)
    ensures s.crypt.Some?
    ensures DecryptStep(s, content, lib).state == s.(crypt := Some(s.crypt.value.(key := SetKey(s.privateKey))))
    ensures lib.decrypt(s.privateKey, Str(Trim(content.s))) == Returned(Str("")) ==>
      DecryptStep(s, content, lib).outcome == Threw("Decryption process failed: Decryption failed")
  {
    assert SetKeyOn(s.crypt, s.privateKey) == Returned(s.crypt.value.(key := SetKey(s.privateKey)));
    assert DECRYPT_FAILED + EMPTY_PLAINTEXT == "Decryption process failed: Decryption failed";
  }

  /** `encrypt` that passes every check on a worker holding an instance
      hands the TRIMMED content and key to the library, loads that key, and
      replies with the library's non-empty ciphertext. */
  lemma EncryptPassesTrimmedInputToCipher(s: State, id: JsValue, text: JsValue, key: JsValue, lib: Library)
    requires s.crypt.Some? && Truthy(text) && Truthy(key)
    requires SanitizeEncryptInput(text, key).Returned?
    requires var ct := lib.encrypt(Str(Trim(key.s)), Str(Trim(text.s))); ct.Returned? && Truthy(ct.value)
    ensures Step(s, Arr([Str("encrypt"), id, text, key]), lib) ==
      Transition(s.(crypt := Some(s.crypt.value.(key := SetKey(Str(Trim(key.s)))))),
                 Posted(id, Value(lib.encrypt(Str(Trim(key.s)), Str(Trim(text.s))).value)))
  {
    var data := Arr([Str("encrypt"), id, text, key]);
    assert At(data.elems, 2) == text && At(data.elems, 3) == key;
  }

  /** `decrypt` of a string on a worker holding a private key loads that key
      and replies with the library's non-empty decryption of the TRIMMED
      text. */
  lemma DecryptPassesTrimmedTextToCipher(s: State, id: JsValue, text: string, lib: Library)
    requires s.crypt.Some? && Truthy(s.privateKey) && 0 < |text|
    requires var pt := lib.decrypt(s.privateKey, Str(Trim(text))); pt.Returned? && Truthy(pt.value)
    ensures Step(s, Arr([Str("decrypt"), id, Str(text)]), lib) ==
      Transition(s.(crypt := Some(s.crypt.value.(key := SetKey(s.privateKey)))),
                 Posted(id, Value(lib.decrypt(s.privateKey, Str(Trim(text))).value)))
  {
    var data := Arr([Str("decrypt"), id, Str(text)]);
    assert At(data.elems, 2) == Str(text);
  }

  /** The protocol run `generate-keys`, `encrypt` (with the key just
      returned), `decrypt` (of the ciphertext just returned) on a fresh
      worker gives back the TRIMMED plaintext, provided the library
      decrypts what it encrypted under the generated pair. */
  lemma RoundTripYieldsTrimmedText(lib: Library, id1: JsValue, id2: JsValue, id3: JsValue, m: string)
    requires var pair := lib.generate(KEY_SIZE);
      pair.publicKey.Str? && 0 < |Trim(pair.publicKey.s)| && Truthy(pair.privateKey)
    requires 0 < |Trim(m)| && Utf16Length(Trim(m)) <= MAX_MESSAGE_LENGTH
    requires var pair := lib.generate(KEY_SIZE);
      var ct := lib.encrypt(Str(Trim(pair.publicKey.s)), Str(Trim(m)));
      ct.Returned? && ct.value.Str? && Truthy(ct.value) && Trim(ct.value.s) == ct.value.s &&
      lib.decrypt(pair.privateKey, ct.value) == Returned(Str(Trim(m)))
    ensures var pair := lib.generate(KEY_SIZE);
      var t1 := Step(Initial, Arr([Str("generate-keys"), id1]), lib);
      var t2 := Step(t1.next, Arr([Str("encrypt"), id2, Str(m), pair.publicKey]), lib);
      var ct := lib.encrypt(Str(Trim(pair.publicKey.s)), Str(Trim(m))).value;
      var t3 := Step(t2.next, Arr([Str("decrypt"), id3, ct]), lib);
      t1.reply == Posted(id1, Value(pair.publicKey)) &&
      t2.reply == Posted(id2, Value(ct)) &&
      t3.reply == Posted(id3, Value(Str(Trim(m))))
  {
    var pair := lib.generate(KEY_SIZE);
    var ct := lib.encrypt(Str(Trim(pair.publicKey.s)), Str(Trim(m))).value;
    var t1 := Step(Initial, Arr([Str("generate-keys"), id1]), lib);
    var s1 := State(Some(Instance(KEY_SIZE, Generated(pair))), pair.privateKey);
    assert t1 == Transition(s1, Posted(id1, Value(pair.publicKey)));
    var s2 := s1.(crypt := Some(Instance(KEY_SIZE, SetKey(Str(Trim(pair.publicKey.s))))));
    EncryptPassesTrimmedInputToCipher(s1, id2, Str(m), pair.publicKey, lib);
    var t2 := Step(s1, Arr([Str("encrypt"), id2, Str(m), pair.publicKey]), lib);
    assert t2 == Transition(s2, Posted(id2, Value(ct)));
    DecryptPassesTrimmedTextToCipher(s2, id3, ct.s, lib);
  }
}
