/** The JSEncrypt library as the two RSA workers use it. The library itself
    (key generation, RSA encryption and decryption) is not part of this model:
    its behaviour for one message, randomness included, is a parameter of
    that message. */
module JsEncrypt {
  import opened Js

  /** What `getPublicKey()` and `getPrivateKey()` of a fresh instance return:
      the halves of the key pair it generates on first use. */
  datatype KeyPair = KeyPair(publicKey: JsValue, privateKey: JsValue)

  /** The key a `JSEncrypt` instance works with: the pair it generated, or
      the key last given to `setKey`. */
  datatype LoadedKey = Generated(pair: KeyPair) | SetKey(key: JsValue)

  /** A `JSEncrypt` instance: its `default_key_size` option and its key. */
  datatype Instance = Instance(defaultKeySize: nat, key: LoadedKey)

  /** The library's answers for one message.
      - `generate(size)`: the key pair a new instance of that key size yields;
      - `encrypt(key, text)`: `crypt.encrypt(text)` right after
        `crypt.setKey(key)`: a ciphertext, `false`, or a thrown error;
      - `decrypt(key, text)`: `crypt.decrypt(text)` right after
        `crypt.setKey(key)`. */
  datatype Library = Library(
    generate: nat -> KeyPair,
    encrypt: (JsValue, JsValue) -> Outcome<JsValue>,
    decrypt: (JsValue, JsValue) -> Outcome<JsValue>)

  /** The message of the `TypeError` thrown by `crypt.setKey(...)` while
      `crypt` is still `null` (V8's wording). */
  const NULL_SET_KEY_MESSAGE := "Cannot read properties of null (reading 'setKey')"

  /** `crypt.setKey(key)` on a module variable `crypt` that may be `null`:
      the instance now holding `key`, or the `TypeError`. */
  function SetKeyOn(crypt: Option<Instance>, key: JsValue): Outcome<Instance>
  {
    match crypt
    case None => Threw(NULL_SET_KEY_MESSAGE)
    case Some(instance) => Returned(instance.(key := SetKey(key)))
  }

  /** The module variables `crypt` (a JSEncrypt instance) and `privateKey`
      that both RSA workers keep. */
  datatype State = State(crypt: Option<Instance>, privateKey: JsValue)

  /** `crypt` with whatever key the instance holds blanked out: a generated
      pair, or the key last given to `setKey`, which after a `decrypt` is the
      stored private key. Two instances with equal erasures differ at most in
      their keys. */
  function EraseKey(crypt: Option<Instance>): Option<Instance>
  {
    match crypt
    case None => None
    case Some(instance) => Some(instance.(key := SetKey(Null)))
  }

  /** The state of a freshly started worker: both variables `null`. */
  const Initial := State(None, Null)

  /** Both variables are assigned together by key generation, so a stored
      private key always comes with an instance. */
  predicate Consistent(s: State)
  {
    s.privateKey != Null ==> s.crypt.Some?
  }

  /** The state after an operation and what it returned or threw. */
  datatype Effect = Effect(state: State, outcome: Outcome<JsValue>)

  /** The state after a message and the array posted for it. */
  datatype Transition = Transition(next: State, reply: Posted)
}
