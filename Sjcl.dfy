/** The Stanford JavaScript Crypto Library (SJCL) as the ElGamal and AES
    workers use it. The library itself (elliptic-curve ElGamal, AES with
    password-based key derivation, the base64 codec) is not part of this
    model: its behaviour for one message, randomness included, is a parameter
    of that message. */
module Sjcl {
  import opened Js

  /** An SJCL bit array (a sequence of 32-bit words). */
  type Bits = seq<int>

  /** The coordinates `{x, y}` that `keypair.pub.get()` returns. */
  datatype Point = Point(x: Bits, y: Bits)

  /** An `sjcl.ecc.elGamal.secretKey`. */
  datatype SecretKey = SecretKey(exponent: Bits)

  /** An `sjcl.ecc.elGamal.publicKey` object built on a named curve. */
  datatype PublicKey = PublicKey(curve: string, point: Point)

  /** The `{pub, sec}` object `sjcl.ecc.elGamal.generateKeys` returns; `sec`
      is `None` where the object has no (truthy) `sec` member. */
  datatype KeyPair = KeyPair(pub: Point, sec: Option<SecretKey>)

  /** The library's answers for one message of the ElGamal worker.
      - `generateKeys(bits)`: `sjcl.ecc.elGamal.generateKeys(bits)`, which
        throws while the random generator is not seeded;
      - `fromBits` / `toBits`: `sjcl.codec.base64`; `toBits` throws on a
        value it cannot decode;
      - `publicKey(curve, bits)`: `new sjcl.ecc.elGamal.publicKey(curve,
        bits)`, which throws when the bits are not a point of the curve;
      - `encrypt(key, text)` / `decrypt(sec, text)`: `sjcl.encrypt` and
        `sjcl.decrypt` with an ElGamal key. */
  datatype EccLibrary = EccLibrary(
    generateKeys: nat -> Outcome<KeyPair>,
    fromBits: Bits -> string,
    toBits: JsValue -> Outcome<Bits>,
    publicKey: (string, Bits) -> Outcome<PublicKey>,
    encrypt: (PublicKey, JsValue) -> Outcome<JsValue>,
    decrypt: (SecretKey, JsValue) -> Outcome<JsValue>)

  /** The options object `{ks: n}` passed to `sjcl.encrypt`/`sjcl.decrypt`. */
  datatype AesOptions = AesOptions(ks: nat)

  /** The library's answers for one message of the AES worker:
      `sjcl.encrypt(secret, text, options)` and
      `sjcl.decrypt(secret, text, options)`. */
  datatype AesLibrary = AesLibrary(
    encrypt: (JsValue, JsValue, AesOptions) -> Outcome<JsValue>,
    decrypt: (JsValue, JsValue, AesOptions) -> Outcome<JsValue>)
}
