# Encrypted-Chat crypto workers in Dafny

Encrypted-Chat does its cryptography in web workers. Each worker is a
message handler. It takes one message at a time and checks its shape. It
dispatches on the message type (`generate-keys`, `encrypt`, `decrypt`) and
checks the parameters for that type using JavaScript truthiness. It reads or
writes its module-level key variables. It turns every thrown error into an
error reply, and it posts exactly one reply.

This project models the four handlers:

| worker | module | state | reply envelope |
|---|---|---|---|
| `crypto-workers/rsa-crypto-worker.js` (hardened RSA) | `RsaCryptoWorker` | `crypt`, `privateKey` | `[messageId, result]` / `[messageId, {error}]` |
| `public/crypto-worker.js` (plain RSA) | `PublicCryptoWorker` | `crypt`, `privateKey` | `[messageId, result]` / `[messageId, {error}]` |
| `crypto-workers/elGamal-crypto-worker.js` | `ElGamalCryptoWorker` | `keypair` | `[messageType, result]` / `['error', message]` |
| `crypto-workers/aes-crypto-worker.js` | `AesCryptoWorker` | none | `[messageType, result]` / `['error', message]` |

Shared modules:
- `Js` holds JavaScript values as the handlers see them:
  - truthiness;
  - template-literal conversion;
  - destructuring past the end of an array;
  - `String.prototype.trim` with the ECMAScript white-space and line-terminator set;
  - `length` in UTF-16 code units;
  - the posted arrays;
  - thrown errors as values (`Outcome`).
- `JsEncrypt` holds the JSEncrypt instance and `setKey` on a variable that may be `null`. It also holds the state type both RSA workers use, the variables `crypt` and `privateKey`.
- `Sjcl` holds the SJCL objects that the ElGamal and AES workers handle.

Each stateful worker comes in two forms:
- A pure specification, `Step(state, message, library)`. It returns the next state and the posted reply.
- A class `Worker` whose fields are the worker's module variables. Its methods follow the JavaScript statement by statement, and each method is proved equal to its specification function.

The AES worker has no state, so it is only functions.

The properties are lemmas over `Step` (or over `Handle` for AES). They cover:
- the errors each malformed input produces;
- when the key variables change;
- that no reply other than `decrypt`'s depends on the stored private key, whether it sits in `privateKey` or in whatever key the instance holds (a generated pair, or the key `decrypt` loaded with `setKey`);
- the length bound and the trimming rules;
- that each reply echoes the request's correlation tag.

The cryptographic libraries are parameters. A `Library` value gives the library's answers for one message, with its randomness already fixed. "The cipher is not called" is stated as independence from that parameter: any two libraries give the same transition.

## Model

| member | source | states |
|---|---|---|
| Js.FalsyValues | crypto-workers/rsa-crypto-worker.js:41 | `!v` holds exactly for `undefined`, `null`, `''` and falsy primitives; every array is truthy |
| Js.TrimStartRemovesLeadingWhitespace | crypto-workers/rsa-crypto-worker.js:101 | Trimming the start removes a prefix made only of white space, and the rest starts with a non-white-space character |
| Js.TrimEndRemovesTrailingWhitespace | crypto-workers/rsa-crypto-worker.js:101 | Trimming the end removes a suffix made only of white space, and the rest ends with a non-white-space character |
| Js.TrimKeepsCore | crypto-workers/rsa-crypto-worker.js:101 | `trim()` returns a contiguous slice of the input, with white space only on both sides of it and none at either end of it |
| Js.TrimEmptyIffAllWhitespace | crypto-workers/rsa-crypto-worker.js:101-112 | A trimmed string is empty exactly when the original was all white space |
| Js.TrimIdempotent | crypto-workers/rsa-crypto-worker.js:107 | Trimming twice is the same as trimming once |
| Js.Utf16Length | crypto-workers/rsa-crypto-worker.js:102 | `length` counts between one and two code units per character |
| Js.Utf16LengthOfBmp | crypto-workers/rsa-crypto-worker.js:102 | For text in the Basic Multilingual Plane, `length` is the number of characters |
| RsaCryptoWorker.KeygenStep | crypto-workers/rsa-crypto-worker.js:69-85 | Key generation returns only a non-empty value |
| RsaCryptoWorker.SanitizeEncryptInput | crypto-workers/rsa-crypto-worker.js:96-112 | Input passes exactly when both inputs are strings, the trimmed content is non-empty and at most 10000 code units, and the trimmed key is non-empty; on success the result is the trimmed pair. Non-strings get 'Invalid input types for encryption'; otherwise content over the bound gets 'Message too large for encryption', whatever the key; otherwise empty trimmed content or key gets 'Empty content or public key' |
| RsaCryptoWorker.EncryptStep | crypto-workers/rsa-crypto-worker.js:94-126 | `encrypt` keeps `privateKey`, keeps whether `crypt` exists, and never returns an empty ciphertext |
| RsaCryptoWorker.DecryptStep | crypto-workers/rsa-crypto-worker.js:134-160 | `decrypt` keeps `privateKey`, keeps whether `crypt` exists, and never returns an empty plaintext |
| RsaCryptoWorker.Dispatch | crypto-workers/rsa-crypto-worker.js:36-54 | Every type except `generate-keys` keeps `privateKey` and whether `crypt` exists; no returned result is empty |
| RsaCryptoWorker.Worker.constructor | crypto-workers/rsa-crypto-worker.js:9-10 | Both variables start as `null` |
| RsaCryptoWorker.Worker.GenerateKeypair | crypto-workers/rsa-crypto-worker.js:69-85 | The method assigns the variables and returns exactly what `KeygenStep` specifies |
| RsaCryptoWorker.Worker.Encrypt | crypto-workers/rsa-crypto-worker.js:94-126 | The method checks, trims, loads the key and encrypts exactly as `EncryptStep` specifies |
| RsaCryptoWorker.Worker.Decrypt | crypto-workers/rsa-crypto-worker.js:134-160 | The method checks, trims, loads the key and decrypts exactly as `DecryptStep` specifies |
| RsaCryptoWorker.Worker.Handle | crypto-workers/rsa-crypto-worker.js:22-61 | The handler posts the reply and leaves the variables exactly as `Step` specifies, and it keeps them consistent |
| RsaCryptoWorker.Step | crypto-workers/rsa-crypto-worker.js:22-61 | Every well-formed message's reply is headed by its `messageId`; only a well-formed `generate-keys`, `encrypt` or `decrypt` message can change the variables |
| RsaCryptoWorker.MalformedMessageRejected | crypto-workers/rsa-crypto-worker.js:26-29 | A non-array or a message with fewer than 2 elements gets `['error', 'Invalid message format']` with no state change |
| RsaCryptoWorker.ReplyEchoesMessageId | crypto-workers/rsa-crypto-worker.js:32-60 | Every well-formed message gets one reply headed by its `messageId`; its body is `{error: message}` with the thrown message exactly when the operation threw, and the returned value otherwise |
| RsaCryptoWorker.UnknownTypeRejected | crypto-workers/rsa-crypto-worker.js:52-56 | Any other type gets `{error: 'Unknown message type: …'}`, embedding the template-literal conversion of the type, with no state change |
| RsaCryptoWorker.MissingParametersRejected | crypto-workers/rsa-crypto-worker.js:41-49 | Falsy `text` or `key` for `encrypt`, and falsy `text` for `decrypt`, give the documented error, independent of the library, with no state change |
| RsaCryptoWorker.EncryptInputRejectedBeforeCipher | crypto-workers/rsa-crypto-worker.js:96-112 | Inputs that fail validation are rejected independent of the library, with no state change, with the message of the first failing check: 'Invalid input types for encryption', 'Message too large for encryption' or 'Empty content or public key' |
| RsaCryptoWorker.DecryptRejectsNonString | crypto-workers/rsa-crypto-worker.js:136-138 | `decrypt` of a truthy non-string gets 'Invalid input type for decryption', independent of the library, with no state change |
| RsaCryptoWorker.EncryptFailuresPrefixed | crypto-workers/rsa-crypto-worker.js:114-125 | Past validation, a `null` instance, a library error and an empty ciphertext all get the 'Encryption process failed: ' prefix; the caller's key is loaded into an existing instance even when encryption then fails |
| RsaCryptoWorker.DecryptFailuresPrefixed | crypto-workers/rsa-crypto-worker.js:148-159 | With a stored private key, a `null` instance, a library error and an empty plaintext all get the 'Decryption process failed: ' prefix; the private key is loaded into an existing instance even when decryption fails |
| RsaCryptoWorker.LengthBoundInclusive | crypto-workers/rsa-crypto-worker.js:13 | Trimmed content of exactly 10000 code units passes validation when the trimmed key is non-empty; 10001 gives "Message too large for encryption" whatever the key |
| RsaCryptoWorker.WhitespaceContentRejected | crypto-workers/rsa-crypto-worker.js:101-112 | Non-empty content made only of white space gets "Empty content or public key" |
| RsaCryptoWorker.DecryptWithoutPrivateKey | crypto-workers/rsa-crypto-worker.js:143-146 | `decrypt` with no private key gets the "generate keys first" error, independent of the library, with no state change |
| RsaCryptoWorker.KeygenReplacesStateEvenOnFailure | crypto-workers/rsa-crypto-worker.js:69-85 | `generate-keys` replaces both variables even when generation fails, and stores the generated private key as it is (`secureKeyStorage` is the identity); the reply is the public key only if both halves are non-empty |
| RsaCryptoWorker.KeygenDisclosesOnlyPublicKey | crypto-workers/rsa-crypto-worker.js:74-84 | The `generate-keys` reply depends on the private key only through its truthiness |
| RsaCryptoWorker.PrivateKeyConfinedToDecrypt | crypto-workers/rsa-crypto-worker.js:36-54 | For every message that is not `decrypt`, two states that differ only in their secrets (`privateKey` and whatever key `crypt` holds, including the private key that `decrypt` loaded) get the same reply and end with instances that again differ at most in their keys |
| RsaCryptoWorker.EncryptIgnoresPrivateKey | crypto-workers/rsa-crypto-worker.js:94-126 | `encrypt` gives the same outcome, and the same `crypt` up to its key, whatever the secrets stored in `privateKey` and whatever key `crypt` holds |
| RsaCryptoWorker.EncryptKeepsPrivateKey | crypto-workers/rsa-crypto-worker.js:114-125 | `encrypt` never changes `privateKey`; at most it loads the caller's trimmed key into the existing instance |
| RsaCryptoWorker.ResultsNeverEmpty | crypto-workers/rsa-crypto-worker.js:77-154 | No successful reply carries an empty value: the emptiness checks on the generated key pair (lines 77-79), the ciphertext (118-120) and the plaintext (152-154) turn an empty result into an error |
| RsaCryptoWorker.StepPreservesConsistent | crypto-workers/rsa-crypto-worker.js:69-85 | Once a private key is stored, an instance is present, and every message keeps it that way |
| RsaCryptoWorker.DecryptLoadsStoredKey | crypto-workers/rsa-crypto-worker.js:148-159 | On a consistent worker, `decrypt` loads the stored private key into the instance; an empty plaintext gives "Decryption process failed: Decryption failed" |
| RsaCryptoWorker.EncryptPassesTrimmedInputToCipher | crypto-workers/rsa-crypto-worker.js:101-122 | A valid `encrypt` passes the trimmed content and key to the cipher and replies with its ciphertext |
| RsaCryptoWorker.DecryptPassesTrimmedTextToCipher | crypto-workers/rsa-crypto-worker.js:141-156 | A `decrypt` with a stored key passes the trimmed text to the cipher and replies with its plaintext |
| RsaCryptoWorker.RoundTripYieldsTrimmedText | crypto-workers/rsa-crypto-worker.js:22-160 | On a fresh worker, `generate-keys`, then `encrypt` with that key, then `decrypt` returns the trimmed plaintext, provided the cipher inverts itself |
| PublicCryptoWorker.EncryptStep | public/crypto-worker.js:73-80 | `encrypt` keeps `privateKey` and whether `crypt` exists, and never returns an empty ciphertext |
| PublicCryptoWorker.DecryptStep | public/crypto-worker.js:88-98 | `decrypt` keeps `privateKey` and whether `crypt` exists, and never returns an empty plaintext |
| PublicCryptoWorker.Dispatch | public/crypto-worker.js:27-45 | Every type except `generate-keys` keeps `privateKey` and whether `crypt` exists |
| PublicCryptoWorker.Worker.constructor | public/crypto-worker.js:9-10 | Both variables start as `null` |
| PublicCryptoWorker.Worker.GenerateKeypair | public/crypto-worker.js:60-64 | The method assigns the variables and returns exactly what `KeygenStep` specifies |
| PublicCryptoWorker.Worker.Encrypt | public/crypto-worker.js:73-80 | The method loads the key and encrypts exactly as `EncryptStep` specifies |
| PublicCryptoWorker.Worker.Decrypt | public/crypto-worker.js:88-98 | The method checks the private key, loads it and decrypts exactly as `DecryptStep` specifies |
| PublicCryptoWorker.Worker.Handle | public/crypto-worker.js:13-52 | The handler posts the reply and leaves the variables exactly as `Step` specifies, and it keeps them consistent |
| PublicCryptoWorker.Step | public/crypto-worker.js:13-52 | Every well-formed message's reply is headed by its `messageId`; only a well-formed `generate-keys`, `encrypt` or `decrypt` message can change the variables |
| PublicCryptoWorker.KeygenStep | public/crypto-worker.js:60-64 | Key generation never throws; it returns the public half of the instance it stores, stores that instance's private half, and leaves the variables consistent |
| PublicCryptoWorker.MalformedMessageRejected | public/crypto-worker.js:17-20 | A non-array or a message with fewer than 2 elements gets `['error', 'Invalid message format']` with no state change |
| PublicCryptoWorker.ReplyEchoesMessageId | public/crypto-worker.js:23-51 | Every well-formed message gets one reply headed by its `messageId`; its body is `{error: message}` with the thrown message exactly when the operation threw, and the returned value otherwise |
| PublicCryptoWorker.RequestErrorsLeaveStateUnchanged | public/crypto-worker.js:31-44 | Missing parameters and unknown types give their error messages, independent of the library, with no state change |
| PublicCryptoWorker.DecryptWithoutPrivateKey | public/crypto-worker.js:89-91 | `decrypt` with no private key gets the "generate keys first" error, independent of the library, with no state change |
| PublicCryptoWorker.KeygenStoresPrivateReturnsPublic | public/crypto-worker.js:60-64 | `generate-keys` stores the new instance and private key and replies with the public key, even an empty one |
| PublicCryptoWorker.KeygenDisclosesOnlyPublicKey | public/crypto-worker.js:60-64 | The `generate-keys` reply does not depend on the private key |
| PublicCryptoWorker.EncryptBeforeKeygenFails | public/crypto-worker.js:74 | `encrypt` while `crypt` is `null` replies with the `TypeError` as an error record and changes nothing |
| PublicCryptoWorker.EncryptPassesContentUnchanged | public/crypto-worker.js:73-78 | `encrypt` passes the content to the cipher untrimmed and unbounded; an empty ciphertext gives "Encryption failed."; a library error passes through |
| PublicCryptoWorker.DecryptPassesContentUnchanged | public/crypto-worker.js:88-98 | With a stored private key and an instance, `decrypt` loads the private key and passes the content untrimmed and unchecked; an empty plaintext gives 'Decryption failed.'; a library error passes through |
| PublicCryptoWorker.CipherResultsNeverEmpty | public/crypto-worker.js:76-96 | No successful `encrypt` or `decrypt` reply carries an empty value |
| PublicCryptoWorker.PrivateKeyConfinedToDecrypt | public/crypto-worker.js:27-45 | For every message that is not `decrypt`, two states that differ only in their secrets (`privateKey` and whatever key `crypt` holds, including the private key that `decrypt` loaded) get the same reply and end with instances that again differ at most in their keys |
| PublicCryptoWorker.StepPreservesConsistent | public/crypto-worker.js:60-64 | Once a private key is stored, an instance is present, and every message keeps it that way |
| ElGamalCryptoWorker.Step | crypto-workers/elGamal-crypto-worker.js:12-54 | Only a well-formed `generate-keys` message can change `keypair`; a reply not headed `'error'` is headed by the message's own type |
| ElGamalCryptoWorker.Dispatch | crypto-workers/elGamal-crypto-worker.js:27-45 | Every type except `generate-keys` leaves `keypair` as it was |
| ElGamalCryptoWorker.Worker.constructor | crypto-workers/elGamal-crypto-worker.js:9 | `keypair` starts as `null` |
| ElGamalCryptoWorker.Worker.GenerateKeypair | crypto-workers/elGamal-crypto-worker.js:57-62 | The method assigns `keypair` and returns exactly what `KeygenStep` specifies |
| ElGamalCryptoWorker.Worker.Decrypt | crypto-workers/elGamal-crypto-worker.js:71-76 | The method reads `keypair` without changing it and returns exactly what `DecryptStep` specifies |
| ElGamalCryptoWorker.Worker.Handle | crypto-workers/elGamal-crypto-worker.js:12-54 | The handler posts the reply and leaves `keypair` exactly as `Step` specifies |
| ElGamalCryptoWorker.MalformedMessageRejected | crypto-workers/elGamal-crypto-worker.js:16-20 | A non-array or an empty array gets `['error', 'Invalid message format']` and `keypair` is unchanged |
| ElGamalCryptoWorker.SingleElementGenerateAccepted | crypto-workers/elGamal-crypto-worker.js:16-20 | The one-element message `['generate-keys']` is well formed: it stores the pair and replies with the serialized public point |
| ElGamalCryptoWorker.ReplyHeadSignalsFailure | crypto-workers/elGamal-crypto-worker.js:46-53 | The reply is headed `'error'` exactly when the operation threw, and then `keypair` is unchanged; otherwise it is `[messageType, result]` |
| ElGamalCryptoWorker.RequestErrorsRejected | crypto-workers/elGamal-crypto-worker.js:31-44 | Missing parameters and unknown types give their messages, independent of the library, with no state change |
| ElGamalCryptoWorker.DecryptRequiresSecretKey | crypto-workers/elGamal-crypto-worker.js:71-74 | Without a key pair, or with one that has no secret key, `decrypt` gets "Keypair not generated. Generate keys first.", independent of the library |
| ElGamalCryptoWorker.DecryptUsesStoredSecretKey | crypto-workers/elGamal-crypto-worker.js:71-76 | With a stored secret key, `decrypt` passes the content to the library under that key, keeps `keypair`, and replies `['decrypt', plaintext]` or `['error', message]` with the library's error |
| ElGamalCryptoWorker.KeygenReplacesKeypair | crypto-workers/elGamal-crypto-worker.js:57-62 | `generate-keys` replaces `keypair` whenever the library returns a pair and replies with the serialized public point; a library error keeps `keypair` |
| ElGamalCryptoWorker.KeygenDisclosesOnlyPublicKey | crypto-workers/elGamal-crypto-worker.js:57-62 | The `generate-keys` reply does not depend on the secret key |
| ElGamalCryptoWorker.EncryptIgnoresKeypair | crypto-workers/elGamal-crypto-worker.js:65-68 | `encrypt` neither reads nor writes `keypair` |
| ElGamalCryptoWorker.EncryptUsesCallerKey | crypto-workers/elGamal-crypto-worker.js:65-68 | The whole `encrypt` transition: decode the caller's key string, build the key on curve `c256`, and encrypt the text under it, keeping `keypair`; an error from the decoding, the key construction or the cipher is replied as `['error', message]` |
| ElGamalCryptoWorker.PublicKeyRoundTrip | crypto-workers/elGamal-crypto-worker.js:79-87 | `serializePublicKey` encodes the coordinates `x` then `y`, and unserializing that text gives the key on `c256` back, provided the base64 codec inverts itself and the curve accepts the point |
| ElGamalCryptoWorker.GenerateEncryptDecrypt | crypto-workers/elGamal-crypto-worker.js:12-76 | `generate-keys`, then `encrypt` with the published key, then `decrypt` returns the original text, provided the codec and the cipher invert themselves |
| AesCryptoWorker.Handle | crypto-workers/aes-crypto-worker.js:10-42 | Every reply is headed `'error'` or by the message's own type, which is then `encrypt` or `decrypt` |
| AesCryptoWorker.Dispatch | crypto-workers/aes-crypto-worker.js:24-33 | Only `encrypt` and `decrypt` can return a result |
| AesCryptoWorker.MalformedMessageRejected | crypto-workers/aes-crypto-worker.js:14-18 | A non-array or a message with fewer than 3 elements gets `['error', 'Invalid message data format']` |
| AesCryptoWorker.OnlyEncryptAndDecrypt | crypto-workers/aes-crypto-worker.js:24-32 | Every type other than `encrypt` and `decrypt` gets `['error', 'Unknown message type: …']`, independent of the library |
| AesCryptoWorker.GenerateKeysUnsupported | crypto-workers/aes-crypto-worker.js:24-32 | `generate-keys` gets `['error', 'Unknown message type: generate-keys']` |
| AesCryptoWorker.ReplyHeadSignalsFailure | crypto-workers/aes-crypto-worker.js:34-41 | The reply is headed `'error'` exactly when the operation threw; otherwise it is `[messageType, result]` with type `encrypt` or `decrypt` |
| AesCryptoWorker.ParametersReachLibraryUnchanged | crypto-workers/aes-crypto-worker.js:20-52 | `encrypt` and `decrypt` call `sjcl.encrypt` / `sjcl.decrypt` with the message's secret and text unchanged, even when undefined, and `{ks: 256}`; the library's error is the reply |
| AesCryptoWorker.ReplyDependsOnFirstThreeElements | crypto-workers/aes-crypto-worker.js:20 | The worker is stateless: messages that agree on their first three elements get the same reply |
| AesCryptoWorker.EncryptThenDecrypt | crypto-workers/aes-crypto-worker.js:45-52 | Decrypting the ciphertext of an `encrypt` reply with the same secret replies with the original text, provided the library inverts itself |

## Left out

- Transport and bootstrapping are outside the model: `self.window = self`, `importScripts`, `addEventListener`, `postMessage` and `console.error`. Each handler returns the array it would post.
- The cryptographic primitives are parameters of each message: JSEncrypt RSA, SJCL ElGamal on `c256`, SJCL AES with its password-based key derivation, and the SJCL base64 codec. Their behaviour, including randomness, is not modelled, so round trips are proved only on the premise that the library inverts itself.
- Key sizes (4096, 2056, 256) and the curve name are named constants. They are only arguments to library calls.
- JSEncrypt key generation is modelled as a total function. A fresh instance's `getPublicKey()` and `getPrivateKey()` are assumed never to throw; an empty key is modelled.
- `setKey` is modelled as throwing only on a `null` instance. A malformed key loaded by `setKey` shows up as an error or an empty result of the later `encrypt`/`decrypt` call.
- The `TypeError` message for `null.setKey` is V8's wording. Other engines word it differently.
- SJCL bit arrays are sequences of integers. The partial-word encoding of a final word is not modelled.
- Values other than strings, arrays, `null` and `undefined` are reduced to their truthiness and their string conversion.
- Strings are sequences of Unicode scalar values. A JavaScript string holding a lone surrogate (U+D800 to U+DFFF) has no counterpart, so `Trim` and `Utf16Length` are not modelled on such strings.
- Exceptions thrown by the JavaScript engine itself, such as stack overflow or out of memory, are not modelled.

Behaviour of the code worth knowing:
- The hardened RSA worker's `generateKeypair` assigns `crypt` and `privateKey` before it checks them. A failed generation therefore still replaces both variables.
- In both RSA workers, `encrypt` and `decrypt` call `setKey` before the cipher call. The key stays loaded into `crypt` even when the cipher call then fails or returns an empty value.
- The hardened RSA worker trims the plaintext before encrypting, so a round trip returns the trimmed text.
- The length bound compares `length` with 10000, so it counts UTF-16 code units; a character outside the Basic Multilingual Plane counts twice.
- In `decrypt`, the hardened RSA worker trims the text before it checks the private key, and so does `Worker.Decrypt`. The specification function `DecryptStep` checks first; trimming cannot fail or change state, so the two orders give the same outcome, and the two are proved equal.
