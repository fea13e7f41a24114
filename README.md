# JDWL gateway client: request signing and envelope assembly

A Dafny model of the core of `JDWL`, a Node.js client for the JD logistics
open-platform gateway (`https://api.jd.com/routerjson`). Every remote
procedure goes through one `request` that builds a signed envelope:

- **Credentials** (`constructor`): `appKey`, `accessToken` and `appSecret`
  are fixed for the client's lifetime. The endpoint and the protocol
  version `"2.0"` are constants.
- **Signature** (`sign`): every field becomes `key + value`, the pieces are
  sorted in code-unit order, joined with no delimiter and put between two
  copies of `appSecret`. The MD5 hex digest of that string is upper-cased.
- **Envelope** (`request`): the payload serialised into
  `360buy_param_json` is merged with `v`, `method`, `timestamp`,
  `access_token` and `app_key` by `Object.assign`. `sign` is computed over
  those six fields and only then added. The envelope is sent with a GET.
  The parsed reply is returned whole.
- **Bindings**: `etms.waybillcode.get`, `ldop.receive.trace.get` and
  `ldop.waybill.generalQuery` forward a fixed method name and the caller's
  payload to `request`.

Files, one module each:

- `js_text.dfy` (`JsText`): JavaScript strings as UTF-16 code units. It holds
  the code-unit order that `Array.prototype.sort()` uses, proved a total
  order, and ASCII upper-casing of hex digests.
- `js_objects.dfy` (`JsObjects`): flat objects as properties in
  enumeration order, with values that are strings or `undefined`. It holds
  lookup, assignment and `Object.assign`.
- `sorting.dfy` (`Sorting`): the result of `sort()`, and the proof that the
  sorted permutation is unique.
- `signer.dfy` (`Signer`): the pre-hash string and the signature, and their
  independence from field order.
- `gateway.dfy` (`Gateway`): the wire constants, the envelope, the class
  `JDWL` with `Sign`, `Request` and the three bindings.

Calls into Node are parameters, bundled in `Gateway.Runtime`:

- `stringify` stands for `JSON.stringify`. It yields `None` where that
  throws (a cyclic object, a BigInt, a throwing `toJSON`). It is called
  before the `try` at index.js:49, so the call then rejects (`Rejected`)
  and nothing is sent.
- `md5` stands for the MD5 hex digest: any function to 32 lowercase hex digits.
- `httpGet` stands for the `urllib` GET followed by `JSON.parse`. It yields
  `None` where the source catches an exception, logs it and resolves to
  `undefined` (`Resolved(None)`).

## Behaviour worth knowing

- The timestamp is the fixed literal `2018-06-29 17:27:59` (index.js:44),
  not the current time.
- `request` returns the whole parsed reply (index.js:54-55). No
  `<method>_responce` key is extracted anywhere.
- A value that is `undefined` (a missing credential, or
  `JSON.stringify(undefined)`) enters the signature as the string
  `"undefined"`, as JavaScript's `+` makes it.

## Model

| member | source | states |
|---|---|---|
| `JsText.LessOrEqualTotal` | index.js:27 | any two strings are comparable in the order `sort()` uses |
| `JsText.LessOrEqualAntisymmetric` | index.js:27 | two strings that each sort no later than the other are equal |
| `JsText.LessOrEqualTransitive` | index.js:27 | the sort order is transitive |
| `JsText.ToUpperOfDigest` | index.js:30-31 | upper-casing a 32-digit lowercase hex digest keeps its length, leaves only uppercase hex digits and no lowercase letter, keeps each digit's value, and lower-casing undoes it |
| `JsObjects.PutLookup` | index.js:48 | after a property is assigned it reads the new value; every other property reads as before |
| `JsObjects.PutNew` | index.js:48 | assigning a property the object lacks appends it last, after the existing ones |
| `JsObjects.AssignLookup` | index.js:41-47 | after `Object.assign` every property of the source reads the source's value and every other property reads the target's |
| `JsObjects.AssignKeys` | index.js:41-47 | `Object.assign` leaves the union of both objects' property names |
| `JsObjects.AssignDisjoint` | index.js:41-48 | assigning properties the target lacks appends them in the source's order |
| `JsObjects.SamePropertiesSameEntries` | index.js:24-26 | two objects that agree on every property hold the same properties, whatever the insertion order |
| `Sorting.Sort` | index.js:27 | the sorted array is ascending and is a permutation of the input |
| `Sorting.AscendingPermutationsEqual` | index.js:27 | two ascending permutations of the same strings are identical, so any correct sort gives the same array |
| `Sorting.SortOfPermutation` | index.js:27 | sorting two permutations of the same strings gives the same array |
| `Signer.PiecesOfPermutation` | index.js:24-26 | permuting the fields permutes the `key + value` pieces |
| `Signer.SortedPieces` | index.js:23-27 | the sorted list is ascending, has one piece per field, and each element is some field's name immediately followed by its value |
| `Signer.ConcatLengthOfPermutation` | index.js:29 | joining with `''` gives the same length for any order of the pieces |
| `Signer.ConcatPiecesLength` | index.js:24-29 | the joined pieces are as long as all field names and values together |
| `Signer.PreHashLayout` | index.js:29 | the hashed string starts and ends with the secret, and its length is twice the secret's plus all names and values, so there is no delimiter |
| `Signer.SignatureOfPermutation` | index.js:23-31 | permuting the fields changes neither the hashed string nor the signature |
| `Signer.SignatureIgnoresInsertionOrder` | index.js:22-32 | two objects with the same properties get the same signature, whatever order the properties were inserted in |
| `Signer.SignatureShape` | index.js:30-31 | the signature has 32 uppercase hex digits and no lowercase letter, each digit has the digest digit's value, and lower-casing gives the digest back |
| `Gateway.SigningFieldsLayout` | index.js:41-47 | the signed object is `360buy_param_json` followed by `v`, `method`, `timestamp`, `access_token` and `app_key`; it has exactly those six names, none twice, and no `sign` |
| `Gateway.SigningFieldsEntries` | index.js:41-47 | the signed object's six entries in order: the serialised payload, `v` "2.0", the method name, the fixed timestamp, the access token and the app key |
| `Gateway.EnvelopeLayout` | index.js:41-48 | the envelope is the six signed fields followed by `sign` holding their signature: seven fields with distinct names, exactly the wire set |
| `Gateway.EnvelopeFields` | index.js:41-48 | in the envelope, `360buy_param_json` is the serialised payload, `v` is "2.0", `method` is the argument, `timestamp` is the fixed literal, `access_token` and `app_key` are the client's, and `sign` is the signature of the six |
| `Gateway.EnvelopeSignatureValid` | index.js:48 | removing `sign` from the envelope leaves exactly the signed fields, so recomputing the signature over the rest matches `sign` |
| `Gateway.MethodNamesDistinct` | index.js:106-181 | the three bindings send three distinct method names, each under the `jingdong.` prefix |
| `Gateway.JDWL.constructor` | index.js:7-13 | the client keeps the three given credentials; its endpoint is the router URL and its version "2.0" |
| `Gateway.JDWL.Sign` | index.js:22-32 | the loop collects one `key + value` piece per field; the result is the upper-cased digest of the secret, the sorted pieces and the secret; only `appSecret` and the argument are read, and nothing is changed |
| `Gateway.JDWL.Request` | index.js:40-59 | when serialising the payload throws, the call rejects before the `try`; otherwise it resolves to what the GET to the endpoint returns for the signed envelope of this method and serialised payload, unwrapped by nothing, with `None` for the caught failure |
| `Gateway.JDWL.EtmsWaybillcodeGetCall` | index.js:106-108 | `request` with `jingdong.etms.waybillcode.get` and the caller's payload: rejected when serialisation throws, otherwise the reply to that envelope |
| `Gateway.JDWL.LdopReceiveTraceGetCall` | index.js:138-140 | `request` with `jingdong.ldop.receive.trace.get` and the caller's payload: rejected when serialisation throws, otherwise the reply to that envelope |
| `Gateway.JDWL.LdopWaybillGeneralQueryCall` | index.js:179-181 | `request` with `jingdong.ldop.waybill.generalQuery` and the caller's payload: rejected when serialisation throws, otherwise the reply to that envelope |

## Left out

- MD5 (index.js:28-30) is the parameter `md5`. Node hashes the UTF-8 encoding of the string; the model only knows that the digest is 32 lowercase hex digits.
- The HTTP GET through `urllib`, the query-string encoding of the envelope and `JSON.parse` of the reply (index.js:49-55) are the parameter `httpGet`. These are network I/O and a foreign parser.
- The `catch` that writes to `console.error` (index.js:56-58) is modelled only as the `None` result. Logging is I/O.
- `JSON.stringify` of the payload (index.js:41) is the parameter `stringify`, because it is a foreign serialiser. Which payloads it throws on is not modelled, only that a throw rejects the call.
- `async`/`await` and Promises are not modelled. Each call is modelled as one sequential step.
- The getters `etms` and `ldop` build new nested objects on every access, with `request` bound to the client. The model does not build them. Each binding is a method of the class instead.
- The empty stub procedures (index.js:69-97, 121-129, 147-167, 172, 186-222) are left out, because they do nothing.
- `Array.prototype.sort` (index.js:27) is modelled by its result, the unique ascending permutation, and not by the engine's algorithm. The array is sorted in place in the source; the model reassigns the local sequence to its sorted form.
- JavaScript's `for...in` visits array-index-like property names first, in numeric order. The model visits properties in insertion order. None of the envelope's names is index-like, and the signature does not depend on order.
- `JsText.ToUpper` maps only ASCII letters, because `toUpperCase` is only ever applied to a hex digest here.
- The constructor throws a `TypeError` when it is called with no argument object. That case is not modelled; a missing credential inside the object is modelled as `undefined`.
- String constants are written with characters from the Basic Multilingual Plane only, so each character is one code unit.
