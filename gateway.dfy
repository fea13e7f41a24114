/**
 * The `JDWL` gateway client: credentials fixed at construction, `sign`,
 * the assembly of the signed request envelope in `request`, and the three
 * procedure bindings that forward a method name to `request`.
 *
 * The Node services the client calls into (JSON serialisation, MD5, the
 * HTTP GET with JSON parsing of the reply) are parameters: see `Runtime`.
 */
module Gateway {
  import opened JsText
  import opened JsObjects
  import opened Sorting
  import opened Signer

  const ENDPOINT: JsString := Lit("https://api.jd.com/routerjson")
  const VERSION: JsString := Lit("2.0")
  /** The timestamp is a fixed literal, not a clock reading. */
  const TIMESTAMP: JsString := Lit("2018-06-29 17:27:59")

  // Wire field names.
  const PARAM_JSON_KEY: JsString := Lit("360buy_param_json")
  const V_KEY: JsString := Lit("v")
  const METHOD_KEY: JsString := Lit("method")
  const TIMESTAMP_KEY: JsString := Lit("timestamp")
  const ACCESS_TOKEN_KEY: JsString := Lit("access_token")
  const APP_KEY_KEY: JsString := Lit("app_key")
  const SIGN_KEY: JsString := Lit("sign")

  /** The system parameters' names, the fields the signature covers, and the fields sent on the wire. */
  const SYSTEM_KEYS: set<JsString> := {V_KEY, METHOD_KEY, TIMESTAMP_KEY, ACCESS_TOKEN_KEY, APP_KEY_KEY}
  const SIGNED_KEYS: set<JsString> := {PARAM_JSON_KEY} + SYSTEM_KEYS
  const ENVELOPE_KEYS: set<JsString> := SIGNED_KEYS + {SIGN_KEY}

  /**
   * What `request` calls into: `JSON.stringify` of the payload, which yields
   * `None` when it throws (a cyclic object, a BigInt, a throwing `toJSON`);
   * the MD5 hex digest; and the HTTP GET to an endpoint followed by
   * `JSON.parse` of the body, which yields `None` when either throws.
   */
  datatype Runtime<!P, R> = Runtime(
    stringify: P -> Option<Value>,
    md5: JsString -> Md5Hex,
    httpGet: (JsString, Object) -> Option<R>)

  /**
   * How a call of `request` settles: it resolves to the parsed reply, or to
   * `None` when the GET or the parse threw and the error was logged; or it
   * rejects, when serialising the payload threw outside the `try`.
   */
  datatype Outcome<R> = Resolved(reply: Option<R>) | Rejected

  /** The system parameters `request` merges into the payload object. */
  function SystemParams(methodName: JsString, accessToken: Value, appKey: Value): Object
  {
    [Entry(V_KEY, Str(VERSION)), Entry(METHOD_KEY, Str(methodName)), Entry(TIMESTAMP_KEY, Str(TIMESTAMP)),
     Entry(ACCESS_TOKEN_KEY, accessToken), Entry(APP_KEY_KEY, appKey)]
  }

  /** The six fields `request` signs: the payload object merged with the system parameters. */
  function SigningFields(methodName: JsString, payload: Value, accessToken: Value, appKey: Value): Object
  {
    Assign([Entry(PARAM_JSON_KEY, payload)], SystemParams(methodName, accessToken, appKey))
  }

  /** The envelope sent on the wire: the six fields with their signature added. */
  function Envelope(methodName: JsString, payload: Value, accessToken: Value, appKey: Value, appSecret: Value,
                    md5: JsString -> Md5Hex): Object
  {
    var fields := SigningFields(methodName, payload, accessToken, appKey);
    Assign(fields, [Entry(SIGN_KEY, Str(Signature(appSecret, fields, md5)))])
  }

  /** The `sign` field equals the signature of every other field. */
  predicate SignatureValid(appSecret: Value, env: Object, md5: JsString -> Md5Hex)
  {
    Lookup(env, SIGN_KEY) == Some(Str(Signature(appSecret, RemoveKey(env, SIGN_KEY), md5)))
  }

  // ---------------------------------------------------------------------------
  // The envelope
  // ---------------------------------------------------------------------------

  /** The wire field names all differ in length, hence from each other. */
  lemma KeyLengths()
    ensures |PARAM_JSON_KEY| == 17 && |V_KEY| == 1 && |METHOD_KEY| == 6 && |TIMESTAMP_KEY| == 9
    ensures |ACCESS_TOKEN_KEY| == 12 && |APP_KEY_KEY| == 7 && |SIGN_KEY| == 4
  {
  }

  /** `sign` is not one of the names the signature covers. */
  lemma SignKeyUnsigned()
    ensures SIGN_KEY !in SIGNED_KEYS
  {
    KeyLengths();
    forall k | k in SIGNED_KEYS ensures |k| != |SIGN_KEY| {
    }
  }

  /**
   * The six signed fields, in insertion order: the payload first, then the
   * system parameters; `sign` is not among them.
   */
  lemma SigningFieldsLayout(methodName: JsString, payload: Value, accessToken: Value, appKey: Value)
    ensures SigningFields(methodName, payload, accessToken, appKey)
         == [Entry(PARAM_JSON_KEY, payload)] + SystemParams(methodName, accessToken, appKey)
    ensures Keys(SigningFields(methodName, payload, accessToken, appKey)) == SIGNED_KEYS
    ensures SIGN_KEY !in SIGNED_KEYS
    ensures WellFormed(SigningFields(methodName, payload, accessToken, appKey))
  {
    SignKeyUnsigned();
    var target := [Entry(PARAM_JSON_KEY, payload)];
    var source := SystemParams(methodName, accessToken, appKey);
    KeyLengths();
    assert WellFormed(source);
    assert Keys(target) == {PARAM_JSON_KEY};
    assert Keys(source) == SYSTEM_KEYS;
    AssignDisjoint(target, source);
    KeysAppend(target, source);
    AppendWellFormed(target, source);
  }

  /** The six signed fields, one by one. */
  lemma SigningFieldsEntries(methodName: JsString, payload: Value, accessToken: Value, appKey: Value)
    ensures var fields := SigningFields(methodName, payload, accessToken, appKey);
            && |fields| == 6
            && fields[0] == Entry(PARAM_JSON_KEY, payload)
            && fields[1] == Entry(V_KEY, Str(VERSION))
            && fields[2] == Entry(METHOD_KEY, Str(methodName))
            && fields[3] == Entry(TIMESTAMP_KEY, Str(TIMESTAMP))
            && fields[4] == Entry(ACCESS_TOKEN_KEY, accessToken)
            && fields[5] == Entry(APP_KEY_KEY, appKey)
  {
    SigningFieldsLayout(methodName, payload, accessToken, appKey);
  }

  /**
   * The envelope is the six signed fields followed by `sign`, whose value is
   * the signature of exactly those six: seven distinct fields, `v` is "2.0".
   */
  lemma EnvelopeLayout(methodName: JsString, payload: Value, accessToken: Value, appKey: Value, appSecret: Value,
                       md5: JsString -> Md5Hex)
    ensures var fields := SigningFields(methodName, payload, accessToken, appKey);
            Envelope(methodName, payload, accessToken, appKey, appSecret, md5)
              == fields + [Entry(SIGN_KEY, Str(Signature(appSecret, fields, md5)))]
    ensures |Envelope(methodName, payload, accessToken, appKey, appSecret, md5)| == 7
    ensures Keys(Envelope(methodName, payload, accessToken, appKey, appSecret, md5)) == ENVELOPE_KEYS
    ensures WellFormed(Envelope(methodName, payload, accessToken, appKey, appSecret, md5))
  {
    var fields := SigningFields(methodName, payload, accessToken, appKey);
    SigningFieldsLayout(methodName, payload, accessToken, appKey);
    AssignFresh(fields, Entry(SIGN_KEY, Str(Signature(appSecret, fields, md5))));
  }

  /**
   * Each envelope field holds what `request` puts there: the serialised
   * payload, version "2.0", the method name, the fixed timestamp, the
   * client's access token and app key, and the signature of the other six.
   */
  lemma EnvelopeFields(methodName: JsString, payload: Value, accessToken: Value, appKey: Value, appSecret: Value,
                       md5: JsString -> Md5Hex)
    ensures var env := Envelope(methodName, payload, accessToken, appKey, appSecret, md5);
            && Lookup(env, PARAM_JSON_KEY) == Some(payload)
            && Lookup(env, V_KEY) == Some(Str(VERSION))
            && Lookup(env, METHOD_KEY) == Some(Str(methodName))
            && Lookup(env, TIMESTAMP_KEY) == Some(Str(TIMESTAMP))
            && Lookup(env, ACCESS_TOKEN_KEY) == Some(accessToken)
            && Lookup(env, APP_KEY_KEY) == Some(appKey)
            && Lookup(env, SIGN_KEY)
               == Some(Str(Signature(appSecret, SigningFields(methodName, payload, accessToken, appKey), md5)))
  {
    var env := Envelope(methodName, payload, accessToken, appKey, appSecret, md5);
    EnvelopeLayout(methodName, payload, accessToken, appKey, appSecret, md5);
    SigningFieldsEntries(methodName, payload, accessToken, appKey);
    LookupOfMember(env, env[0]);
    LookupOfMember(env, env[1]);
    LookupOfMember(env, env[2]);
    LookupOfMember(env, env[3]);
    LookupOfMember(env, env[4]);
    LookupOfMember(env, env[5]);
    LookupOfMember(env, env[6]);
  }

  /**
   * The signature never covers itself: removing `sign` from the envelope
   * leaves exactly the signed fields, so recomputing the signature over the
   * rest gives `sign` back.
   */
  lemma EnvelopeSignatureValid(methodName: JsString, payload: Value, accessToken: Value, appKey: Value,
                               appSecret: Value, md5: JsString -> Md5Hex)
    ensures RemoveKey(Envelope(methodName, payload, accessToken, appKey, appSecret, md5), SIGN_KEY)
         == SigningFields(methodName, payload, accessToken, appKey)
    ensures SignatureValid(appSecret, Envelope(methodName, payload, accessToken, appKey, appSecret, md5), md5)
  {
    var fields := SigningFields(methodName, payload, accessToken, appKey);
    EnvelopeLayout(methodName, payload, accessToken, appKey, appSecret, md5);
    SigningFieldsLayout(methodName, payload, accessToken, appKey);
    RemoveAppended(fields, Entry(SIGN_KEY, Str(Signature(appSecret, fields, md5))));
  }

  // ---------------------------------------------------------------------------
  // Procedure bindings
  // ---------------------------------------------------------------------------

  /** The procedures of the client that forward to `request`. */
  datatype Binding =
    | EtmsWaybillcodeGet        // client.etms.waybillcode.get
    | LdopReceiveTraceGet       // client.ldop.receive.trace.get
    | LdopWaybillGeneralQuery   // client.ldop.waybill.generalQuery

  /** The remote method name each binding sends. */
  function MethodName(b: Binding): JsString
  {
    match b
    case EtmsWaybillcodeGet => Lit("jingdong.etms.waybillcode.get")
    case LdopReceiveTraceGet => Lit("jingdong.ldop.receive.trace.get")
    case LdopWaybillGeneralQuery => Lit("jingdong.ldop.waybill.generalQuery")
  }

  /** Distinct bindings call distinct remote procedures, all under the `jingdong.` prefix. */
  lemma MethodNamesDistinct(b1: Binding, b2: Binding)
    ensures b1 != b2 ==> MethodName(b1) != MethodName(b2)
    ensures MethodName(b1)[..9] == Lit("jingdong.")
  {
  }

  // ---------------------------------------------------------------------------
  // The client
  // ---------------------------------------------------------------------------

  class JDWL {
    const endpoint: JsString := ENDPOINT
    const version: JsString := VERSION
    const appKey: Value
    const accessToken: Value
    const appSecret: Value

    /** The credentials are fixed for the client's lifetime; a missing one is `undefined`. */
    constructor(appKey: Value, accessToken: Value, appSecret: Value)
      ensures this.appKey == appKey && this.accessToken == accessToken && this.appSecret == appSecret
      ensures endpoint == ENDPOINT && version == VERSION
    {
      this.appKey := appKey;
      this.accessToken := accessToken;
      this.appSecret := appSecret;
    }

    /**
     * Collects `key + value` for every field, sorts the pieces, joins them
     * between two copies of the secret and upper-cases the MD5 hex digest.
     * Reads only the secret; changes nothing.
     */
    method Sign(data: Object, md5: JsString -> Md5Hex) returns (sig: JsString)
      ensures sig == Signature(appSecret, data, md5)
    {
      var dataArr: seq<JsString> := [];
      var i := 0;
      while i < |data|
        invariant 0 <= i <= |data|
        invariant dataArr == Pieces(data[..i])
      {
        dataArr := dataArr + [data[i].key + ToStr(data[i].value)];
        i := i + 1;
      }
      assert data[..i] == data;
      dataArr := Sort(dataArr);
      var signString := ToStr(appSecret) + Concat(dataArr) + ToStr(appSecret);
      var result := md5(signString);
      sig := ToUpper(result);
    }

    /**
     * Serialises the payload, builds the six fields, signs them, adds `sign`,
     * and sends the result with a GET; the parsed reply is returned whole,
     * with nothing unwrapped. Serialisation and signing happen before the
     * `try`, so a payload `JSON.stringify` throws on rejects the call and
     * nothing is sent.
     */
    method Request<P, R>(methodName: JsString, data: P, rt: Runtime<P, R>) returns (response: Outcome<R>)
      ensures rt.stringify(data).None? ==> response == Rejected
      ensures rt.stringify(data).Some? ==>
                response == Resolved(rt.httpGet(ENDPOINT, Envelope(methodName, rt.stringify(data).value,
                                                                   accessToken, appKey, appSecret, rt.md5)))
    {
      var payload := rt.stringify(data);
      if payload.None? {
        return Rejected;
      }
      var signData := Assign([Entry(PARAM_JSON_KEY, payload.value)],
                             [Entry(V_KEY, Str(version)), Entry(METHOD_KEY, Str(methodName)),
                              Entry(TIMESTAMP_KEY, Str(TIMESTAMP)), Entry(ACCESS_TOKEN_KEY, accessToken),
                              Entry(APP_KEY_KEY, appKey)]);
      var signature := Sign(signData, rt.md5);
      var signedData := Assign(signData, [Entry(SIGN_KEY, Str(signature))]);
      response := Resolved(rt.httpGet(endpoint, signedData));
    }

    /** `etms.waybillcode.get(data)`: `request` under the binding's method name. */
    method EtmsWaybillcodeGetCall<P, R>(data: P, rt: Runtime<P, R>) returns (response: Outcome<R>)
      ensures rt.stringify(data).None? ==> response == Rejected
      ensures rt.stringify(data).Some? ==>
                response == Resolved(rt.httpGet(ENDPOINT, Envelope(MethodName(EtmsWaybillcodeGet), rt.stringify(data).value,
                                                                   accessToken, appKey, appSecret, rt.md5)))
    {
      response := Request(MethodName(EtmsWaybillcodeGet), data, rt);
    }

    /** `ldop.receive.trace.get(data)`: `request` under the binding's method name. */
    method LdopReceiveTraceGetCall<P, R>(data: P, rt: Runtime<P, R>) returns (response: Outcome<R>)
      ensures rt.stringify(data).None? ==> response == Rejected
      ensures rt.stringify(data).Some? ==>
                response == Resolved(rt.httpGet(ENDPOINT, Envelope(MethodName(LdopReceiveTraceGet), rt.stringify(data).value,
                                                                   accessToken, appKey, appSecret, rt.md5)))
    {
      response := Request(MethodName(LdopReceiveTraceGet), data, rt);
    }

    /** `ldop.waybill.generalQuery(data)`: `request` under the binding's method name. */
    method LdopWaybillGeneralQueryCall<P, R>(data: P, rt: Runtime<P, R>) returns (response: Outcome<R>)
      ensures rt.stringify(data).None? ==> response == Rejected
      ensures rt.stringify(data).Some? ==>
                response == Resolved(rt.httpGet(ENDPOINT, Envelope(MethodName(LdopWaybillGeneralQuery), rt.stringify(data).value,
                                                                   accessToken, appKey, appSecret, rt.md5)))
    {
      response := Request(MethodName(LdopWaybillGeneralQuery), data, rt);
    }
  }
}
