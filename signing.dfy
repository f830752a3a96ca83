/** The authenticated-request envelope: the request descriptor is serialised
    with `JSON.generate`, encoded with `Base64.strict_encode64` (section 4 of
    RFC 4648) and signed with `OpenSSL::HMAC.hexdigest` over SHA-384 (RFC 2104,
    FIPS 180-4); the five headers carry the result. The library calls are
    parameters: only the way they are composed is modelled. */
module Signing {
  import opened OrderedHash
  import opened RubyValues

  /** The foreign library functions the client calls. */
  datatype Primitives = Primitives(
    generate: Value -> string,                 // JSON.generate
    strictEncode64: string -> string,          // Base64.strict_encode64
    hexHmacSha384: (string, string) -> string, // OpenSSL::HMAC.hexdigest(sha384, key, data)
    floatToS: real -> string,                  // Float#to_s
    stringToF: string -> real)                 // String#to_f

  /** What the exchange uses to read an envelope back. */
  datatype Readers = Readers(
    strictDecode64: string -> string,
    parse: string -> Value)

  /** The readers undo the client's encoders on what this envelope carries:
      Base64 decoding inverts Base64 encoding, and parsing the JSON text of
      the descriptor `data` gives `data` back. */
  ghost predicate ReadsBack(rd: Readers, lib: Primitives, data: Assoc<Value>)
  {
    (forall s :: rd.strictDecode64(lib.strictEncode64(s)) == s) &&
    rd.parse(lib.generate(Obj(data))) == Obj(data)
  }

  /** Every descriptor has encoders and readers that read it back, so the
      round trip below is not about an empty set of libraries. */
  lemma ReadersExist(data: Assoc<Value>)
    ensures exists lib: Primitives, rd: Readers :: ReadsBack(rd, lib, data)
  {
    var lib := Primitives(v => "", s => s, (k, s) => s, x => "", s => 0.0);
    var rd := Readers(s => s, s => Obj(data));
    assert ReadsBack(rd, lib, data);
  }

  const ContentLength := "Content-Length"
  const ContentType := "Content-Type"
  const ApiKeyHeader := "X-GEMINI-APIKEY"
  const PayloadHeader := "X-GEMINI-PAYLOAD"
  const SignatureHeader := "X-GEMINI-SIGNATURE"

  const HeaderNames := [ContentLength, ContentType, ApiKeyHeader, PayloadHeader, SignatureHeader]

  /** The header hash of a private request carrying `data`. The signature is
      computed over the Base64 payload, not over the JSON text. */
  function Envelope(lib: Primitives, apiKey: string, apiSecret: string, data: Assoc<Value>): (headers: Assoc<string>)
    ensures Keys(headers) == HeaderNames
    ensures Get(headers, ContentLength) == Some("0")
    ensures Get(headers, ContentType) == Some("text/plain")
    ensures Get(headers, ApiKeyHeader) == Some(apiKey)
    ensures Get(headers, PayloadHeader) == Some(lib.strictEncode64(lib.generate(Obj(data))))
    ensures Get(headers, SignatureHeader) == Some(lib.hexHmacSha384(apiSecret, Get(headers, PayloadHeader).value))
  {
    var payload := lib.strictEncode64(lib.generate(Obj(data)));
    var signature := lib.hexHmacSha384(apiSecret, payload);
    var headers := [(ContentLength, "0"), (ContentType, "text/plain"), (ApiKeyHeader, apiKey),
                    (PayloadHeader, payload), (SignatureHeader, signature)];
    assert Keys(headers) == HeaderNames;
    GetUnique(headers, ContentLength, "0");
    GetUnique(headers, ContentType, "text/plain");
    GetUnique(headers, ApiKeyHeader, apiKey);
    GetUnique(headers, PayloadHeader, payload);
    GetUnique(headers, SignatureHeader, signature);
    headers
  }

  /** The exchange's side: recompute the signature of the payload header with
      the secret it holds for the key, and on a match decode the descriptor. */
  function ServerView(lib: Primitives, rd: Readers, secret: string, headers: Assoc<string>): Option<(string, Value)>
  {
    match (Get(headers, ApiKeyHeader), Get(headers, PayloadHeader), Get(headers, SignatureHeader))
    case (Some(key), Some(payload), Some(signature)) =>
      if lib.hexHmacSha384(secret, payload) == signature
      then Some((key, rd.parse(rd.strictDecode64(payload))))
      else None
    case _ => None
  }

  /** An envelope signed with the secret the exchange holds is accepted, and
      the exchange reads back exactly the key and the descriptor that were sent. */
  lemma EnvelopeAuthenticates(lib: Primitives, rd: Readers, apiKey: string, apiSecret: string, data: Assoc<Value>)
    requires ReadsBack(rd, lib, data)
    ensures ServerView(lib, rd, apiSecret, Envelope(lib, apiKey, apiSecret, data)) == Some((apiKey, Obj(data)))
  {
    var payload := lib.strictEncode64(lib.generate(Obj(data)));
    assert rd.strictDecode64(payload) == lib.generate(Obj(data));
  }

  /** The exchange accepts the envelope under a secret exactly when that
      secret's MAC of the payload is the one the client sent. */
  lemma AcceptedExactlyUnderMatchingMac(lib: Primitives, rd: Readers, apiKey: string, apiSecret: string, other: string, data: Assoc<Value>)
    ensures ServerView(lib, rd, other, Envelope(lib, apiKey, apiSecret, data)).Some? <==>
      lib.hexHmacSha384(other, lib.strictEncode64(lib.generate(Obj(data)))) == lib.hexHmacSha384(apiSecret, lib.strictEncode64(lib.generate(Obj(data))))
  {
  }
}
