/**
  Signing and verifying requests (internal/httpsig/sign.go, verify.go, digest.go).

  RSA, SHA-256, base64 and the date format are functions with stated laws; a key pair is
  a number, and message bodies are strings of bytes.
 */
module Signing {
  import opened Wrappers
  import opened Text
  import opened SignatureHeader
  import opened SigningString

  type Bytes = seq<bv8>

  datatype Crypto = Crypto(
    sha256: string -> Bytes,
    encode: Bytes -> string,
    decode: string -> Option<Bytes>,
    sign: (nat, Bytes) -> Option<Bytes>,
    verify: (nat, Bytes, Bytes) -> bool,
    formatTime: int -> string,
    parseTime: string -> Option<int>)

  predicate Opaque(s: string) {
    Plain(s) && IsWord(s)
  }

  /** Base64 and signatures come back as they went in, and dates to the second. */
  ghost predicate Ideal(c: Crypto) {
    && (forall b: Bytes :: c.decode(c.encode(b)) == Some(b))
    && (forall b: Bytes :: b != [] ==> Opaque(c.encode(b)))
    && (forall s: string :: c.sha256(s) != [])
    && (forall k: nat, d: Bytes | c.sign(k, d).Some? ::
          c.sign(k, d).value != [] && c.verify(k, d, c.sign(k, d).value))
    && (forall t: int :: Dated(c, t))
  }

  ghost predicate Dated(c: Crypto, t: int) {
    var s := c.formatTime(t);
    s != "" && Trimmed(s) && c.parseTime(s) == Some(t - t % 1_000_000_000)
  }

  /** Times are nanoseconds. */
  function ToTheSecond(t: int): int {
    t - t % 1_000_000_000
  }

  const MAX_CLOCK_SKEW := 300 * 1_000_000_000
  const DIGEST_PREFIX := "SHA-256="
  const HEADER_ORDER: seq<string> := ["(request-target)", "host", "date", "digest", "content-type"]
  const GET_HEADER_ORDER: seq<string> := ["(request-target)", "host", "date", "accept"]
  const POST_TYPE := "application/activity+json"
  const GET_TYPES := "application/activity+json, application/ld+json; profile=\"https://www.w3.org/ns/activitystreams\""

  // ----- Digest and Date -----

  function DigestHeader(c: Crypto, body: string): string {
    DIGEST_PREFIX + c.encode(c.sha256(body))
  }

  predicate DigestMatches(c: Crypto, header: string, body: string) {
    var t := TrimSpace(header);
    |t| >= 8 && t[..8] == DIGEST_PREFIX && c.decode(t[8..]) == Some(c.sha256(body))
  }

  method VerifyDigest(c: Crypto, header: string, body: string) returns (ok: bool)
    ensures ok == DigestMatches(c, header, body)
  {
    hide TrimSpace;
    var t := TrimSpace(header);
    if t == "" || |t| < 8 || t[..8] != DIGEST_PREFIX {
      return false;
    }
    var want := c.sha256(body);
    var decoded := c.decode(t[8..]);
    if decoded.None? {
      return false;
    }
    var got := decoded.value;
    if |got| != |want| {
      return false;
    }
    var diff: bv8 := 0;
    for i := 0 to |want|
      invariant diff == 0 <==> want[..i] == got[..i]
    {
      assert want[..i + 1] == want[..i] + [want[i]] && got[..i + 1] == got[..i] + [got[i]];
      DiffKeepsBits(diff, want[i], got[i]);
      diff := diff | (want[i] ^ got[i]);
    }
    assert want[..|want|] == want && got[..|want|] == got;
    return diff == 0;
  }

  lemma DiffKeepsBits(diff: bv8, a: bv8, b: bv8)
    ensures diff | (a ^ b) == 0 <==> diff == 0 && a == b
  {
  }

  predicate DateOk(c: Crypto, header: string, now: int) {
    var t := TrimSpace(header);
    && t != "" && c.parseTime(t).Some?
    && -MAX_CLOCK_SKEW <= now - c.parseTime(t).value <= MAX_CLOCK_SKEW
  }

  // ----- Verifying -----

  function Lookup(params: Bindings, key: string): string {
    if key in params then params[key] else ""
  }

  predicate Covers(names: seq<string>, header: string) {
    exists n | n in names :: ToLower(TrimSpace(n)) == header
  }

  predicate ParamsVerify(c: Crypto, r: Request, key: nat, params: Bindings, mayCoverDigest: bool) {
    var alg, sig, names := Lookup(params, "algorithm"), Lookup(params, "signature"), Fields(Lookup(params, "headers"));
    && (alg == "rsa-sha256" || alg == "hs2019")
    && sig != "" && names != []
    && (mayCoverDigest || !Covers(names, "digest"))
    && Signable(r, names).Ok?
    && c.decode(sig).Some?
    && c.verify(key, c.sha256(Signable(r, names).value), c.decode(sig).value)
  }

  predicate SignatureOk(c: Crypto, r: Request, key: nat, mayCoverDigest: bool) {
    var raw := Get(r.headers, "Signature");
    raw != "" && Parse(raw).Ok? && ParamsVerify(c, r, key, Parse(raw).value, mayCoverDigest)
  }

  predicate PostVerifies(c: Crypto, r: Request, body: string, key: nat, now: int) {
    && DigestMatches(c, Get(r.headers, "Digest"), body)
    && SignatureOk(c, r, key, true)
    && DateOk(c, Get(r.headers, "Date"), now)
  }

  predicate GetVerifies(c: Crypto, r: Request, key: nat, now: int) {
    SignatureOk(c, r, key, false) && DateOk(c, Get(r.headers, "Date"), now)
  }

  method VerifySignature(c: Crypto, r: Request, key: nat, mayCoverDigest: bool) returns (ok: bool)
    ensures ok == SignatureOk(c, r, key, mayCoverDigest)
  {
    hide Parse, Fields, Signable, Get, ToLower, TrimSpace;
    var raw := Get(r.headers, "Signature");
    if raw == "" {
      return false;
    }
    var params := ParseSignatureHeader(raw);
    if params.Err? {
      return false;
    }
    var alg := Lookup(params.value, "algorithm");
    if alg != "rsa-sha256" && alg != "hs2019" {
      return false;
    }
    var sig64 := Lookup(params.value, "signature");
    if sig64 == "" {
      return false;
    }
    var names := Fields(Lookup(params.value, "headers"));
    if |names| == 0 {
      return false;
    }
    if !mayCoverDigest {
      for k := 0 to |names|
        invariant !Covers(names[..k], "digest")
      {
        if ToLower(TrimSpace(names[k])) == "digest" {
          assert names[k] in names;
          return false;
        }
      }
      assert names[..|names|] == names;
    }
    var signing := BuildSigningString(r, names);
    if signing.Err? {
      return false;
    }
    var sig := c.decode(sig64);
    if sig.None? {
      return false;
    }
    return c.verify(key, c.sha256(signing.value), sig.value);
  }

  method VerifyRequest(c: Crypto, r: Request, body: string, key: nat, now: int) returns (ok: bool)
    ensures ok == PostVerifies(c, r, body, key, now)
  {
    ok := VerifyDigest(c, Get(r.headers, "Digest"), body);
    if ok {
      ok := VerifySignature(c, r, key, true);
    }
    return ok && DateOk(c, Get(r.headers, "Date"), now);
  }

  method VerifyGet(c: Crypto, r: Request, key: nat, now: int) returns (ok: bool)
    ensures ok == GetVerifies(c, r, key, now)
  {
    ok := VerifySignature(c, r, key, false);
    return ok && DateOk(c, Get(r.headers, "Date"), now);
  }

  // ----- Signing -----

  function Printed(lead: string, key: string, value: string): string {
    lead + key + "=" + ("\"" + value + "\"")
  }

  function SignatureValue(keyId: string, names: string, sig: string): string {
    Printed("", "keyId", keyId) +
    (Printed(",", "algorithm", "rsa-sha256") + (Printed(",", "headers", names) + Printed(",", "signature", sig)))
  }

  /** The header `name`, filled in with a default when it is blank. */
  function Defaulted(h: Headers, name: string, value: string): Headers {
    if TrimSpace(Get(h, name)) == "" then Set(h, name, value) else h
  }

  function PreparedPost(c: Crypto, r: Request, body: string, now: int): Request {
    var h := Defaulted(Set(r.headers, "Host", r.urlHost), "Content-Type", POST_TYPE);
    r.(headers := Set(Set(h, "Digest", DigestHeader(c, body)), "Date", c.formatTime(now)))
  }

  function PreparedGet(c: Crypto, r: Request, now: int): Request {
    r.(headers := Set(Defaulted(Set(r.headers, "Host", r.urlHost), "Accept", GET_TYPES), "Date", c.formatTime(now)))
  }

  /** Adds the Signature header; the request stays as it is when it cannot be signed. */
  function WithSignature(c: Crypto, r: Request, names: seq<string>, keyId: string, key: nat): (Request, bool) {
    match Signable(r, names)
    case Err => (r, false)
    case Ok(text) =>
      match c.sign(key, c.sha256(text))
      case None => (r, false)
      case Some(sig) =>
        (r.(headers := Set(r.headers, "Signature", SignatureValue(keyId, Join(names, " "), c.encode(sig)))), true)
  }

  function SignedPost(c: Crypto, r: Request, body: string, keyId: string, key: nat, now: int): (Request, bool) {
    if r.urlHost == "" then (r, false) else WithSignature(c, PreparedPost(c, r, body, now), HEADER_ORDER, keyId, key)
  }

  function SignedGet(c: Crypto, r: Request, keyId: string, key: nat, now: int): (Request, bool) {
    if r.urlHost == "" then (r, false) else WithSignature(c, PreparedGet(c, r, now), GET_HEADER_ORDER, keyId, key)
  }

  class HttpRequest {
    const verb: string
    const path: string
    const query: string
    const urlHost: string
    const host: string
    var headers: Headers

    function Snapshot(): Request
      reads this
    {
      Request(verb, path, query, urlHost, host, headers)
    }

    method SetHeader(name: string, value: string)
      modifies this
      ensures Snapshot() == old(Snapshot()).(headers := Set(old(headers), name, value))
    {
      headers := Set(headers, name, value);
    }

    method AddSignature(c: Crypto, names: seq<string>, keyId: string, key: nat) returns (ok: bool)
      modifies this
      ensures (Snapshot(), ok) == WithSignature(c, old(Snapshot()), names, keyId, key)
    {
      var signing := BuildSigningString(Snapshot(), names);
      if signing.Err? {
        return false;
      }
      var sig := c.sign(key, c.sha256(signing.value));
      if sig.None? {
        return false;
      }
      SetHeader("Signature", SignatureValue(keyId, Join(names, " "), c.encode(sig.value)));
      return true;
    }

    method SignPost(c: Crypto, body: string, keyId: string, key: nat, now: int) returns (ok: bool)
      modifies this
      ensures (Snapshot(), ok) == SignedPost(c, old(Snapshot()), body, keyId, key, now)
    {
      if urlHost == "" {
        return false;
      }
      SetHeader("Host", urlHost);
      if TrimSpace(Get(headers, "Content-Type")) == "" {
        SetHeader("Content-Type", POST_TYPE);
      }
      SetHeader("Digest", DigestHeader(c, body));
      SetHeader("Date", c.formatTime(now));
      ok := AddSignature(c, HEADER_ORDER, keyId, key);
    }

    method SignGet(c: Crypto, keyId: string, key: nat, now: int) returns (ok: bool)
      modifies this
      ensures (Snapshot(), ok) == SignedGet(c, old(Snapshot()), keyId, key, now)
    {
      if urlHost == "" {
        return false;
      }
      SetHeader("Host", urlHost);
      if TrimSpace(Get(headers, "Accept")) == "" {
        SetHeader("Accept", GET_TYPES);
      }
      SetHeader("Date", c.formatTime(now));
      ok := AddSignature(c, GET_HEADER_ORDER, keyId, key);
    }
  }
}
