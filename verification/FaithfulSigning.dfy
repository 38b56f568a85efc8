/** What signatures promise: signed requests are accepted, and accepted requests were signed. */
module FaithfulSigning {
  import opened Wrappers
  import opened Text
  import opened SignatureHeader
  import opened SigningString
  import opened Signing

  // ----- Names and keys -----

  predicate Letters(s: string) {
    forall c | c in s :: 'a' <= c <= 'z' || 'A' <= c <= 'Z' || c == '-'
  }

  lemma LowerIs(s: string, t: string)
    requires |s| == |t| && forall i | 0 <= i < |s| :: LowerChar(s[i]) == t[i]
    ensures ToLower(s) == t
  {
  }

  lemma LettersAreToken(s: string)
    requires Letters(s)
    ensures IsToken(s)
  {
  }

  lemma HostKey()
    ensures CanonicalHeaderKey("host") == "Host" && CanonicalHeaderKey("Host") == "Host"
  {
    hide IsToken;
    LettersAreToken("host");
    LettersAreToken("Host");
  }

  lemma DateKey()
    ensures CanonicalHeaderKey("date") == "Date" && CanonicalHeaderKey("Date") == "Date"
  {
    hide IsToken;
    LettersAreToken("date");
    LettersAreToken("Date");
  }

  lemma DigestKey()
    ensures CanonicalHeaderKey("digest") == "Digest" && CanonicalHeaderKey("Digest") == "Digest"
  {
    hide IsToken;
    LettersAreToken("digest");
    LettersAreToken("Digest");
  }

  lemma AcceptKey()
    ensures CanonicalHeaderKey("accept") == "Accept" && CanonicalHeaderKey("Accept") == "Accept"
  {
    hide IsToken;
    LettersAreToken("accept");
    LettersAreToken("Accept");
  }

  lemma ContentTypeKey()
    ensures CanonicalHeaderKey("content-type") == "Content-Type"
  {
    hide IsToken;
    LettersAreToken("content-type");
  }

  lemma ContentTypeIsCanonical()
    ensures CanonicalHeaderKey("Content-Type") == "Content-Type"
  {
    hide IsToken;
    LettersAreToken("Content-Type");
  }

  lemma SignatureKey()
    ensures CanonicalHeaderKey("Signature") == "Signature"
  {
    hide IsToken;
    LettersAreToken("Signature");
  }

  predicate KeyOf(name: string, lower: string) {
    CanonicalHeaderKey(lower) == name && CanonicalHeaderKey(name) == name
  }

  lemma KnownKeys()
    ensures KeyOf("Host", "host") && KeyOf("Date", "date") && KeyOf("Digest", "digest") && KeyOf("Accept", "accept")
    ensures KeyOf("Content-Type", "content-type") && CanonicalHeaderKey("Signature") == "Signature"
  {
    hide CanonicalHeaderKey;
    HostKey();
    DateKey();
    DigestKey();
    AcceptKey();
    ContentTypeKey();
    ContentTypeIsCanonical();
    SignatureKey();
  }

  /** A name that is signed as it is written. */
  predicate Signed(name: string) {
    IsWord(name) && Plain(name) && ToLower(TrimSpace(name)) == name
  }

  lemma WordsAreSigned(name: string)
    requires IsWord(name) && Plain(name) && forall c | c in name :: !('A' <= c <= 'Z')
    ensures Signed(name)
  {
    hide TrimSpace, ToLower;
    assert TrimSpace(name) == name;
    assert forall i | 0 <= i < |name| :: name[i] in name;
    LowerIs(name, name);
  }

  lemma ShortNames()
    ensures Signed("(request-target)") && Signed("host") && Signed("date")
  {
    hide Signed;
    WordsAreSigned("(request-target)");
    WordsAreSigned("host");
    WordsAreSigned("date");
  }

  lemma LongNames()
    ensures Signed("digest") && Signed("content-type") && Signed("accept")
  {
    hide Signed;
    WordsAreSigned("digest");
    WordsAreSigned("content-type");
    WordsAreSigned("accept");
  }

  lemma KnownNames()
    ensures forall n | n in HEADER_ORDER :: Signed(n)
    ensures forall n | n in GET_HEADER_ORDER :: Signed(n)
  {
    hide Signed;
    ShortNames();
    LongNames();
  }

  lemma ListReadsBack(names: seq<string>)
    requires names != [] && forall n | n in names :: Signed(n)
    ensures Plain(Join(names, " ")) && Fields(Join(names, " ")) == names
  {
    hide Fields;
    JoinHasNo(names, " ", '"');
    JoinHasNo(names, " ", '\\');
    FieldsOfJoin(names);
  }

  // ----- The printed header reads back -----

  lemma PrintedIsPrint(lead: string, key: string, value: string)
    requires Plain(value)
    ensures Printed(lead, key, value) == PrintParam(Param.Param(lead, key, value, false))
  {
    PlainNeedsNoEscape(value);
  }

  lemma LowerKeys()
    ensures ToLower("keyId") == "keyid" && ToLower("algorithm") == "algorithm"
    ensures ToLower("headers") == "headers" && ToLower("signature") == "signature"
  {
    hide ToLower;
    LowerIs("keyId", "keyid");
    LowerIs("algorithm", "algorithm");
    LowerIs("headers", "headers");
    LowerIs("signature", "signature");
  }

  function SignatureParams(keyId: string, names: string, sig: string): (params: seq<SignatureHeader.Param>)
  {
    [Param.Param("", "keyId", keyId, false), Param.Param(",", "algorithm", "rsa-sha256", false),
     Param.Param(",", "headers", names, false), Param.Param(",", "signature", sig, false)]
  }

  lemma SignatureValueIsPrint(keyId: string, names: string, sig: string)
    requires Plain(keyId) && Plain(names) && Plain(sig)
    ensures SignatureValue(keyId, names, sig) == Print(SignatureParams(keyId, names, sig))
  {
    hide Printed, PrintParam, Print;
    var ps := SignatureParams(keyId, names, sig);
    PrintedIsPrint("", "keyId", keyId);
    PrintedIsPrint(",", "algorithm", "rsa-sha256");
    PrintedIsPrint(",", "headers", names);
    PrintedIsPrint(",", "signature", sig);
    PrintFirst(ps);
    PrintFirst(ps[1..]);
    PrintFirst(ps[2..]);
    PrintFirst(ps[3..]);
    PrintNone();
    assert ps[1..][1..] == ps[2..] && ps[2..][1..] == ps[3..] && ps[3..][1..] == [];
    assert PrintParam(ps[3]) + "" == PrintParam(ps[3]);
  }

  lemma PrintFirst(ps: seq<SignatureHeader.Param>)
    requires ps != []
    ensures Print(ps) == PrintParam(ps[0]) + Print(ps[1..])
  {
  }

  lemma BoundFirst(ps: seq<SignatureHeader.Param>, found: Bindings)
    requires ps != []
    ensures Bound(ps, found) == Bound(ps[1..], found[ToLower(ps[0].key) := ps[0].value])
  {
  }

  lemma BoundNone(found: Bindings)
    ensures Bound([], found) == found
  {
  }

  lemma PrintNone()
    ensures Print([]) == ""
  {
  }

  lemma SignatureParamsBind(keyId: string, names: string, sig: string)
    ensures Bound(SignatureParams(keyId, names, sig), map[]) ==
              map["keyid" := keyId, "algorithm" := "rsa-sha256", "headers" := names, "signature" := sig]
  {
    hide ToLower, Bound;
    LowerKeys();
    var ps := SignatureParams(keyId, names, sig);
    assert ps[1..][1..] == ps[2..] && ps[2..][1..] == ps[3..] && ps[3..][1..] == [];
    BoundFirst(ps, map[]);
    BoundFirst(ps[1..], map["keyid" := keyId]);
    BoundFirst(ps[2..], map["keyid" := keyId]["algorithm" := "rsa-sha256"]);
    BoundFirst(ps[3..], map["keyid" := keyId]["algorithm" := "rsa-sha256"]["headers" := names]);
    BoundNone(map["keyid" := keyId]["algorithm" := "rsa-sha256"]["headers" := names]["signature" := sig]);
  }

  lemma SignatureParamsJoin(keyId: string, names: string, sig: string)
    ensures Joined(SignatureParams(keyId, names, sig))
  {
    hide Trimmed;
    var ps := SignatureParams(keyId, names, sig);
    assert Trimmed("keyId") && Trimmed("algorithm") && Trimmed("headers") && Trimmed("signature") by {
      KeysAreTrimmed();
    }
    assert WellFormed(ps[0]) && WellFormed(ps[1]) && WellFormed(ps[2]) && WellFormed(ps[3]);
  }

  lemma KeysAreTrimmed()
    ensures Trimmed("keyId") && Trimmed("algorithm") && Trimmed("headers") && Trimmed("signature")
  {
  }

  /** The header printed by the signer comes back in full, unless the key id holds quotes or backslashes. */
  lemma SignatureValueReadsBack(keyId: string, names: string, sig: string)
    requires Plain(keyId) && Plain(names) && Plain(sig)
    ensures Parse(SignatureValue(keyId, names, sig)) ==
              Ok(map["keyid" := keyId, "algorithm" := "rsa-sha256", "headers" := names, "signature" := sig])
  {
    hide Parse, Print, Bound, SignatureParams, SignatureValue;
    var ps := SignatureParams(keyId, names, sig);
    SignatureValueIsPrint(keyId, names, sig);
    SignatureParamsBind(keyId, names, sig);
    SignatureParamsJoin(keyId, names, sig);
    assert ps != [] && ps[0].lead == "" by {
      FirstParam(keyId, names, sig);
    }
    ParseUndoesPrint(ps);
  }

  lemma FirstParam(keyId: string, names: string, sig: string)
    ensures |SignatureParams(keyId, names, sig)| == 4 && SignatureParams(keyId, names, sig)[0].lead == ""
  {
  }

  // ----- A signed request is accepted -----

  function At(h: Headers, key: string): seq<string> {
    if key in h then h[key] else []
  }

  /** What arrives is what was sent; only the Host header may have moved, as HTTP servers do. */
  ghost predicate SameRequest(a: Request, b: Request) {
    && a.verb == b.verb && a.path == b.path && a.query == b.query
    && HeaderValue(a, "host") == HeaderValue(b, "host")
    && forall key | key != "Host" :: At(a.headers, key) == At(b.headers, key)
  }

  lemma LowerHasNoCapitals(s: string)
    ensures forall c | c in ToLower(s) :: !('A' <= c <= 'Z')
  {
  }

  lemma LowerOfUpper(c: char)
    requires !('A' <= c <= 'Z')
    ensures LowerChar(UpperChar(c)) == c && LowerChar(c) == c && LowerChar(LowerChar(c)) == c
  {
  }

  /** Lower-case names with the same header key are the same name. */
  lemma KeyDeterminesName(l: string)
    requires forall c | c in l :: !('A' <= c <= 'Z')
    ensures ToLower(CanonicalHeaderKey(l)) == l
  {
    hide IsToken, LowerChar, UpperChar, ToLower;
    forall i | 0 <= i < |l| ensures LowerChar(CanonicalHeaderKey(l)[i]) == l[i] {
      assert l[i] in l;
      LowerOfUpper(l[i]);
    }
    LowerIs(CanonicalHeaderKey(l), l);
  }

  lemma SameCovered(a: Request, b: Request, name: string)
    requires SameRequest(a, b)
    ensures Covered(a, name) == Covered(b, name)
  {
    hide CanonicalHeaderKey, Join, ToLower, TrimSpace;
    var lower := ToLower(TrimSpace(name));
    if lower != REQUEST_TARGET && CanonicalHeaderKey(lower) == "Host" {
      LowerHasNoCapitals(TrimSpace(name));
      KeyDeterminesName(lower);
      LowerIs("Host", "host");
    } else {
      assert At(a.headers, CanonicalHeaderKey(lower)) == At(b.headers, CanonicalHeaderKey(lower));
      HostKey();
    }
  }

  lemma SameSignable(a: Request, b: Request, names: seq<string>)
    requires forall n | n in names :: Covered(a, n) == Covered(b, n)
    ensures CoveredAll(a, names) == CoveredAll(b, names) && Signable(a, names) == Signable(b, names)
  {
    hide Covered;
    assert forall i | 0 <= i < |names| :: names[i] in names;
    var x, y := CoveredAll(a, names), CoveredAll(b, names);
    assert x.Ok? == y.Ok?;
    assert x.Ok? ==> x.value == y.value;
  }

  lemma SignatureIsNotCovered(r: Request, value: string, n: string)
    requires Signed(n) && n != "signature"
    ensures Covered(r.(headers := Set(r.headers, "Signature", value)), n) == Covered(r, n)
  {
    hide CanonicalHeaderKey, Join, TrimSpace, ToLower, Signed;
    SignedAsWritten(n);
    LowerHasNoCapitals(TrimSpace(n));
    KeyDeterminesName(n);
    SignatureKey();
    LowerIs("Signature", "signature");
  }

  lemma SignedAsWritten(n: string)
    requires Signed(n)
    ensures ToLower(TrimSpace(n)) == n
  {
  }

  lemma SameHeader(a: Request, b: Request, name: string)
    requires SameRequest(a, b) && CanonicalHeaderKey(name) != "Host"
    ensures Get(a.headers, name) == Get(b.headers, name)
  {
    hide CanonicalHeaderKey;
    assert At(a.headers, CanonicalHeaderKey(name)) == At(b.headers, CanonicalHeaderKey(name));
  }

  /** The names a signer may list, each as it is printed. */
  predicate Order(names: seq<string>) {
    names != [] && forall n | n in names :: Signed(n) && n != "signature"
  }

  lemma OrderReadsBack(names: seq<string>)
    requires Order(names)
    ensures names != [] && Plain(Join(names, " ")) && Fields(Join(names, " ")) == names
    ensures forall n :: Covers(names, n) <==> n in names
  {
    hide Signed, Fields, Join, TrimSpace, ToLower;
    ListReadsBack(names);
    forall n | n in names ensures ToLower(TrimSpace(n)) == n {
      SignedAsWritten(n);
    }
  }

  lemma HeaderOrders()
    ensures Order(HEADER_ORDER) && Order(GET_HEADER_ORDER)
    ensures "digest" in HEADER_ORDER && "digest" !in GET_HEADER_ORDER && REQUEST_TARGET in HEADER_ORDER
    ensures REQUEST_TARGET in GET_HEADER_ORDER
  {
    hide Signed;
    KnownNames();
  }

  lemma SignatureArrives(c: Crypto, r: Request, names: seq<string>, keyId: string, key: nat, b: Request)
    requires Order(names) && WithSignature(c, r, names, keyId, key).1
    requires SameRequest(WithSignature(c, r, names, keyId, key).0, b)
    ensures Get(b.headers, "Signature") ==
              SignatureValue(keyId, Join(names, " "), c.encode(c.sign(key, c.sha256(Signable(r, names).value)).value))
    ensures Signable(b, names) == Signable(r, names)
  {
    hide SignatureValue, Covered, CanonicalHeaderKey, SameRequest, Join, Signed;
    var a := WithSignature(c, r, names, keyId, key).0;
    SignatureKey();
    SameHeader(a, b, "Signature");
    forall n | n in names ensures Covered(b, n) == Covered(r, n) {
      assert Signed(n) && n != "signature";
      SameCovered(a, b, n);
      SignatureIsNotCovered(r, Get(a.headers, "Signature"), n);
    }
    SameSignable(b, r, names);
  }

  /** The receiver finds the signer's key id and a signature that verifies. */
  lemma SignatureIsAccepted(c: Crypto, r: Request, names: seq<string>, keyId: string, key: nat, b: Request,
                            mayCoverDigest: bool)
    requires mayCoverDigest || "digest" !in names
    requires Ideal(c) && Plain(keyId) && Order(names) && WithSignature(c, r, names, keyId, key).1
    requires SameRequest(WithSignature(c, r, names, keyId, key).0, b)
    ensures SignatureOk(c, b, key, mayCoverDigest)
    ensures Parse(Get(b.headers, "Signature")).Ok?
    ensures Parse(Get(b.headers, "Signature")).Ok? && Lookup(Parse(Get(b.headers, "Signature")).value, "keyid") == keyId
    ensures Fields(Lookup(Parse(Get(b.headers, "Signature")).value, "headers")) == names
  {
    hide SignatureValue, Parse, Fields, Signable, Get, Join, SameRequest, Covers, Order;
    var sig := c.sign(key, c.sha256(Signable(r, names).value)).value;
    SignatureArrives(c, r, names, keyId, key, b);
    OrderReadsBack(names);
    SignatureValueReadsBack(keyId, Join(names, " "), c.encode(sig));
    SignatureValueIsThere(keyId, Join(names, " "), c.encode(sig));
  }

  lemma SignatureValueIsThere(keyId: string, names: string, sig: string)
    ensures SignatureValue(keyId, names, sig) != ""
  {
  }

  // The headers that signing fills in

  lemma PostHeaders(c: Crypto, r: Request, body: string, keyId: string, key: nat, now: int)
    requires SignedPost(c, r, body, keyId, key, now).1
    ensures var h := SignedPost(c, r, body, keyId, key, now).0.headers;
            Get(h, "Digest") == DigestHeader(c, body) && Get(h, "Date") == c.formatTime(now)
  {
    hide CanonicalHeaderKey, DigestHeader, Signable, SignatureValue, Defaulted;
    KnownKeys();
  }

  lemma GetHeaders(c: Crypto, r: Request, keyId: string, key: nat, now: int)
    requires SignedGet(c, r, keyId, key, now).1
    ensures Get(SignedGet(c, r, keyId, key, now).0.headers, "Date") == c.formatTime(now)
  {
    hide CanonicalHeaderKey, Signable, SignatureValue, Defaulted;
    KnownKeys();
  }

  lemma OwnDigestMatches(c: Crypto, body: string)
    requires Ideal(c)
    ensures DigestMatches(c, DigestHeader(c, body), body)
  {
    var d := DigestHeader(c, body);
    var e := c.encode(c.sha256(body));
    assert Opaque(e) && d[8..] == e && d[..8] == DIGEST_PREFIX;
    assert d[|d| - 1] == e[|e| - 1] && e[|e| - 1] in e;
    assert TrimSpace(d) == d;
  }

  lemma OwnDateIsOkInTime(c: Crypto, now: int, later: int)
    requires Ideal(c)
    ensures DateOk(c, c.formatTime(now), later) <==> -MAX_CLOCK_SKEW <= later - ToTheSecond(now) <= MAX_CLOCK_SKEW
  {
    hide Ideal, TrimSpace;
    DatesReadBack(c, now);
    assert TrimSpace(c.formatTime(now)) == c.formatTime(now);
  }

  lemma DatesReadBack(c: Crypto, t: int)
    requires Ideal(c)
    ensures Dated(c, t)
  {
  }

  /**
    A request signed by SignPost and not altered on its way is accepted exactly while the
    receiver's clock is within the skew of the printed second, and names its key.
   */
  lemma SignedPostIsAccepted(c: Crypto, r: Request, body: string, keyId: string, key: nat, now: int, b: Request,
                             later: int)
    requires Ideal(c) && Plain(keyId) && SignedPost(c, r, body, keyId, key, now).1
    requires SameRequest(SignedPost(c, r, body, keyId, key, now).0, b)
    ensures PostVerifies(c, b, body, key, later) <==> -MAX_CLOCK_SKEW <= later - ToTheSecond(now) <= MAX_CLOCK_SKEW
    ensures Parse(Get(b.headers, "Signature")).Ok? && Lookup(Parse(Get(b.headers, "Signature")).value, "keyid") == keyId
  {
    hide WithSignature, PreparedPost, Get, DigestMatches, SignatureOk, DateOk, Parse, Lookup, SameRequest, Ideal,
      CanonicalHeaderKey;
    var a := SignedPost(c, r, body, keyId, key, now).0;
    PostHeaders(c, r, body, keyId, key, now);
    DigestKey();
    DateKey();
    SameHeader(a, b, "Digest");
    SameHeader(a, b, "Date");
    OwnDigestMatches(c, body);
    OwnDateIsOkInTime(c, now, later);
    HeaderOrders();
    SignatureIsAccepted(c, PreparedPost(c, r, body, now), HEADER_ORDER, keyId, key, b, true);
  }

  lemma SignedGetIsAccepted(c: Crypto, r: Request, keyId: string, key: nat, now: int, b: Request, later: int)
    requires Ideal(c) && Plain(keyId) && SignedGet(c, r, keyId, key, now).1
    requires SameRequest(SignedGet(c, r, keyId, key, now).0, b)
    ensures GetVerifies(c, b, key, later) <==> -MAX_CLOCK_SKEW <= later - ToTheSecond(now) <= MAX_CLOCK_SKEW
    ensures Parse(Get(b.headers, "Signature")).Ok? && Lookup(Parse(Get(b.headers, "Signature")).value, "keyid") == keyId
  {
    hide WithSignature, PreparedGet, Get, SignatureOk, DateOk, Parse, Lookup, SameRequest, Ideal, CanonicalHeaderKey;
    var a := SignedGet(c, r, keyId, key, now).0;
    GetHeaders(c, r, keyId, key, now);
    DateKey();
    SameHeader(a, b, "Date");
    OwnDateIsOkInTime(c, now, later);
    HeaderOrders();
    SignatureIsAccepted(c, PreparedGet(c, r, now), GET_HEADER_ORDER, keyId, key, b, false);
  }

  /** What Go's server makes of the request: the Host header moves to its own field. */
  function Arrived(a: Request): Request {
    a.(host := a.urlHost, headers := a.headers - {"Host"})
  }

  lemma SignedPostArrives(c: Crypto, r: Request, body: string, keyId: string, key: nat, now: int)
    requires SignedPost(c, r, body, keyId, key, now).1
    ensures SameRequest(SignedPost(c, r, body, keyId, key, now).0, Arrived(SignedPost(c, r, body, keyId, key, now).0))
  {
    hide CanonicalHeaderKey, DigestHeader, Signable, SignatureValue, TrimSpace;
    KnownKeys();
    var a := SignedPost(c, r, body, keyId, key, now).0;
    assert Values(a.headers, "host") == [r.urlHost];
    JoinOne(r.urlHost, ", ");
    assert HeaderValue(a, "host") == HeaderValue(Arrived(a), "host");
  }
}
