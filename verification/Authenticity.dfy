/**
  What an accepted request proves about its signer. The verifier takes whatever header list the
  signature names, so a request is bound to what was signed exactly as far as its list goes.
 */
module Authenticity {
  import opened Wrappers
  import opened Text
  import opened SignatureHeader
  import opened SigningString
  import opened Signing
  import opened FaithfulSigning

  /** A request as it was signed: with which list, and for which body. */
  datatype SignedRequest = SignedRequest(request: Request, names: seq<string>, body: string)

  ghost predicate CollisionFree(c: Crypto) {
    forall x: string, y: string :: c.sha256(x) == c.sha256(y) ==> x == y
  }

  /** A signer that covers the Digest header fills it in for its own body. */
  ghost predicate SignedSoundly(c: Crypto, a: SignedRequest) {
    && WireOk(a.request)
    && (Covers(a.names, "digest") ==> Values(a.request.headers, "Digest") == [DigestHeader(c, a.body)])
  }

  /** Under `key` only the signing strings of these requests were ever signed, with whatever lists. */
  ghost predicate Unforgeable(c: Crypto, key: nat, signed: set<SignedRequest>) {
    && (forall a | a in signed :: SignedSoundly(c, a))
    && (forall text: string, sig: Bytes | c.verify(key, c.sha256(text), sig) ::
          exists a | a in signed :: Signable(a.request, a.names) == Ok(text))
  }

  /** The list that the Signature header of a request names. */
  function Listed(r: Request): seq<string> {
    match Parse(Get(r.headers, "Signature"))
    case Err => []
    case Ok(params) => Fields(Lookup(params, "headers"))
  }

  /** What `a` signed is what `b` lists. */
  predicate SameList(a: SignedRequest, b: Request) {
    CoveredAll(a.request, a.names).Ok? && CoveredAll(a.request, a.names) == CoveredAll(b, Listed(b))
  }

  predicate SameTarget(a: Request, b: Request) {
    ToLower(a.verb) == ToLower(b.verb) && Path(a) == Path(b) && a.query == b.query
  }

  /** As far as the list of `b` goes, `a` and `b` agree. */
  ghost predicate Agree(a: SignedRequest, b: Request) {
    && (forall n :: Covers(a.names, n) <==> Covers(Listed(b), n))
    && (Covers(Listed(b), REQUEST_TARGET) ==> SameTarget(a.request, b))
    && (forall n | Covers(Listed(b), n) && n != REQUEST_TARGET :: HeaderValue(a.request, n) == HeaderValue(b, n))
  }

  // ----- Equal lists -----

  lemma SameSigningStringSameList(a: Request, names: seq<string>, b: Request, names': seq<string>)
    requires WireOk(a) && WireOk(b)
    requires Signable(a, names).Ok? && Signable(a, names) == Signable(b, names')
    ensures CoveredAll(a, names).Ok? && CoveredAll(a, names) == CoveredAll(b, names')
  {
    hide Covered, Readable, WireOk, Join, Lines;
    var p, q := CoveredAll(a, names).value, CoveredAll(b, names').value;
    forall e | e in p ensures Readable(e) {
      var i :| 0 <= i < |names| && p[i] == e;
      CoveredIsReadable(a, names[i]);
    }
    forall e | e in q ensures Readable(e) {
      var i :| 0 <= i < |names'| && q[i] == e;
      CoveredIsReadable(b, names'[i]);
    }
    SigningStringIsInjective(p, q);
  }

  function Lower(name: string): string {
    ToLower(TrimSpace(name))
  }

  /** What a name covers depends on its lower-cased form alone, which comes with it. */
  lemma CoveredByName(r: Request, name: string)
    requires Covered(r, name).Some?
    ensures Covered(r, name).value ==
              (Lower(name), if Lower(name) == REQUEST_TARGET then Target(r) else HeaderValue(r, Lower(name)).value)
    ensures Lower(name) != REQUEST_TARGET ==> HeaderValue(r, Lower(name)).Some?
  {
    hide Target, HeaderValue, ToLower, TrimSpace;
  }

  lemma SameEntry(a: Request, name: string, b: Request, name': string)
    requires Covered(a, name).Some? && Covered(a, name) == Covered(b, name')
    ensures Lower(name) == Lower(name')
    ensures Lower(name) == REQUEST_TARGET ==> Target(a) == Target(b)
    ensures Lower(name) != REQUEST_TARGET ==> HeaderValue(a, Lower(name)) == HeaderValue(b, Lower(name))
  {
    hide Target, HeaderValue, Lower, Covered;
    CoveredByName(a, name);
    CoveredByName(b, name');
  }

  lemma EqualListsAgree(a: SignedRequest, b: Request)
    requires WireOk(a.request) && WireOk(b) && SameList(a, b)
    ensures Agree(a, b)
  {
    hide Target, HeaderValue, ToLower, TrimSpace, Covered, Listed, WireOk, SameTarget;
    var names := Listed(b);
    forall i | 0 <= i < |names|
      ensures Covered(a.request, a.names[i]).Some? && Covered(a.request, a.names[i]) == Covered(b, names[i])
    {
      assert CoveredAll(a.request, a.names).value[i] == CoveredAll(b, names).value[i];
    }
    forall n | Covers(names, n)
      ensures Covers(a.names, n)
      ensures n == REQUEST_TARGET ==> Target(a.request) == Target(b)
      ensures n != REQUEST_TARGET ==> HeaderValue(a.request, n) == HeaderValue(b, n)
    {
      var i :| 0 <= i < |names| && ToLower(TrimSpace(names[i])) == n;
      SameEntry(a.request, a.names[i], b, names[i]);
      assert a.names[i] in a.names;
    }
    forall n | Covers(a.names, n) ensures Covers(names, n) {
      var i :| 0 <= i < |a.names| && ToLower(TrimSpace(a.names[i])) == n;
      SameEntry(a.request, a.names[i], b, names[i]);
      assert names[i] in names;
    }
    if Covers(names, REQUEST_TARGET) {
      assert SameTarget(a.request, b) by {
        SameTargetIsSame(a.request, b);
      }
    }
  }

  lemma SameTargetIsSame(a: Request, b: Request)
    requires WireOk(a) && WireOk(b) && Target(a) == Target(b)
    ensures SameTarget(a, b)
  {
    TargetDetermines(a, b);
  }

  /** An accepted signature was made for a request with the same list and, as far as it goes, the same content. */
  lemma AcceptedWasSigned(c: Crypto, key: nat, signed: set<SignedRequest>, b: Request, mayCoverDigest: bool)
    requires Unforgeable(c, key, signed) && WireOk(b) && SignatureOk(c, b, key, mayCoverDigest)
    ensures exists a | a in signed :: SameList(a, b) && Agree(a, b)
  {
    hide WireOk, Get, Signable, Parse, Fields, Lookup, SameList, Agree;
    var params := Parse(Get(b.headers, "Signature")).value;
    var text := Signable(b, Listed(b)).value;
    assert c.verify(key, c.sha256(text), c.decode(Lookup(params, "signature")).value);
    var a :| a in signed && Signable(a.request, a.names) == Ok(text);
    assert SignedSoundly(c, a);
    SignedListIsListed(a, b);
  }

  lemma SignedListIsListed(a: SignedRequest, b: Request)
    requires WireOk(a.request) && WireOk(b)
    requires Signable(a.request, a.names).Ok? && Signable(a.request, a.names) == Signable(b, Listed(b))
    ensures SameList(a, b) && Agree(a, b)
  {
    hide WireOk, Signable, CoveredAll, Agree, Listed;
    SameSigningStringSameList(a.request, a.names, b, Listed(b));
    EqualListsAgree(a, b);
  }

  // ----- The body -----

  lemma ManyValuesHaveASpace(vals: seq<string>)
    ensures |vals| > 1 ==> ' ' in Join(vals, ", ")
  {
    assert |vals| > 1 ==> (vals[0] + ", " + Join(vals[1..], ", "))[|vals[0]| + 1] == ' ';
  }

  /** A value without spaces is not the comma list of several values. */
  lemma OneValue(vals: seq<string>, v: string)
    requires vals != [] && Join(vals, ", ") == v && ' ' !in v
    ensures vals == [v]
  {
    ManyValuesHaveASpace(vals);
  }

  lemma SameDigestSameBody(c: Crypto, b: Request, body: string, signed: string)
    requires Ideal(c) && CollisionFree(c) && DigestMatches(c, Get(b.headers, "Digest"), body)
    requires HeaderValue(b, "digest") == Some(DigestHeader(c, signed))
    ensures body == signed
  {
    hide CanonicalHeaderKey, TrimSpace, Join;
    KnownKeys();
    var d, e := DigestHeader(c, signed), c.encode(c.sha256(signed));
    assert Opaque(e) && d[8..] == e && ' ' !in d;
    OneValue(Values(b.headers, "digest"), d);
    OwnDigestMatches(c, signed);
  }

  lemma OwnDigestValue(c: Crypto, r: Request, body: string)
    requires Values(r.headers, "Digest") == [DigestHeader(c, body)]
    ensures HeaderValue(r, "digest") == Some(DigestHeader(c, body))
  {
    hide CanonicalHeaderKey, DigestHeader;
    KnownKeys();
    JoinOne(DigestHeader(c, body), ", ");
  }

  lemma CoveredDigestBindsBody(c: Crypto, a: SignedRequest, b: Request, body: string)
    requires Ideal(c) && CollisionFree(c) && SignedSoundly(c, a) && Agree(a, b)
    requires DigestMatches(c, Get(b.headers, "Digest"), body) && Covers(Listed(b), "digest")
    ensures a.body == body
  {
    hide Ideal, CollisionFree, DigestMatches, Get, HeaderValue, Covers, Listed, WireOk, DigestHeader, SameTarget,
      Values;
    assert |"digest"| != |REQUEST_TARGET|;
    OwnDigestValue(c, a.request, a.body);
    SameDigestSameBody(c, b, body, a.body);
  }

  /**
    An accepted POST was signed: by a request with the same list that agrees with it in every
    header listed, in the target if that is listed, and in the body if the digest is.
   */
  lemma AcceptedPostWasSigned(c: Crypto, key: nat, signed: set<SignedRequest>, b: Request, body: string, now: int)
    requires Ideal(c) && CollisionFree(c) && Unforgeable(c, key, signed)
    requires WireOk(b) && PostVerifies(c, b, body, key, now)
    ensures exists a | a in signed ::
              SameList(a, b) && Agree(a, b) && (Covers(Listed(b), "digest") ==> a.body == body)
  {
    hide Ideal, CollisionFree, WireOk, DigestMatches, SignatureOk, DateOk, SameList, Agree, Covers, Listed,
      SignedSoundly;
    AcceptedWasSigned(c, key, signed, b, true);
    var a :| a in signed && SameList(a, b) && Agree(a, b);
    if Covers(Listed(b), "digest") {
      CoveredDigestBindsBody(c, a, b, body);
    }
  }

  /** The same for a GET, whose list never covers a digest. */
  lemma AcceptedGetWasSigned(c: Crypto, key: nat, signed: set<SignedRequest>, b: Request, now: int)
    requires Unforgeable(c, key, signed) && WireOk(b) && GetVerifies(c, b, key, now)
    ensures !Covers(Listed(b), "digest")
    ensures exists a | a in signed :: SameList(a, b) && Agree(a, b)
  {
    hide Unforgeable, WireOk, DateOk, SameList, Agree, Covers, Parse, Fields, Get, Signable;
    AcceptedWasSigned(c, key, signed, b, false);
  }

  // ----- What a list leaves out is free -----

  lemma TargetIgnoresHeaders(r: Request, h: Headers)
    ensures Target(r.(headers := h)) == Target(r)
  {
  }

  lemma OtherNamesAreUntouched(r: Request, key: string, h: string, value: string, n: string)
    requires KeyOf(key, h) && Lower(n) != h && forall c | c in h :: !('A' <= c <= 'Z')
    ensures Covered(r.(headers := Set(r.headers, key, value)), n) == Covered(r, n)
  {
    hide CanonicalHeaderKey, Join, ToLower, TrimSpace, Target;
    LowerHasNoCapitals(TrimSpace(n));
    KeyDeterminesName(Lower(n));
    KeyDeterminesName(h);
    var s := r.(headers := Set(r.headers, key, value));
    assert Values(s.headers, Lower(n)) == Values(r.headers, Lower(n));
    TargetIgnoresHeaders(r, s.headers);
  }

  /** A header that is not listed contributes nothing to the signing string. */
  lemma UnlistedHeaderIsNotSigned(r: Request, names: seq<string>, key: string, h: string, value: string)
    requires KeyOf(key, h) && !Covers(names, h) && forall c | c in h :: !('A' <= c <= 'Z')
    ensures Signable(r.(headers := Set(r.headers, key, value)), names) == Signable(r, names)
  {
    hide Covered, Signable, CoveredAll, ToLower, TrimSpace, KeyOf;
    var s := r.(headers := Set(r.headers, key, value));
    forall n | n in names ensures Covered(s, n) == Covered(r, n) {
      assert ToLower(TrimSpace(n)) != h;
      OtherNamesAreUntouched(r, key, h, value, n);
    }
    SameSignable(s, r, names);
  }

  lemma OtherHeaderStays(r: Request, key: string, value: string, name: string)
    requires CanonicalHeaderKey(key) != CanonicalHeaderKey(name)
    ensures Get(Set(r.headers, key, value), name) == Get(r.headers, name)
  {
    hide CanonicalHeaderKey;
  }

  lemma UnlistedHeaderIsFree(c: Crypto, r: Request, sigKey: nat, key: string, h: string, value: string)
    requires SignatureOk(c, r, sigKey, true) && !Covers(Listed(r), h)
    requires KeyOf(key, h) && key != "Signature" && forall x | x in h :: !('A' <= x <= 'Z')
    ensures SignatureOk(c, r.(headers := Set(r.headers, key, value)), sigKey, true)
  {
    hide CanonicalHeaderKey, Parse, Fields, Lookup, Signable, Get, Covers;
    SignatureKey();
    OtherHeaderStays(r, key, value, "Signature");
    UnlistedHeaderIsNotSigned(r, Listed(r), key, h, value);
  }

  lemma LowerDigestAndDate()
    ensures forall x | x in "digest" :: !('A' <= x <= 'Z')
    ensures forall x | x in "date" :: !('A' <= x <= 'Z')
  {
  }

  /** The request with another body and the Digest header for it. */
  function WithBody(c: Crypto, b: Request, other: string): Request {
    b.(headers := Set(b.headers, "Digest", DigestHeader(c, other)))
  }

  /** If the digest is not listed, the request is accepted with every other body. */
  lemma UnlistedDigestLeavesBodyFree(c: Crypto, key: nat, b: Request, body: string, now: int, other: string)
    requires Ideal(c) && PostVerifies(c, b, body, key, now) && !Covers(Listed(b), "digest")
    ensures PostVerifies(c, WithBody(c, b, other), other, key, now)
  {
    hide Ideal, CanonicalHeaderKey, DigestHeader, DigestMatches, SignatureOk, DateOk, Covers, Listed;
    KnownKeys();
    LowerDigestAndDate();
    UnlistedHeaderIsFree(c, b, key, "Digest", "digest", DigestHeader(c, other));
    OtherHeaderStays(b, "Digest", DigestHeader(c, other), "Date");
    OwnDigestMatches(c, other);
  }

  /** If the date is not listed, the request is accepted at every later time, with that time as its date. */
  lemma UnlistedDateLeavesTimeFree(c: Crypto, key: nat, b: Request, body: string, now: int, later: int)
    requires Ideal(c) && PostVerifies(c, b, body, key, now) && !Covers(Listed(b), "date")
    ensures PostVerifies(c, b.(headers := Set(b.headers, "Date", c.formatTime(later))), body, key, later)
  {
    hide Ideal, CanonicalHeaderKey, DigestMatches, SignatureOk, DateOk, Covers, Listed;
    KnownKeys();
    LowerDigestAndDate();
    UnlistedHeaderIsFree(c, b, key, "Date", "date", c.formatTime(later));
    OtherHeaderStays(b, "Date", c.formatTime(later), "Digest");
    OwnDateIsOkInTime(c, later, later);
  }

  /** No HTTP date is the comma list of several values of which the first is a date. */
  ghost predicate DatesStayWhole(c: Crypto) {
    forall t: int, vals: seq<string> | |vals| > 1 && Join(vals, ", ") == c.formatTime(t) ::
      c.parseTime(TrimSpace(vals[0])).None?
  }

  /** If the date is listed, the request is accepted only within the skew of the second it was signed. */
  lemma ListedDateBindsTime(c: Crypto, key: nat, a: SignedRequest, b: Request, body: string, signedAt: int, now: int)
    requires Ideal(c) && DatesStayWhole(c) && Agree(a, b) && PostVerifies(c, b, body, key, now)
    requires Covers(Listed(b), "date") && HeaderValue(a.request, "date") == Some(c.formatTime(signedAt))
    ensures -MAX_CLOCK_SKEW <= now - ToTheSecond(signedAt) <= MAX_CLOCK_SKEW
  {
    hide Ideal, CanonicalHeaderKey, DigestMatches, SignatureOk, Covers, Listed, SameTarget, Join, TrimSpace;
    KnownKeys();
    assert |"date"| != |REQUEST_TARGET|;
    assert HeaderValue(b, "date") == Some(c.formatTime(signedAt));
    var vals := Values(b.headers, "date");
    assert "date"[0] != "host"[0];
    assert vals != [] && Join(vals, ", ") == c.formatTime(signedAt);
    if |vals| == 1 {
      JoinOne(vals[0], ", ");
      assert vals == [vals[0]];
    }
    OwnDateIsOkInTime(c, signedAt, now);
  }

  lemma OtherTargetSameHeaders(b: Request, other: Request, n: string)
    requires other == b.(verb := other.verb, path := other.path, query := other.query) && Lower(n) != REQUEST_TARGET
    ensures Covered(other, n) == Covered(b, n)
  {
    hide CanonicalHeaderKey, Join, Target, ToLower, TrimSpace;
  }

  /** If the target is not listed, the request is accepted with every method, path and query. */
  lemma UnlistedTargetIsFree(c: Crypto, key: nat, b: Request, body: string, now: int, other: Request)
    requires PostVerifies(c, b, body, key, now) && !Covers(Listed(b), REQUEST_TARGET)
    requires other == b.(verb := other.verb, path := other.path, query := other.query)
    ensures PostVerifies(c, other, body, key, now)
  {
    hide CanonicalHeaderKey, Parse, Fields, Lookup, Signable, CoveredAll, Covered, Get, DigestMatches, DateOk, Join,
      Target, ToLower, TrimSpace;
    forall n | n in Listed(b) ensures Covered(other, n) == Covered(b, n) {
      OtherTargetSameHeaders(b, other, n);
    }
    SameSignable(other, b, Listed(b));
  }

  // ----- Exactly when the body is bound -----

  lemma {:induction false} LongerThanAll(bodies: set<string>) returns (n: nat)
    ensures forall x | x in bodies :: |x| < n
  {
    if bodies == {} {
      n := 0;
    } else {
      var x :| x in bodies;
      var m := LongerThanAll(bodies - {x});
      n := if m > |x| then m else |x| + 1;
      assert forall y | y in bodies :: y == x || y in bodies - {x};
    }
  }

  lemma SomeBodyIsMissing(bodies: set<string>) returns (other: string)
    ensures other !in bodies
  {
    var n := LongerThanAll(bodies);
    other := seq(n, i => 'x');
  }

  lemma NewBodyKeepsTheRest(c: Crypto, b: Request, other: string)
    requires Ideal(c) && WireOk(b)
    ensures WireOk(WithBody(c, b, other)) && Listed(WithBody(c, b, other)) == Listed(b)
  {
    hide CanonicalHeaderKey, Parse, Fields, Lookup;
    KnownKeys();
    OtherHeaderStays(b, "Digest", DigestHeader(c, other), "Signature");
    assert Opaque(c.encode(c.sha256(other)));
    LettersAreToken("Digest");
  }

  /**
    The digest is listed exactly if every body with which the request is accepted, under the
    Digest header that goes with it, is one that was signed.
   */
  lemma BodyIsBoundIffDigestIsListed(c: Crypto, key: nat, signed: set<SignedRequest>, b: Request, body: string,
                                     now: int)
    requires Ideal(c) && CollisionFree(c) && Unforgeable(c, key, signed)
    requires WireOk(b) && PostVerifies(c, b, body, key, now)
    ensures Covers(Listed(b), "digest") <==>
              forall other | PostVerifies(c, WithBody(c, b, other), other, key, now) ::
                exists a | a in signed :: a.body == other
  {
    hide Ideal, CollisionFree, Unforgeable, WireOk, PostVerifies, Covers, Listed, SameList, Agree, WithBody;
    if Covers(Listed(b), "digest") {
      forall other | PostVerifies(c, WithBody(c, b, other), other, key, now)
        ensures exists a | a in signed :: a.body == other
      {
        NewBodyKeepsTheRest(c, b, other);
        AcceptedPostWasSigned(c, key, signed, WithBody(c, b, other), other, now);
      }
    } else {
      var other := SomeBodyIsMissing(set a | a in signed :: a.body);
      UnlistedDigestLeavesBodyFree(c, key, b, body, now, other);
      assert forall a | a in signed :: a.body in set x | x in signed :: x.body;
    }
  }

  // ----- The server's own lists -----

  /** What SignPost and SignGet put under a key. */
  ghost predicate SignedByServer(a: SignedRequest) {
    || (a.names == HEADER_ORDER && ToLower(a.request.verb) == "post")
    || (a.names == GET_HEADER_ORDER && ToLower(a.request.verb) == "get")
  }

  /** The signed POST `a` and `b` have the same target, host, date, digest, content type and body. */
  ghost predicate SamePost(a: SignedRequest, b: Request, body: string) {
    && a.names == HEADER_ORDER && SameTarget(a.request, b) && a.body == body
    && forall n | n in HEADER_ORDER && n != REQUEST_TARGET :: HeaderValue(a.request, n) == HeaderValue(b, n)
  }

  lemma ServerPostIsSame(c: Crypto, a: SignedRequest, b: Request, body: string)
    requires SignedByServer(a) && Agree(a, b) && ToLower(b.verb) == "post"
    requires Covers(Listed(b), "digest") ==> a.body == body
    ensures SamePost(a, b, body)
  {
    hide Listed, HeaderValue, Covers, ToLower;
    HeaderOrders();
    OrderReadsBack(HEADER_ORDER);
    OrderReadsBack(GET_HEADER_ORDER);
    assert Covers(Listed(b), REQUEST_TARGET) by {
      assert Covers(a.names, REQUEST_TARGET);
    }
    assert |"get"| != |"post"|;
    forall n | n in HEADER_ORDER && n != REQUEST_TARGET ensures HeaderValue(a.request, n) == HeaderValue(b, n) {
      assert Covers(a.names, n);
    }
    assert Covers(a.names, "digest");
  }

  /** Under a key that signs only as this server does, an accepted POST is one it signed, body included. */
  lemma AcceptedPostIsTheServers(c: Crypto, key: nat, signed: set<SignedRequest>, b: Request, body: string, now: int)
    requires Ideal(c) && CollisionFree(c) && Unforgeable(c, key, signed) && forall a | a in signed :: SignedByServer(a)
    requires WireOk(b) && ToLower(b.verb) == "post" && PostVerifies(c, b, body, key, now)
    ensures exists a | a in signed :: SamePost(a, b, body)
  {
    hide Ideal, CollisionFree, Unforgeable, WireOk, PostVerifies, Covers, Listed, SameList, Agree, SamePost,
      SignedByServer;
    AcceptedPostWasSigned(c, key, signed, b, body, now);
    var a :| a in signed && SameList(a, b) && Agree(a, b) && (Covers(Listed(b), "digest") ==> a.body == body);
    ServerPostIsSame(c, a, b, body);
  }

  // ----- A list that leaves the body free -----

  const SHORT_ORDER: seq<string> := ["(request-target)", "host", "date"]

  lemma ShortOrder()
    ensures Order(SHORT_ORDER) && "digest" !in SHORT_ORDER
  {
    hide Signed;
    ShortNames();
  }

  lemma SameAsItself(r: Request)
    ensures SameRequest(r, r)
  {
  }

  /** Any request signed with that list is accepted, at the time of its date, with any body. */
  lemma ShortListLeavesBodyFree(c: Crypto, r: Request, keyId: string, key: nat, now: int, other: string)
    requires Ideal(c) && Plain(keyId) && WithSignature(c, r, SHORT_ORDER, keyId, key).1
    requires Get(r.headers, "Date") == c.formatTime(now)
    ensures var a := WithSignature(c, r, SHORT_ORDER, keyId, key).0;
            PostVerifies(c, WithBody(c, a, other), other, key, now)
  {
    hide Ideal, CanonicalHeaderKey, DigestHeader, DigestMatches, SignatureOk, DateOk, Signable, Parse, Fields, Lookup,
      SignatureValue, SameRequest, Order;
    var a := WithSignature(c, r, SHORT_ORDER, keyId, key).0;
    ShortOrder();
    SameAsItself(a);
    SignatureIsAccepted(c, r, SHORT_ORDER, keyId, key, a, true);
    OrderReadsBack(SHORT_ORDER);
    KnownKeys();
    LowerDigestAndDate();
    UnlistedHeaderIsFree(c, a, key, "Digest", "digest", DigestHeader(c, other));
    OtherHeaderStays(a, "Digest", DigestHeader(c, other), "Date");
    DateStays(r, SHORT_ORDER, c, keyId, key);
    OwnDigestMatches(c, other);
    OwnDateIsOkInTime(c, now, now);
  }

  lemma DateStays(r: Request, names: seq<string>, c: Crypto, keyId: string, key: nat)
    ensures Get(WithSignature(c, r, names, keyId, key).0.headers, "Date") == Get(r.headers, "Date")
  {
    hide CanonicalHeaderKey, SignatureValue, Signable;
    KnownKeys();
  }
}
