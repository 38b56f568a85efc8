/**
  What SignPost and SignGet sign and send, spelled out (internal/httpsig/sign.go), and when they
  succeed.
 */
module SignedText {
  import opened Wrappers
  import opened Text
  import opened SignatureHeader
  import opened SigningString
  import opened Signing
  import opened FaithfulSigning

  // ----- What a name covers -----

  function TargetText(r: Request): string {
    ToLower(r.verb) + " " + ((if r.path == "" then "/" else r.path) + (if r.query == "" then "" else "?" + r.query))
  }

  /** A name stands for the request target, its header's values or the host the request came to, or for nothing. */
  lemma NamesCover(r: Request, name: string)
    ensures var lower := ToLower(TrimSpace(name)); var vals := Values(r.headers, lower);
            Covered(r, name) ==
              if lower == "(request-target)" then Some((lower, TargetText(r)))
              else if vals != [] then Some((lower, Join(vals, ", ")))
              else if lower == "host" && r.host != "" then Some((lower, r.host))
              else None
  {
    hide CanonicalHeaderKey, Join, ToLower, TrimSpace;
  }

  lemma CoversHeader(r: Request, n: string)
    requires Signed(n) && n != "(request-target)" && Values(r.headers, n) != []
    ensures Covered(r, n) == Some((n, Join(Values(r.headers, n), ", ")))
  {
    hide CanonicalHeaderKey, Join, ToLower, TrimSpace;
    NamesCover(r, n);
  }

  lemma CoversTarget(r: Request)
    ensures Covered(r, "(request-target)") == Some(("(request-target)", TargetText(r)))
  {
    hide Signed, TargetText, Values;
    ShortNames();
    TargetIsSigned(r, "(request-target)");
  }

  lemma TargetIsSigned(r: Request, n: string)
    requires Signed(n) && n == "(request-target)"
    ensures Covered(r, n) == Some((n, TargetText(r)))
  {
    hide CanonicalHeaderKey, Join, ToLower, TrimSpace;
    NamesCover(r, n);
  }

  // ----- The headers before signing -----

  /** The header values as given, or the default if they are blank. */
  function Given(r: Request, name: string, standard: string): seq<string> {
    if TrimSpace(Get(r.headers, name)) == "" then [standard] else Values(r.headers, name)
  }

  /** `after` is `before` with the header `key` set. */
  ghost predicate Has(h: Headers, key: string, values: seq<string>) {
    key in h && h[key] == values
  }

  lemma BlankIsBlank()
    ensures TrimSpace("") == ""
  {
  }

  lemma PreparedPostHas(c: Crypto, r: Request, body: string, now: int)
    ensures var p := PreparedPost(c, r, body, now);
            && p == r.(headers := p.headers)
            && Has(p.headers, "Host", [r.urlHost]) && Has(p.headers, "Date", [c.formatTime(now)])
            && Has(p.headers, "Digest", ["SHA-256=" + c.encode(c.sha256(body))])
            && Has(p.headers, "Content-Type", Given(r, "Content-Type", "application/activity+json"))
            && forall key | key !in {"Host", "Date", "Digest", "Content-Type"} ::
                 At(p.headers, key) == At(r.headers, key)
  {
    hide CanonicalHeaderKey, TrimSpace;
    KnownKeys();
    BlankIsBlank();
  }

  lemma PreparedGetHas(c: Crypto, r: Request, now: int)
    ensures var p := PreparedGet(c, r, now);
            && p == r.(headers := p.headers)
            && Has(p.headers, "Host", [r.urlHost]) && Has(p.headers, "Date", [c.formatTime(now)])
            && Has(p.headers, "Accept", Given(r, "Accept", GET_TYPES))
            && forall key | key !in {"Host", "Date", "Accept"} :: At(p.headers, key) == At(r.headers, key)
  {
    hide CanonicalHeaderKey, TrimSpace;
    KnownKeys();
    BlankIsBlank();
  }

  // ----- The text -----

  function Five(a: string, b: string, c: string, d: string, e: string): string {
    a + "\n" + (b + "\n" + (c + "\n" + (d + "\n" + e)))
  }

  function PostText(c: Crypto, r: Request, body: string, now: int): string {
    Five("(request-target)" + (": " + TargetText(r)), "host" + (": " + r.urlHost), "date" + (": " + c.formatTime(now)),
         "digest" + (": " + ("SHA-256=" + c.encode(c.sha256(body)))),
         "content-type" + (": " + Join(Given(r, "Content-Type", "application/activity+json"), ", ")))
  }

  function GetText(c: Crypto, r: Request, now: int): string {
    Four("(request-target)" + (": " + TargetText(r)), "host" + (": " + r.urlHost), "date" + (": " + c.formatTime(now)),
         "accept" + (": " + Join(Given(r, "Accept", GET_TYPES), ", ")))
  }

  function Four(a: string, b: string, c: string, d: string): string {
    a + "\n" + (b + "\n" + (c + "\n" + d))
  }

  lemma JoinTwo(a: string, rest: seq<string>, sep: string)
    requires rest != []
    ensures Join([a] + rest, sep) == a + sep + Join(rest, sep)
  {
    assert ([a] + rest)[1..] == rest;
  }

  lemma JoinFour(a: string, b: string, c: string, d: string)
    ensures Join([a, b, c, d], "\n") == Four(a, b, c, d)
  {
    hide Join;
    assert [a, b, c, d] == [a] + ([b] + ([c] + [d]));
    JoinTwo(a, [b] + ([c] + [d]), "\n");
    JoinTwo(b, [c] + [d], "\n");
    JoinTwo(c, [d], "\n");
    JoinOne(d, "\n");
  }

  lemma JoinFive(a: string, b: string, c: string, d: string, e: string)
    ensures Join([a, b, c, d, e], "\n") == Five(a, b, c, d, e)
  {
    hide Join;
    assert [a, b, c, d, e] == [a] + [b, c, d, e];
    JoinTwo(a, [b, c, d, e], "\n");
    JoinFour(b, c, d, e);
  }

  /** Signing takes the covered lines, if every name covers something. */
  lemma SignsLines(r: Request, names: seq<string>, entries: seq<(string, string)>)
    requires |entries| == |names| && forall i | 0 <= i < |names| :: Covered(r, names[i]) == Some(entries[i])
    ensures Signable(r, names) == Ok(Join(Lines(entries), "\n"))
  {
    hide Covered, Lines, Join;
    assert CoveredAll(r, names).value == entries;
  }

  lemma GivenIsThere(r: Request, name: string, standard: string)
    ensures Given(r, name, standard) != []
  {
    hide TrimSpace, Values;
    BlankIsBlank();
  }

  lemma PostTextIsSigned(c: Crypto, r: Request, body: string, now: int)
    ensures Signable(PreparedPost(c, r, body, now), HEADER_ORDER) == Ok(PostText(c, r, body, now))
  {
    hide CanonicalHeaderKey, TrimSpace, Join, Covered, PreparedPost, TargetText, Signed, Five, Given, Signable;
    var p := PreparedPost(c, r, body, now);
    PreparedPostHas(c, r, body, now);
    GivenIsThere(r, "Content-Type", "application/activity+json");
    KnownKeys();
    KnownNames();
    CoversTarget(p);
    assert TargetText(p) == TargetText(r) by {
      SameTarget(p, r);
    }
    CoversHeader(p, "host");
    CoversHeader(p, "date");
    CoversHeader(p, "digest");
    CoversHeader(p, "content-type");
    JoinOne(r.urlHost, ", ");
    JoinOne(c.formatTime(now), ", ");
    JoinOne("SHA-256=" + c.encode(c.sha256(body)), ", ");
    var entries := [("(request-target)", TargetText(r)), ("host", r.urlHost), ("date", c.formatTime(now)),
                    ("digest", "SHA-256=" + c.encode(c.sha256(body))),
                    ("content-type", Join(Given(r, "Content-Type", "application/activity+json"), ", "))];
    SignsLines(p, HEADER_ORDER, entries);
    var lines := Lines(entries);
    assert lines == [lines[0], lines[1], lines[2], lines[3], lines[4]];
    JoinFive(lines[0], lines[1], lines[2], lines[3], lines[4]);
  }

  lemma SameTarget(p: Request, r: Request)
    requires p.verb == r.verb && p.path == r.path && p.query == r.query
    ensures TargetText(p) == TargetText(r)
  {
  }

  lemma GetTextIsSigned(c: Crypto, r: Request, now: int)
    ensures Signable(PreparedGet(c, r, now), GET_HEADER_ORDER) == Ok(GetText(c, r, now))
  {
    hide CanonicalHeaderKey, TrimSpace, Join, Covered, PreparedGet, TargetText, Signed, Four, Given, Signable;
    var p := PreparedGet(c, r, now);
    PreparedGetHas(c, r, now);
    GivenIsThere(r, "Accept", GET_TYPES);
    KnownKeys();
    KnownNames();
    CoversTarget(p);
    SameTarget(p, r);
    CoversHeader(p, "host");
    CoversHeader(p, "date");
    CoversHeader(p, "accept");
    JoinOne(r.urlHost, ", ");
    JoinOne(c.formatTime(now), ", ");
    var entries := [("(request-target)", TargetText(r)), ("host", r.urlHost), ("date", c.formatTime(now)),
                    ("accept", Join(Given(r, "Accept", GET_TYPES), ", "))];
    SignsLines(p, GET_HEADER_ORDER, entries);
    var lines := Lines(entries);
    assert lines == [lines[0], lines[1], lines[2], lines[3]];
    JoinFour(lines[0], lines[1], lines[2], lines[3]);
  }

  // ----- The request sent -----

  /**
    SignPost succeeds exactly if the URL has a host and the key signs this text; the request then has
    the four headers it covers, the signature over the text, and all its other headers as before.
   */
  lemma PostIsSignedIff(c: Crypto, r: Request, body: string, keyId: string, key: nat, now: int)
    ensures var (sent, ok) := SignedPost(c, r, body, keyId, key, now);
            var signature := c.sign(key, c.sha256(PostText(c, r, body, now)));
            && (ok <==> r.urlHost != "" && signature.Some?)
            && (ok ==>
                  && sent == r.(headers := sent.headers)
                  && Has(sent.headers, "Host", [r.urlHost]) && Has(sent.headers, "Date", [c.formatTime(now)])
                  && Has(sent.headers, "Digest", ["SHA-256=" + c.encode(c.sha256(body))])
                  && Has(sent.headers, "Content-Type", Given(r, "Content-Type", "application/activity+json"))
                  && Has(sent.headers, "Signature",
                         [SignatureValue(keyId, Join(HEADER_ORDER, " "), c.encode(signature.value))])
                  && forall k | k !in {"Host", "Date", "Digest", "Content-Type", "Signature"} ::
                       At(sent.headers, k) == At(r.headers, k))
  {
    hide CanonicalHeaderKey, TrimSpace, Join, PreparedPost, PostText, Given, Signable, SignatureValue;
    PreparedPostHas(c, r, body, now);
    PostTextIsSigned(c, r, body, now);
    KnownKeys();
  }

  lemma GetIsSignedIff(c: Crypto, r: Request, keyId: string, key: nat, now: int)
    ensures var (sent, ok) := SignedGet(c, r, keyId, key, now);
            var signature := c.sign(key, c.sha256(GetText(c, r, now)));
            && (ok <==> r.urlHost != "" && signature.Some?)
            && (ok ==>
                  && sent == r.(headers := sent.headers)
                  && Has(sent.headers, "Host", [r.urlHost]) && Has(sent.headers, "Date", [c.formatTime(now)])
                  && Has(sent.headers, "Accept", Given(r, "Accept", GET_TYPES))
                  && Has(sent.headers, "Signature",
                         [SignatureValue(keyId, Join(GET_HEADER_ORDER, " "), c.encode(signature.value))])
                  && forall k | k !in {"Host", "Date", "Accept", "Signature"} ::
                       At(sent.headers, k) == At(r.headers, k))
  {
    hide CanonicalHeaderKey, TrimSpace, Join, PreparedGet, GetText, Given, Signable, SignatureValue;
    PreparedGetHas(c, r, now);
    GetTextIsSigned(c, r, now);
    KnownKeys();
  }

  // ----- What the verifier accepts -----

  /**
    A POST verifies exactly if its Digest is that of the body, its Signature header names one of the two
    algorithms, a list every name of which covers something, and a signature of those lines under the key,
    and its Date is within five minutes.
   */
  lemma PostVerifiesIff(c: Crypto, r: Request, body: string, key: nat, now: int)
    ensures var digest, date := TrimSpace(Get(r.headers, "Digest")), TrimSpace(Get(r.headers, "Date"));
            var header := Parse(Get(r.headers, "Signature"));
            PostVerifies(c, r, body, key, now) <==>
              && (exists e :: digest == "SHA-256=" + e && c.decode(e) == Some(c.sha256(body)))
              && header.Ok? && SignatureFits(c, r, key, header.value)
              && date != "" && c.parseTime(date).Some?
              && -300_000_000_000 <= now - c.parseTime(date).value <= 300_000_000_000
  {
    hide Get, Parse, TrimSpace, ParamsVerify, SignatureFits;
    var digest := TrimSpace(Get(r.headers, "Digest"));
    DigestFits(c, Get(r.headers, "Digest"), body);
    BlankDoesNotParse();
    if Parse(Get(r.headers, "Signature")).Ok? {
      FittingVerifies(c, r, key, Parse(Get(r.headers, "Signature")).value, true);
    }
  }

  /** A GET has no body; a list with a digest is refused. */
  lemma GetVerifiesIff(c: Crypto, r: Request, key: nat, now: int)
    ensures var date, header := TrimSpace(Get(r.headers, "Date")), Parse(Get(r.headers, "Signature"));
            GetVerifies(c, r, key, now) <==>
              && header.Ok? && SignatureFits(c, r, key, header.value)
              && (forall n | n in Fields(header.value["headers"]) :: ToLower(TrimSpace(n)) != "digest")
              && date != "" && c.parseTime(date).Some?
              && -300_000_000_000 <= now - c.parseTime(date).value <= 300_000_000_000
  {
    hide Get, Parse, TrimSpace, ParamsVerify, ToLower, Fields, Covered, Lines, Join;
    BlankDoesNotParse();
    if Parse(Get(r.headers, "Signature")).Ok? {
      FittingVerifies(c, r, key, Parse(Get(r.headers, "Signature")).value, false);
    }
  }

  lemma DigestFits(c: Crypto, header: string, body: string)
    ensures DigestMatches(c, header, body) <==>
              exists e :: TrimSpace(header) == "SHA-256=" + e && c.decode(e) == Some(c.sha256(body))
  {
    hide TrimSpace;
    var t := TrimSpace(header);
    if |t| >= 8 && t[..8] == "SHA-256=" {
      assert t == "SHA-256=" + t[8..];
    }
    if e :| t == "SHA-256=" + e && c.decode(e) == Some(c.sha256(body)) {
      assert t[..8] == "SHA-256=" && t[8..] == e;
    }
  }

  lemma NoFieldsInBlank()
    ensures Fields("") == []
  {
  }

  lemma FittingVerifies(c: Crypto, r: Request, key: nat, params: map<string, string>, mayCoverDigest: bool)
    ensures ParamsVerify(c, r, key, params, mayCoverDigest) <==>
              && SignatureFits(c, r, key, params)
              && (mayCoverDigest || forall n | n in Fields(params["headers"]) :: ToLower(TrimSpace(n)) != "digest")
  {
    hide ToLower, TrimSpace, Fields, Covered, Lines, Join, Signable;
    NoFieldsInBlank();
    if "headers" in params {
      SignableIff(r, Fields(params["headers"]));
    }
  }

  lemma SignableIff(r: Request, names: seq<string>)
    ensures Signable(r, names).Ok? <==> forall i | 0 <= i < |names| :: Covered(r, names[i]).Some?
    ensures forall entries: seq<(string, string)>
              | |entries| == |names| && (forall i | 0 <= i < |names| :: Covered(r, names[i]) == Some(entries[i])) ::
              Signable(r, names) == Ok(Join(Lines(entries), "\n"))
    ensures Signable(r, names).Ok? ==> exists entries: seq<(string, string)> ::
              && |entries| == |names| && (forall i | 0 <= i < |names| :: Covered(r, names[i]) == Some(entries[i]))
              && Signable(r, names) == Ok(Join(Lines(entries), "\n"))
  {
    hide Covered, Lines, Join;
    forall entries: seq<(string, string)>
      | |entries| == |names| && (forall i | 0 <= i < |names| :: Covered(r, names[i]) == Some(entries[i]))
      ensures Signable(r, names) == Ok(Join(Lines(entries), "\n"))
    {
      SignsLines(r, names, entries);
    }
    if Signable(r, names).Ok? {
      var entries := CoveredAll(r, names).value;
      assert |entries| == |names| && (forall i | 0 <= i < |names| :: Covered(r, names[i]) == Some(entries[i]));
    }
  }

  /** The parameters carry a signature, under the key, of the lines that the listed names cover. */
  ghost predicate SignatureFits(c: Crypto, r: Request, key: nat, params: map<string, string>) {
    && "algorithm" in params && params["algorithm"] in {"rsa-sha256", "hs2019"}
    && "signature" in params && params["signature"] != "" && c.decode(params["signature"]).Some?
    && "headers" in params && Fields(params["headers"]) != []
    && var names := Fields(params["headers"]);
    && (forall i | 0 <= i < |names| :: Covered(r, names[i]).Some?)
    && exists entries: seq<(string, string)> :: |entries| == |names|
         && (forall i | 0 <= i < |names| :: Covered(r, names[i]) == Some(entries[i]))
         && c.verify(key, c.sha256(Join(Lines(entries), "\n")), c.decode(params["signature"]).value)
  }
}
