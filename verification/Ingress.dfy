/**
  How the shared inbox finds out who sent a request (aphttp/handlers.go): the signature's key
  id names a key, the signature verifies under it, and the key id belongs to the activity's actor.
 */
module Ingress {
  import opened Wrappers
  import opened Text
  import opened SignatureHeader
  import opened SigningString
  import opened Signing
  import opened FaithfulSigning
  import opened Authenticity

  /** The key behind a key id, the actor in a decoded body, and a URL without its fragment. */
  datatype Directory = Directory(
    keyOf: string -> Option<nat>,
    actorOf: string -> Option<string>,
    withoutFragment: string -> Option<string>)

  predicate SigningActorMatchesKeyID(d: Directory, keyId: string, actor: string) {
    var k, a := d.withoutFragment(keyId), d.withoutFragment(actor);
    k.Some? && a.Some? && TrimRight(k.value, '/') == TrimRight(a.value, '/')
  }

  /** The actor the request is accepted from. */
  function Sender(c: Crypto, d: Directory, r: Request, body: string, now: int): Option<string> {
    match Parse(Get(r.headers, "Signature"))
    case Err => None
    case Ok(params) =>
      var keyId := Lookup(params, "keyid");
      if keyId == "" || d.keyOf(keyId).None? || !PostVerifies(c, r, body, d.keyOf(keyId).value, now) then None
      else
        match d.actorOf(body)
        case None => None
        case Some(actor) => if SigningActorMatchesKeyID(d, keyId, actor) then Some(actor) else None
  }

  method AuthenticateInbound(c: Crypto, d: Directory, r: Request, body: string, now: int)
    returns (actor: Option<string>)
    ensures actor == Sender(c, d, r, body, now)
  {
    hide Parse, PostVerifies, Get, SigningActorMatchesKeyID;
    var raw := Get(r.headers, "Signature");
    if raw == "" {
      BlankDoesNotParse();
      return None;
    }
    var params := ParseSignatureHeader(raw);
    if params.Err? {
      return None;
    }
    var keyId := Lookup(params.value, "keyid");
    if keyId == "" {
      return None;
    }
    var key := d.keyOf(keyId);
    if key.None? {
      return None;
    }
    var ok := VerifyRequest(c, r, body, key.value, now);
    if !ok {
      return None;
    }
    actor := d.actorOf(body);
    if actor.Some? && !SigningActorMatchesKeyID(d, keyId, actor.value) {
      return None;
    }
  }

  /**
    A request is accepted from an actor exactly if its signature verifies under the key it names, its
    body is of that actor, and key id and actor are the same URL but for fragments and trailing slashes.
   */
  lemma AcceptedIffKeyIsTheActors(c: Crypto, d: Directory, r: Request, body: string, now: int, actor: string)
    ensures Sender(c, d, r, body, now) == Some(actor) <==>
              && Parse(Get(r.headers, "Signature")).Ok?
              && var params := Parse(Get(r.headers, "Signature")).value;
              && "keyid" in params && params["keyid"] != "" && d.keyOf(params["keyid"]).Some?
              && PostVerifies(c, r, body, d.keyOf(params["keyid"]).value, now)
              && d.actorOf(body) == Some(actor)
              && var k, a := d.withoutFragment(params["keyid"]), d.withoutFragment(actor);
              k.Some? && a.Some? && TrimRight(k.value, '/') == TrimRight(a.value, '/')
  {
    hide Parse, Get, PostVerifies, TrimRight;
  }

  /** Under the keys of `actor` only these requests were ever signed. */
  ghost predicate UnforgeableFor(c: Crypto, d: Directory, actor: string, signed: nat -> set<SignedRequest>) {
    forall keyId | SigningActorMatchesKeyID(d, keyId, actor) && d.keyOf(keyId).Some? ::
      Unforgeable(c, d.keyOf(keyId).value, signed(d.keyOf(keyId).value))
  }

  /** The key that a sender was accepted by. */
  lemma SenderKey(c: Crypto, d: Directory, r: Request, body: string, now: int) returns (keyId: string)
    requires Sender(c, d, r, body, now).Some?
    ensures d.actorOf(body) == Sender(c, d, r, body, now)
    ensures Parse(Get(r.headers, "Signature")).Ok?
    ensures keyId == Lookup(Parse(Get(r.headers, "Signature")).value, "keyid")
    ensures d.keyOf(keyId).Some? && SigningActorMatchesKeyID(d, keyId, Sender(c, d, r, body, now).value)
    ensures PostVerifies(c, r, body, d.keyOf(keyId).value, now)
  {
    hide Parse, Get, PostVerifies, SigningActorMatchesKeyID;
    keyId := Lookup(Parse(Get(r.headers, "Signature")).value, "keyid");
  }

  /**
    A request accepted from an actor was signed with one of the actor's keys: with the same list,
    equal headers and target as far as they are listed, and the same body if the digest is.
   */
  lemma SenderSigned(c: Crypto, d: Directory, signed: nat -> set<SignedRequest>, r: Request, body: string, now: int)
    requires Ideal(c) && CollisionFree(c) && WireOk(r) && Sender(c, d, r, body, now).Some?
    requires UnforgeableFor(c, d, Sender(c, d, r, body, now).value, signed)
    ensures d.actorOf(body) == Sender(c, d, r, body, now)
    ensures exists keyId, a ::
              && Parse(Get(r.headers, "Signature")).Ok?
              && Lookup(Parse(Get(r.headers, "Signature")).value, "keyid") == keyId && d.keyOf(keyId).Some?
              && (var k, owner := d.withoutFragment(keyId), d.withoutFragment(Sender(c, d, r, body, now).value);
                  k.Some? && owner.Some? && TrimRight(k.value, '/') == TrimRight(owner.value, '/'))
              && a in signed(d.keyOf(keyId).value)
              && SameList(a, r) && Agree(a, r) && (Covers(Listed(r), "digest") ==> a.body == body)
  {
    hide Ideal, CollisionFree, WireOk, Sender, PostVerifies, SigningActorMatchesKeyID, SameList, Agree, Covers, Listed,
      Unforgeable, Parse, Get, TrimRight;
    var keyId := SenderKey(c, d, r, body, now);
    var key := d.keyOf(keyId).value;
    AcceptedPostWasSigned(c, key, signed(key), r, body, now);
    var a :| a in signed(key) && SameList(a, r) && Agree(a, r) && (Covers(Listed(r), "digest") ==> a.body == body);
    AcceptedIffKeyIsTheActors(c, d, r, body, now, Sender(c, d, r, body, now).value);
  }

  /** If the digest is not listed, the request is accepted from the same actor with any other activity of the actor. */
  lemma UnlistedDigestLeavesActivityFree(c: Crypto, d: Directory, r: Request, body: string, now: int, other: string)
    requires Ideal(c) && Sender(c, d, r, body, now).Some? && !Covers(Listed(r), "digest")
    requires d.actorOf(other) == d.actorOf(body)
    ensures Sender(c, d, WithBody(c, r, other), other, now) == Sender(c, d, r, body, now)
  {
    hide Ideal, CanonicalHeaderKey, Parse, PostVerifies, SigningActorMatchesKeyID, Covers, Listed, DigestHeader, Lookup;
    KnownKeys();
    OtherHeaderStays(r, "Digest", DigestHeader(c, other), "Signature");
    var keyId := Lookup(Parse(Get(r.headers, "Signature")).value, "keyid");
    UnlistedDigestLeavesBodyFree(c, d.keyOf(keyId).value, r, body, now, other);
  }

  /** Within the skew, a POST signed with an actor's key for an activity of that actor is accepted from that actor. */
  lemma SignedPostsComeThrough(c: Crypto, d: Directory, r: Request, body: string, keyId: string, key: nat, now: int,
                               b: Request, later: int)
    requires Ideal(c) && Plain(keyId) && keyId != "" && SignedPost(c, r, body, keyId, key, now).1
    requires SameRequest(SignedPost(c, r, body, keyId, key, now).0, b)
    requires d.keyOf(keyId) == Some(key) && d.actorOf(body).Some?
    ensures Sender(c, d, b, body, later) ==
              if -MAX_CLOCK_SKEW <= later - ToTheSecond(now) <= MAX_CLOCK_SKEW
                 && SigningActorMatchesKeyID(d, keyId, d.actorOf(body).value)
              then d.actorOf(body) else None
  {
    hide Ideal, Parse, Get, PostVerifies, SigningActorMatchesKeyID, SignedPost, SameRequest, Lookup;
    SignedPostIsAccepted(c, r, body, keyId, key, now, b, later);
  }
}
