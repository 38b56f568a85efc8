/**
  Why the network of `TwoInstances` is ideal: its assumption about signatures follows from
  what the shared inbox checks, once keys sign only what their instance sends.
 */
module Admission {
  import opened Wrappers
  import opened Text
  import opened Vocabulary
  import opened SigningString
  import opened Signing
  import opened Authenticity
  import opened Ingress
  import Inbox
  import Federation
  import TwoInstances

  /**
    Under the keys of the actors of `other`, only what that server signs was ever signed, and
    its signed POSTs carry only bodies that it has put on the wire.
   */
  ghost predicate SignsOnlySent(c: Crypto, d: Directory, signed: nat -> set<SignedRequest>,
                                decode: string -> Option<Activity>, other: Inbox.Instance, sent: set<Activity>) {
    forall keyId, actor |
      && SigningActorMatchesKeyID(d, keyId, actor) && other.isLocal(TrimRight(actor, '/')) && d.keyOf(keyId).Some? ::
        ServerKey(c, d.keyOf(keyId).value, signed(d.keyOf(keyId).value), decode, sent)
  }

  ghost predicate ServerKey(c: Crypto, key: nat, signed: set<SignedRequest>, decode: string -> Option<Activity>,
                            sent: set<Activity>) {
    && Unforgeable(c, key, signed)
    && forall a | a in signed ::
         && SignedByServer(a)
         && (a.names == HEADER_ORDER ==> decode(a.body).Some? && decode(a.body).value in sent)
  }

  /** A document that the shared inbox accepts from its sender is one the network of two instances admits. */
  lemma AcceptedDocumentsAreAdmissible(c: Crypto, d: Directory, signed: nat -> set<SignedRequest>,
                                       decode: string -> Option<Activity>, other: Inbox.Instance, sent: set<Activity>,
                                       r: Request, body: string, doc: Activity, now: int)
    requires Ideal(c) && CollisionFree(c) && SignsOnlySent(c, d, signed, decode, other, sent)
    requires WireOk(r) && ToLower(r.verb) == "post" && Sender(c, d, r, body, now).Some?
    requires decode(body) == Some(doc) && d.actorOf(body) == Some(doc.actor)
    ensures TwoInstances.Admissible(other, sent, Federation.Deliver(doc, now))
  {
    hide Ideal, CollisionFree, WireOk, Sender, TrimRight, SigningActorMatchesKeyID, PostVerifies, Unforgeable,
      SignedByServer, ToLower;
    var keyId := SenderKey(c, d, r, body, now);
    var key := d.keyOf(keyId).value;
    if other.isLocal(TrimRight(doc.actor, '/')) {
      assert ServerKey(c, key, signed(key), decode, sent);
      AcceptedPostIsTheServers(c, key, signed(key), r, body, now);
      var a :| a in signed(key) && SamePost(a, r, body);
      assert decode(a.body).value in sent;
    }
  }
}
