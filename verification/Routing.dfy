/** Fan-out with references resolved the way the server does it: along chains of actor documents. */
module Routing {
  import opened Wrappers
  import opened Text
  import opened InboxResolution
  import Fanout

  /** What the resolver makes of a reference. */
  function InboxOf(web: Web, ref: string): Option<string> {
    match Resolve(web, ref, 0, {}).r
    case Ok(inbox) => Some(inbox)
    case Err => None
  }

  function Routed(web: Web, isLocalCollection: string -> bool, sharedInbox: string): Fanout.Env {
    Fanout.Env(isLocalCollection, ref => InboxOf(web, ref), sharedInbox)
  }

  lemma InboxEndsAChain(web: Web, e: string, n: string)
    ensures InboxOf(web, e) == Some(n) <==> exists urls :: EndsAt(web, e, urls, n)
  {
    hide Resolve, EndsAt;
    ResolvesToTheEndOfTheChain(web, e, n);
  }

  lemma ChainEndsTrimmed(web: Web, e: string, urls: seq<Url>, n: string)
    requires EndsAt(web, e, urls, n)
    ensures TrimRight(n, '/') == n
  {
    hide Acyclic, Allowed;
    assert n == TrimRight(Last(urls).text, '/');
  }

  /** An entry leads to an inbox exactly along a chain that ends there. */
  lemma LeadsAlongAChain(web: Web, isLocalCollection: string -> bool, sharedInbox: string, e: string, n: string)
    ensures var env := Routed(web, isLocalCollection, sharedInbox);
            Fanout.LeadsTo(env, e, n) <==> Fanout.Wanted(env, e) && exists urls :: EndsAt(web, e, urls, n)
  {
    hide EndsAt, TrimRight, Fanout.Wanted, InboxOf;
    InboxEndsAChain(web, e, n);
    if InboxOf(web, e).Some? {
      InboxEndsAChain(web, e, InboxOf(web, e).value);
      var urls :| EndsAt(web, e, urls, InboxOf(web, e).value);
      ChainEndsTrimmed(web, e, urls, InboxOf(web, e).value);
    }
  }

  lemma HasInboxIffChain(web: Web, e: string)
    ensures InboxOf(web, e).Some? <==> exists urls, n :: EndsAt(web, e, urls, n)
  {
    hide EndsAt, InboxOf;
    if InboxOf(web, e).Some? {
      InboxEndsAChain(web, e, InboxOf(web, e).value);
    }
    forall urls, n | EndsAt(web, e, urls, n) ensures InboxOf(web, e).Some? {
      InboxEndsAChain(web, e, n);
    }
  }

  /**
    Delivery fails exactly if some addressee has no followable chain to an inbox; otherwise its
    inboxes are, once each, the ends of the addressees' chains, without the instance's own.
   */
  lemma DeliveryFollowsChains(web: Web, isLocalCollection: string -> bool, sharedInbox: string, m: Fanout.Fields)
    ensures var env := Routed(web, isLocalCollection, sharedInbox); var r := Fanout.DeliveryInboxes(env, m);
            r.Ok? <==> forall e | Fanout.Addressed(m, e) && Fanout.Wanted(env, e) ::
                         exists urls, n :: EndsAt(web, e, urls, n)
    ensures var env := Routed(web, isLocalCollection, sharedInbox); var r := Fanout.DeliveryInboxes(env, m);
            r.Ok? ==> NoDuplicates(r.value) && forall n :: n in r.value <==>
              && n != TrimRight(sharedInbox, '/')
              && exists e, urls :: Fanout.Addressed(m, e) && Fanout.Wanted(env, e) && EndsAt(web, e, urls, n)
  {
    hide Fanout.DeliveryInboxes, Fanout.Addressed, Fanout.Wanted, Fanout.LeadsTo, EndsAt, InboxOf, TrimRight,
      NoDuplicates;
    var env := Routed(web, isLocalCollection, sharedInbox);
    Fanout.DeliveryIsExact(env, m);
    forall e ensures env.inboxOf(e).Some? <==> exists urls, n :: EndsAt(web, e, urls, n) {
      HasInboxIffChain(web, e);
    }
    forall e, n
      ensures Fanout.LeadsTo(env, e, n) <==> Fanout.Wanted(env, e) && exists urls :: EndsAt(web, e, urls, n)
    {
      LeadsAlongAChain(web, isLocalCollection, sharedInbox, e, n);
    }
  }
}
