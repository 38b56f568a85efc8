/** From the audience of a public post to the deliver jobs of its followers. */
module PublicPosts {
  import opened Wrappers
  import opened Text
  import Fanout
  import opened Tables
  import opened Inbox
  import opened Federation
  import Guarantees

  /**
    In every reachable state a stored outbox activity whose inboxes were resolved from `fields`
    has a deliver job for an inbox exactly if an addressee leads there and it is not the
    instance's own; in a public one that includes the inbox of every follower listed then.
   */
  lemma PostsReachListedFollowers(cfg: Instance, run: seq<Action>, id: string,
                                  env: Fanout.Env, fields: Fanout.Fields, followers: seq<string>, inbox: string)
    requires id in Exec(cfg, INITIAL, run).db.activities && Exec(cfg, INITIAL, run).db.activities[id].origin.Outbox?
    requires Fanout.Public(fields)
    requires Fanout.DeliveryInboxes(env, Fanout.WithFollowers(fields, followers))
             == Ok(Exec(cfg, INITIAL, run).db.activities[id].origin.inboxes)
    ensures var db := Exec(cfg, INITIAL, run).db;
            DeliverJobIn(db.jobs, db.activities[id], inbox) <==>
              && inbox != TrimRight(env.sharedInbox, '/')
              && exists e :: e != "" && Fanout.LeadsTo(env, e, inbox)
                   && (Fanout.Addressed(fields, e) || exists f | f in followers :: TrimSpace(f) == e)
  {
    hide Exec, Fanout.Public, Fanout.DeliveryInboxes, Fanout.WithFollowers, Fanout.LeadsTo, Fanout.Addressed,
      TrimSpace, TrimRight, DeliverJobIn;
    var next := Fanout.WithFollowers(fields, followers);
    Guarantees.JobsMatchActivities(cfg, run, id, inbox);
    Fanout.DeliveryIsExact(env, next);
    forall e | e != ""
      ensures Fanout.Addressed(next, e) <==> Fanout.Addressed(fields, e) || exists f | f in followers ::
          TrimSpace(f) == e
    {
      Fanout.FollowersAreAddressed(fields, followers, e);
    }
    Fanout.BlankIsNotAddressed(next);
  }

  predicate Follows(follows: map<(string, string), Edge>, follower: string, user: string) {
    (follower, user) in follows && follows[(follower, user)].state == Accepted
  }

  /** `followers` is what ListAcceptedFollowerActorURLs returned after the run `read`. */
  ghost predicate ListsFollowers(cfg: Instance, read: seq<Action>, user: string, followers: seq<string>) {
    forall f :: f in followers <==> Follows(Exec(cfg, INITIAL, read).db.follows, f, user)
  }

  /**
    The list of followers being read from the table in some state, later reached states have a
    deliver job for an inbox exactly if an addressee, or an actor whose follow of the author was
    accepted when the list was read, leads there and it is not the instance's own.
   */
  lemma PublicPostsReachFollowers(cfg: Instance, read: seq<Action>, run: seq<Action>, id: string, env: Fanout.Env,
                                  fields: Fanout.Fields, followers: seq<string>, inbox: string)
    requires id in Exec(cfg, INITIAL, run).db.activities && Exec(cfg, INITIAL, run).db.activities[id].origin.Outbox?
    requires ListsFollowers(cfg, read, Exec(cfg, INITIAL, run).db.activities[id].actor, followers)
    requires Fanout.Public(fields)
    requires Fanout.DeliveryInboxes(env, Fanout.WithFollowers(fields, followers))
             == Ok(Exec(cfg, INITIAL, run).db.activities[id].origin.inboxes)
    ensures var db := Exec(cfg, INITIAL, run).db; var back := Exec(cfg, INITIAL, read).db.follows;
            DeliverJobIn(db.jobs, db.activities[id], inbox) <==>
              && inbox != TrimRight(env.sharedInbox, '/')
              && exists e :: e != "" && Fanout.LeadsTo(env, e, inbox)
                   && (Fanout.Addressed(fields, e)
                       || exists f :: Follows(back, f, db.activities[id].actor) && TrimSpace(f) == e)
  {
    hide Exec, Fanout.Public, Fanout.DeliveryInboxes, Fanout.WithFollowers, Fanout.LeadsTo, Fanout.Addressed,
      TrimSpace, TrimRight, DeliverJobIn, Follows;
    PostsReachListedFollowers(cfg, run, id, env, fields, followers, inbox);
    var user, follows := Exec(cfg, INITIAL, run).db.activities[id].actor, Exec(cfg, INITIAL, read).db.follows;
    assert forall f :: f in followers <==> Follows(follows, f, user);
  }

  /** So every follower accepted by then whose reference resolves gets a job, unless it lives on this instance. */
  lemma EveryFollowerGetsAJob(cfg: Instance, read: seq<Action>, run: seq<Action>, id: string, env: Fanout.Env,
                              fields: Fanout.Fields, followers: seq<string>, follower: string)
    requires id in Exec(cfg, INITIAL, run).db.activities && Exec(cfg, INITIAL, run).db.activities[id].origin.Outbox?
    requires ListsFollowers(cfg, read, Exec(cfg, INITIAL, run).db.activities[id].actor, followers)
    requires Fanout.Public(fields)
    requires Fanout.DeliveryInboxes(env, Fanout.WithFollowers(fields, followers))
             == Ok(Exec(cfg, INITIAL, run).db.activities[id].origin.inboxes)
    requires Follows(Exec(cfg, INITIAL, read).db.follows, follower, Exec(cfg, INITIAL, run).db.activities[id].actor)
    requires TrimSpace(follower) != "" && Fanout.Wanted(env, TrimSpace(follower))
    ensures var db := Exec(cfg, INITIAL, run).db; var inbox := env.inboxOf(TrimSpace(follower));
            && inbox.Some?
            && (TrimRight(inbox.value, '/') == TrimRight(env.sharedInbox, '/')
                || DeliverJobIn(db.jobs, db.activities[id], TrimRight(inbox.value, '/')))
  {
    hide Exec, Fanout.Public, Fanout.DeliveryInboxes, Fanout.WithFollowers, Fanout.Addressed, Fanout.Wanted,
      TrimSpace, TrimRight, DeliverJobIn, Follows;
    var e := TrimSpace(follower);
    assert follower in followers;
    Fanout.DeliveryIsExact(env, Fanout.WithFollowers(fields, followers));
    Fanout.FollowersAreAddressed(fields, followers, e);
    var n := TrimRight(env.inboxOf(e).value, '/');
    assert Fanout.LeadsTo(env, e, n);
    PublicPostsReachFollowers(cfg, read, run, id, env, fields, followers, n);
  }
}
