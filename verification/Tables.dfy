/**
  The federation tables and the SQL statements on them (store/follows.go,
  store/federated_interactions.go, store/federated_objects.go, store/federation.go).

  `Db` is a snapshot of all tables. An actor is identified by its canonical URL, the unique
  key of the `actors` table.
 */
module Tables {
  import opened Wrappers
  import opened Vocabulary
  import SqlQueue

  datatype FollowState = Pending | Accepted | Rejected | PendingRemote

  datatype Edge = Edge(state: FollowState, id: string)

  /**
    A row of `activities`. `origin` is not a column: it records which transaction wrote the
    row, for an outbox post together with the inboxes it was resolved to.
   */
  datatype Origin = Inbound | Outbox(inboxes: seq<string>)

  datatype ActivityRow = ActivityRow(dbId: nat, actor: string, doc: Activity, origin: Origin)

  datatype ObjectRow = ObjectRow(owner: string, kind: Kind, content: string, deleted: bool)

  /** Likes, announces and blocks: (actor, object) to activity id, both unique. */
  type Interactions = map<(string, string), string>

  datatype Db = Db(
    activities: map<string, ActivityRow>,
    nextDbId: nat,
    follows: map<(string, string), Edge>,
    likes: Interactions,
    announces: Interactions,
    blocks: Interactions,
    objects: map<string, ObjectRow>,
    jobs: SqlQueue.Table)

  // ----- follows -----

  /** UNIQUE (follow_activity_id), seen by an upsert of `pair` */
  predicate FollowIdTaken(follows: map<(string, string), Edge>, pair: (string, string), id: string) {
    exists p | p in follows :: p != pair && follows[p].id == id
  }

  function PutFollow(follows: map<(string, string), Edge>, follower: string, followee: string, id: string,
                     state: FollowState): Result<map<(string, string), Edge>> {
    if id == "" || FollowIdTaken(follows, (follower, followee), id) then Err
    else Ok(follows[(follower, followee) := Edge(state, id)])
  }

  predicate FollowMatches(follows: map<(string, string), Edge>, p: (string, string), id: string, follower: string) {
    p in follows && follows[p].id == id && p.0 == follower
  }

  function SetFollowState(follows: map<(string, string), Edge>, id: string, state: FollowState,
                          follower: string): map<(string, string), Edge> {
    map p | p in follows ::
      if FollowMatches(follows, p, id, follower) then follows[p].(state := state) else follows[p]
  }

  function DeleteFollow(follows: map<(string, string), Edge>, id: string,
                        follower: string): map<(string, string), Edge> {
    map p | p in follows && !FollowMatches(follows, p, id, follower) :: follows[p]
  }

  lemma DeleteFollowChangesIffMatched(follows: map<(string, string), Edge>, id: string, follower: string)
    ensures DeleteFollow(follows, id, follower) != follows <==> exists p :: FollowMatches(follows, p, id, follower)
  {
    if p :| FollowMatches(follows, p, id, follower) {
      assert p !in DeleteFollow(follows, id, follower);
    } else {
      assert DeleteFollow(follows, id, follower) == follows;
    }
  }

  /** SELECT .. WHERE follow_activity_id = $1: at most one row, by the unique index */
  predicate FollowWithId(follows: map<(string, string), Edge>, id: string, p: (string, string)) {
    p in follows && follows[p].id == id
  }

  ghost function FindFollow(follows: map<(string, string), Edge>, id: string): (r: Option<(string, string)>)
    ensures r.None? <==> forall p :: !FollowWithId(follows, id, p)
    ensures r.Some? ==> FollowWithId(follows, id, r.value)
  {
    if exists p :: FollowWithId(follows, id, p) then
      var p :| FollowWithId(follows, id, p);
      Some(p)
    else None
  }

  predicate UniqueFollowIds(follows: map<(string, string), Edge>) {
    forall p, q | p in follows && q in follows && follows[p].id == follows[q].id :: p == q
  }

  // ----- likes, announces, blocks -----

  predicate IdTaken(m: Interactions, key: (string, string), id: string) {
    exists k | k in m :: k != key && m[k] == id
  }

  function PutInteraction(m: Interactions, actor: string, obj: string, id: string): Result<Interactions> {
    if id == "" || IdTaken(m, (actor, obj), id) then Err else Ok(m[(actor, obj) := id])
  }

  /** Likes and announces keep the object as written. */
  function PutReaction(m: Interactions, actor: string, obj: string, id: string): Result<Interactions> {
    if obj == "" then Err else PutInteraction(m, actor, obj, id)
  }

  /** Blocks keep the canonical form of the blocked actor. */
  function PutBlock(m: Interactions, actor: string, blocked: string, id: string): Result<Interactions> {
    if blocked == "" then Err else PutInteraction(m, actor, Canonical(blocked), id)
  }

  predicate RowMatches(m: Interactions, k: (string, string), id: string, actor: string) {
    k in m && m[k] == id && k.0 == actor
  }

  function DeleteById(m: Interactions, id: string, actor: string): Interactions {
    map k | k in m && !RowMatches(m, k, id, actor) :: m[k]
  }

  lemma DeleteChangesIffMatched(m: Interactions, id: string, actor: string)
    ensures DeleteById(m, id, actor) != m <==> exists k :: RowMatches(m, k, id, actor)
  {
    if k :| RowMatches(m, k, id, actor) {
      assert k !in DeleteById(m, id, actor);
    } else {
      assert DeleteById(m, id, actor) == m;
    }
  }

  predicate UniqueIds(m: Interactions) {
    forall k, l | k in m && l in m && m[k] == m[l] :: k == l
  }

  // ----- objects -----

  function UpsertObject(objects: map<string, ObjectRow>, url: string, owner: string, kind: Kind,
                        content: string): Result<map<string, ObjectRow>> {
    if url == "" then Err else Ok(objects[url := ObjectRow(owner, kind, content, false)])
  }

  function SoftDelete(objects: map<string, ObjectRow>, url: string): Result<map<string, ObjectRow>> {
    if url == "" then Err
    else if url in objects && !objects[url].deleted then Ok(objects[url := objects[url].(deleted := true)])
    else Ok(objects)
  }

  /** ObjectOwnerActorID: live rows only */
  function Owner(objects: map<string, ObjectRow>, url: string): Option<string> {
    if url in objects && !objects[url].deleted then Some(objects[url].owner) else None
  }

  // ----- activities -----

  function ActivityRowFor(db: Db, actor: string, doc: Activity, origin: Origin): ActivityRow {
    ActivityRow(db.nextDbId, actor, doc, origin)
  }

  /** INSERT .. ON CONFLICT (activity_id) DO NOTHING; None when the id is already stored */
  function InsertActivity(db: Db, actor: string, doc: Activity, origin: Origin): Option<Db> {
    if doc.id in db.activities then None
    else
      Some(db.(activities := db.activities[doc.id := ActivityRowFor(db, actor, doc, origin)],
               nextDbId := db.nextDbId + 1))
  }

  // ----- The database object -----

  class Database {
    var activities: map<string, ActivityRow>
    var nextDbId: nat
    var follows: map<(string, string), Edge>
    var likes: Interactions
    var announces: Interactions
    var blocks: Interactions
    var objects: map<string, ObjectRow>
    var jobs: SqlQueue.Table

    function Snapshot(): Db
      reads this
    {
      Db(activities, nextDbId, follows, likes, announces, blocks, objects, jobs)
    }

    /** Makes a transaction's working copy permanent. */
    method Commit(db: Db)
      modifies this
      ensures Snapshot() == db
    {
      activities, nextDbId := db.activities, db.nextDbId;
      follows, likes, announces, blocks := db.follows, db.likes, db.announces, db.blocks;
      objects, jobs := db.objects, db.jobs;
    }

    /** Fails exactly when another edge carries the follow id; keeps follow ids unique. */
    method UpsertFollow(follower: string, followee: string, id: string, state: FollowState) returns (ok: bool)
      modifies this`follows
      ensures !ok <==> id == "" || FollowIdTaken(old(follows), (follower, followee), id)
      ensures follows == if ok then old(follows)[(follower, followee) := Edge(state, id)] else old(follows)
      ensures UniqueFollowIds(old(follows)) ==> UniqueFollowIds(follows)
    {
      var r := PutFollow(follows, follower, followee, id, state);
      if r.Err? {
        return false;
      }
      follows := r.value;
      return true;
    }

    /** Only the follower's edge with this id changes, and only its state; ids being unique, that is one edge. */
    method SetFollowStateByFollowActivityIDForFollower(id: string, state: FollowState, follower: string)
      modifies this`follows
      ensures follows.Keys == old(follows).Keys
      ensures forall p | p in follows ::
                follows[p] == if FollowMatches(old(follows), p, id, follower) then Edge(state, id) else old(follows)[p]
      ensures UniqueFollowIds(old(follows)) ==>
                forall p, q | p in follows && q in follows && follows[p] != old(follows)[p]
                              && follows[q] != old(follows)[q] ::
                  p == q
      ensures follows == SetFollowState(old(follows), id, state, follower)
    {
      follows := SetFollowState(follows, id, state, follower);
    }

    /** DELETE; `affected` is RowsAffected() > 0 */
    method DeleteFollowById(id: string, follower: string) returns (affected: bool)
      modifies this`follows
      ensures affected <==> exists p :: FollowMatches(old(follows), p, id, follower)
      ensures forall p :: p in follows <==> p in old(follows) && !FollowMatches(old(follows), p, id, follower)
      ensures !affected <==> follows == old(follows)
      ensures follows == DeleteFollow(old(follows), id, follower)
    {
      var rest := DeleteFollow(follows, id, follower);
      affected := rest != follows;
      DeleteFollowChangesIffMatched(follows, id, follower);
      follows := rest;
    }

    method DeleteLikeById(id: string, actor: string) returns (affected: bool)
      modifies this`likes
      ensures affected <==> exists k :: RowMatches(old(likes), k, id, actor)
      ensures forall k :: k in likes <==> k in old(likes) && !RowMatches(old(likes), k, id, actor)
      ensures !affected <==> likes == old(likes)
      ensures likes == DeleteById(old(likes), id, actor)
    {
      var rest := DeleteById(likes, id, actor);
      affected := rest != likes;
      DeleteChangesIffMatched(likes, id, actor);
      likes := rest;
    }

    method DeleteAnnounceById(id: string, actor: string) returns (affected: bool)
      modifies this`announces
      ensures affected <==> exists k :: RowMatches(old(announces), k, id, actor)
      ensures forall k :: k in announces <==> k in old(announces) && !RowMatches(old(announces), k, id, actor)
      ensures !affected <==> announces == old(announces)
      ensures announces == DeleteById(old(announces), id, actor)
    {
      var rest := DeleteById(announces, id, actor);
      affected := rest != announces;
      DeleteChangesIffMatched(announces, id, actor);
      announces := rest;
    }

    method DeleteBlockById(id: string, actor: string) returns (affected: bool)
      modifies this`blocks
      ensures affected <==> exists k :: RowMatches(old(blocks), k, id, actor)
      ensures forall k :: k in blocks <==> k in old(blocks) && !RowMatches(old(blocks), k, id, actor)
      ensures !affected <==> blocks == old(blocks)
      ensures blocks == DeleteById(old(blocks), id, actor)
    {
      var rest := DeleteById(blocks, id, actor);
      affected := rest != blocks;
      DeleteChangesIffMatched(blocks, id, actor);
      blocks := rest;
    }

    /** Fails exactly on a blank object or when another row carries the id; keeps ids unique. */
    method UpsertLike(actor: string, obj: string, id: string) returns (ok: bool)
      modifies this`likes
      ensures !ok <==> obj == "" || id == "" || IdTaken(old(likes), (actor, obj), id)
      ensures likes == if ok then old(likes)[(actor, obj) := id] else old(likes)
      ensures UniqueIds(old(likes)) ==> UniqueIds(likes)
    {
      var r := PutReaction(likes, actor, obj, id);
      ok := r.Ok?;
      if ok {
        likes := r.value;
      }
    }

    /** Fails exactly on a blank object or when another row carries the id; keeps ids unique. */
    method UpsertAnnounce(actor: string, obj: string, id: string) returns (ok: bool)
      modifies this`announces
      ensures !ok <==> obj == "" || id == "" || IdTaken(old(announces), (actor, obj), id)
      ensures announces == if ok then old(announces)[(actor, obj) := id] else old(announces)
      ensures UniqueIds(old(announces)) ==> UniqueIds(announces)
    {
      var r := PutReaction(announces, actor, obj, id);
      ok := r.Ok?;
      if ok {
        announces := r.value;
      }
    }

    /** The blocked actor is stored in canonical form. */
    method UpsertBlock(actor: string, blocked: string, id: string) returns (ok: bool)
      modifies this`blocks
      ensures !ok <==> blocked == "" || id == "" || IdTaken(old(blocks), (actor, Canonical(blocked)), id)
      ensures blocks == if ok then old(blocks)[(actor, Canonical(blocked)) := id] else old(blocks)
      ensures UniqueIds(old(blocks)) ==> UniqueIds(blocks)
    {
      hide Canonical;
      var r := PutBlock(blocks, actor, blocked, id);
      ok := r.Ok?;
      if ok {
        blocks := r.value;
      }
    }
  }
}
