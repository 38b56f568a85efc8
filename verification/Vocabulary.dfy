/**
  The documents that travel between servers, reduced to the fields the server reads, and
  the payloads of queued jobs.
 */
module Vocabulary {
  import opened Wrappers
  import opened Text

  /** Normalised activity and object types; `Other` is every type without a handler. */
  datatype Kind =
    | Create | Update | Delete
    | Follow | Accept | Reject | Undo
    | Like | Announce | Block
    | Other(name: string)

  /** A JSON value as far as references go: an object counts only by its `id`. */
  datatype Json =
    | Null
    | Str(s: string)
    | Arr(elems: seq<Json>)
    | Obj(id: Option<string>)
    | Scalar

  /** The `object` field: absent, an IRI string, or an embedded object (`id == ""` when unusable). */
  datatype Object =
    | NoObject
    | Iri(iri: string)
    | Node(id: string, kind: Kind, attributedTo: Option<Json>, content: string)

  /**
    An activity document. `addressed` says whether its audience fields reach this instance
    (internal/inboxproc/audience.go).
   */
  datatype Activity = Activity(id: string, actor: string, kind: Kind, obj: Object, addressed: bool)
  {
    /** as2.ObjectIRI */
    function ObjectIri(): Option<string> {
      match obj
      case Iri(s) => if s != "" then Some(s) else None
      case Node(id, _, _, _) => if id != "" then Some(id) else None
      case NoObject => None
    }
  }

  datatype Payload =
    | ProcessPayload(activityDbId: nat)
    | DeliverPayload(inbox: string, body: Activity, user: string)

  /** store.CanonicalActorURL, also the two sides of inboxproc.actorsMatch */
  function Canonical(iri: string): string {
    TrimRight(TrimSpace(iri), '/')
  }

  /** refContainsActor: an IRI, an object with it as id, or a list with one of them at any depth */
  predicate RefContainsActor(j: Json, actor: string) {
    match j
    case Str(s) => s != "" && Canonical(s) == actor
    case Obj(id) => (if id.Some? then Canonical(id.value) else "") == actor
    case Arr(elems) => exists i | 0 <= i < |elems| :: RefContainsActor(elems[i], actor)
    case _ => false
  }
}
