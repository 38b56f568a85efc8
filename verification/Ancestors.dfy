/** The thread above a status: ancestorCreateChain of mastodonapi/v1_handlers.go. */
module Ancestors {
  import opened Wrappers
  import opened Text

  /** A stored activity; `inReplyTo` is absent when it is not a Create of a note, and may be blank. */
  datatype Row = Row(id: nat, inReplyTo: Option<string>, deleted: bool)

  /** FindCreateActivityByObjectNoteIRI */
  type Find = string -> Option<Row>

  const LIMIT: nat := 64

  function Parent(find: Find, row: Row): Option<Row> {
    match row.inReplyTo
    case None => None
    case Some(iri) =>
      if TrimSpace(iri) == "" then None
      else
        match find(TrimSpace(iri))
        case None => None
        case Some(p) => if p.deleted then None else Some(p)
  }

  /** The ancestors above `row`, at most `fuel` of them, up to the first id seen before. */
  function Chain(find: Find, row: Row, seen: set<nat>, fuel: nat): seq<Row>
    decreases fuel
  {
    match Parent(find, row)
    case None => []
    case Some(p) => if fuel == 0 || p.id in seen then [] else Chain(find, p, seen + {p.id}, fuel - 1) + [p]
  }

  lemma ChainGoesOn(find: Find, row: Row, seen: set<nat>, fuel: nat, p: Row)
    requires fuel > 0 && Parent(find, row) == Some(p) && p.id !in seen
    ensures Chain(find, row, seen, fuel) == Chain(find, p, seen + {p.id}, fuel - 1) + [p]
  {
  }

  lemma ChainStops(find: Find, row: Row, seen: set<nat>, fuel: nat)
    requires fuel == 0 || Parent(find, row).None? || Parent(find, row).value.id in seen
    ensures Chain(find, row, seen, fuel) == []
  {
  }

  method AncestorCreateChain(find: Find, start: Option<Row>) returns (chain: seq<Row>)
    ensures chain == if start.None? then [] else Chain(find, start.value, {}, LIMIT)
  {
    hide TrimSpace, Chain;
    chain := [];
    if start.None? {
      return;
    }
    var cur := start.value;
    var seen: set<nat> := {};
    var i := 0;
    while i < LIMIT
      invariant 0 <= i <= LIMIT
      invariant Chain(find, start.value, {}, LIMIT) == Chain(find, cur, seen, LIMIT - i) + chain
    {
      if cur.inReplyTo.None? {
        break;
      }
      var parentIri := TrimSpace(cur.inReplyTo.value);
      if parentIri == "" {
        break;
      }
      var parent := find(parentIri);
      if parent.None? || parent.value.deleted {
        break;
      }
      if parent.value.id in seen {
        break;
      }
      ChainGoesOn(find, cur, seen, LIMIT - i, parent.value);
      seen := seen + {parent.value.id};
      chain := [parent.value] + chain;
      cur := parent.value;
      i := i + 1;
    }
    ChainStops(find, cur, seen, LIMIT - i);
  }

  // ----- What the list is -----

  /** The live row that holds the note `row` replies to. */
  predicate IsParent(find: Find, row: Row, p: Row) {
    && row.inReplyTo.Some? && TrimSpace(row.inReplyTo.value) != "" && find(TrimSpace(row.inReplyTo.value)) == Some(p)
    && !p.deleted
  }

  lemma ParentIsTheParent(find: Find, row: Row)
    ensures forall p :: Parent(find, row) == Some(p) <==> IsParent(find, row, p)
  {
    hide TrimSpace;
  }

  /** Root first: each entry is the parent of the next one, the last one is the parent of `start`. */
  predicate Linked(find: Find, start: Row, list: seq<Row>) {
    && (list != [] ==> IsParent(find, start, list[|list| - 1]))
    && (forall i | 0 <= i < |list| - 1 :: IsParent(find, list[i + 1], list[i]))
  }

  function Top(start: Row, list: seq<Row>): Row {
    if list == [] then start else list[0]
  }

  predicate DistinctIds(list: seq<Row>) {
    forall i, j | 0 <= i < j < |list| :: list[i].id != list[j].id
  }

  predicate Avoids(list: seq<Row>, seen: set<nat>) {
    forall row | row in list :: row.id !in seen
  }

  lemma LinkedAbove(find: Find, start: Row, p: Row, above: seq<Row>)
    requires IsParent(find, start, p)
    ensures Linked(find, p, above) <==> Linked(find, start, above + [p])
  {
    hide IsParent;
    var list := above + [p];
    if Linked(find, p, above) {
      forall i | 0 <= i < |list| - 1 ensures IsParent(find, list[i + 1], list[i]) {
        if i + 1 < |above| {
          assert IsParent(find, above[i + 1], above[i]);
        }
      }
    }
    if Linked(find, start, list) {
      forall i | 0 <= i < |above| - 1 ensures IsParent(find, above[i + 1], above[i]) {
        assert IsParent(find, list[i + 1], list[i]);
      }
      if above != [] {
        assert IsParent(find, list[|above| - 1 + 1], list[|above| - 1]);
      }
    }
  }

  lemma {:induction false} ChainIsLinked(find: Find, row: Row, seen: set<nat>, fuel: nat)
    ensures var c := Chain(find, row, seen, fuel);
            && Linked(find, row, c) && DistinctIds(c) && Avoids(c, seen) && |c| <= fuel
            && (|c| == fuel || Parent(find, Top(row, c)).None?
                || Parent(find, Top(row, c)).value.id in seen
                || exists r | r in c :: r.id == Parent(find, Top(row, c)).value.id)
    decreases fuel
  {
    hide Parent, IsParent;
    ParentIsTheParent(find, row);
    var parent := Parent(find, row);
    if parent.Some? && fuel > 0 && parent.value.id !in seen {
      var p := parent.value;
      var above := Chain(find, p, seen + {p.id}, fuel - 1);
      ChainIsLinked(find, p, seen + {p.id}, fuel - 1);
      LinkedAbove(find, row, p, above);
      assert p in above + [p];
    }
  }

  /** A full ancestor list within the bound is what the loop returns. */
  lemma {:induction false} FullListIsTheChain(find: Find, row: Row, seen: set<nat>, fuel: nat, all: seq<Row>)
    requires Linked(find, row, all) && DistinctIds(all) && Avoids(all, seen) && |all| <= fuel
    requires Parent(find, Top(row, all)).None?
    ensures Chain(find, row, seen, fuel) == all
    decreases fuel
  {
    hide Parent, IsParent, Chain;
    ParentIsTheParent(find, row);
    if all == [] {
      ChainStops(find, row, seen, fuel);
    } else {
      var p, above := all[|all| - 1], all[..|all| - 1];
      assert all == above + [p] && p in all;
      LinkedAbove(find, row, p, above);
      forall r | r in above ensures r in all && r.id != p.id {
        var i :| 0 <= i < |above| && above[i] == r;
        assert all[i] == r;
      }
      assert Top(p, above) == Top(row, all);
      FullListIsTheChain(find, p, seen + {p.id}, fuel - 1, above);
      ChainGoesOn(find, row, seen, fuel, p);
    }
  }

  /** The thread up to a row that replies to nothing that is still there. */
  ghost predicate IsFull(find: Find, start: Row, all: seq<Row>) {
    Linked(find, start, all) && forall p :: !IsParent(find, Top(start, all), p)
  }

  lemma FullEndsWithoutParent(find: Find, start: Row, all: seq<Row>)
    ensures IsFull(find, start, all) <==> Linked(find, start, all) && Parent(find, Top(start, all)).None?
  {
    hide Parent, IsParent, Linked;
    ParentIsTheParent(find, Top(start, all));
  }

  /**
    The list is root-first, linked, without repeated ids and at most 64 long. It reaches the
    root exactly if the thread has a root at most 64 steps up without passing an id twice, and
    then it is the full ancestor list.
   */
  lemma ChainIsTheThread(find: Find, start: Row)
    ensures var c := Chain(find, start, {}, LIMIT);
            && Linked(find, start, c) && DistinctIds(c) && |c| <= 64
            && (IsFull(find, start, c) <==>
                  exists all :: IsFull(find, start, all) && DistinctIds(all) && |all| <= 64)
            && (forall all | IsFull(find, start, all) && DistinctIds(all) && |all| <= 64 :: c == all)
  {
    hide Parent, IsParent, Chain, Linked, IsFull;
    ChainIsLinked(find, start, {}, LIMIT);
    forall all | IsFull(find, start, all) && DistinctIds(all) && |all| <= 64
      ensures Chain(find, start, {}, LIMIT) == all
    {
      FullEndsWithoutParent(find, start, all);
      FullListIsTheChain(find, start, {}, LIMIT, all);
    }
  }

  /** Stopping early means the thread goes on: after 64 ancestors, or into an ancestor already listed. */
  lemma ShortChainEndsOrCycles(find: Find, start: Row)
    ensures var c := Chain(find, start, {}, LIMIT);
            |c| < 64 ==>
              IsFull(find, start, c) || exists r, p | r in c && IsParent(find, Top(start, c), p) :: r.id == p.id
  {
    hide Parent, IsParent, Chain, Linked, IsFull;
    ChainIsLinked(find, start, {}, LIMIT);
    var c := Chain(find, start, {}, LIMIT);
    FullEndsWithoutParent(find, start, c);
    ParentIsTheParent(find, Top(start, c));
  }
}
