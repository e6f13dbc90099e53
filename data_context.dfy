/** The shared partner store: one list of partners that every view reads,
    replaced wholesale by adding, updating, deleting or importing partners.
    Persistence to the browser's storage is not part of this model. */
module DataContext {
  import opened Collections
  import opened Records

  /** `Math.max(...partners.map(p => p.id))`. */
  function MaxId(ps: seq<Partner>): (m: int)
    requires ps != []
    ensures forall i :: 0 <= i < |ps| ==> ps[i].id <= m
    ensures exists i :: 0 <= i < |ps| && ps[i].id == m
  {
    if |ps| == 1 then ps[0].id
    else
      var rest := MaxId(ps[..|ps| - 1]);
      assert forall i :: 0 <= i < |ps| - 1 ==> ps[..|ps| - 1][i] == ps[i];
      if ps[|ps| - 1].id > rest then ps[|ps| - 1].id else rest
  }

  /** The id `addPartner` gives: one past the largest, or 1 for an empty list. */
  function NextId(ps: seq<Partner>): (n: int)
    ensures forall i :: 0 <= i < |ps| ==> ps[i].id < n
    ensures ps == [] ==> n == 1
    ensures ps != [] ==> exists i :: 0 <= i < |ps| && ps[i].id == n - 1
  {
    if ps == [] then 1 else MaxId(ps) + 1
  }

  function Added(ps: seq<Partner>, np: Partner): (r: seq<Partner>)
    ensures |r| == |ps| + 1 && r[..|ps|] == ps
    ensures r[|ps|] == np.(id := NextId(ps))
    ensures forall i :: 0 <= i < |ps| ==> r[i].id != r[|ps|].id
  {
    assert (ps + [np.(id := NextId(ps))])[..|ps|] == ps;
    ps + [np.(id := NextId(ps))]
  }

  function Replace(p: Partner, u: Partner): Partner
  {
    if p.id == u.id then u else p
  }

  /** `partners.map(p => p.id === updated.id ? updated : p)`. */
  function Updated(ps: seq<Partner>, u: Partner): (r: seq<Partner>)
    ensures |r| == |ps|
    ensures forall i :: 0 <= i < |ps| && ps[i].id == u.id ==> r[i] == u
    ensures forall i :: 0 <= i < |ps| && ps[i].id != u.id ==> r[i] == ps[i]
  {
    Map(ps, p => Replace(p, u))
  }

  function KeepsOther(id: int): Partner -> bool
  {
    (p: Partner) => p.id != id
  }

  function Deleted(ps: seq<Partner>, id: int): seq<Partner>
  {
    Filter(ps, KeepsOther(id))
  }

  /** The id an imported partner ends up with. */
  function ImportedId(current: seq<Partner>, p: Partner, index: nat): int
  {
    if p.id != 0 then p.id else |current| + index + 1
  }

  function Imported(current: seq<Partner>, incoming: seq<Partner>): (r: seq<Partner>)
    ensures |r| == |incoming|
    ensures forall i :: 0 <= i < |incoming| ==> r[i] == incoming[i].(id := ImportedId(current, incoming[i], i))
  {
    seq(|incoming|, i requires 0 <= i < |incoming| => incoming[i].(id := ImportedId(current, incoming[i], i)))
  }

  // ===========================================================================
  // The store

  class PartnerStore {
    var partners: seq<Partner>

    constructor(initial: seq<Partner>)
      ensures partners == initial
    {
      partners := initial;
    }

    method AddPartner(np: Partner)
      modifies this
      ensures partners == Added(old(partners), np)
    {
      var newId := if |partners| > 0 then MaxId(partners) + 1 else 1;
      partners := partners + [np.(id := newId)];
    }

    method UpdatePartner(u: Partner)
      modifies this
      ensures partners == Updated(old(partners), u)
    {
      partners := Map(partners, p => Replace(p, u));
    }

    method DeletePartner(id: int)
      modifies this
      ensures partners == Deleted(old(partners), id)
    {
      partners := Filter(partners, KeepsOther(id));
    }

    method ImportPartners(incoming: seq<Partner>)
      modifies this
      ensures partners == Imported(old(partners), incoming)
    {
      var n := |partners|;
      partners := seq(|incoming|, i requires 0 <= i < |incoming| =>
        incoming[i].(id := if incoming[i].id != 0 then incoming[i].id else n + i + 1));
    }
  }

  // ===========================================================================
  // Properties

  function Ids(ps: seq<Partner>): seq<int>
  {
    Map(ps, (p: Partner) => p.id)
  }

  /** Updating keeps every id in place; an id nobody has changes nothing; and
      a second identical update changes nothing more. */
  lemma UpdateFacts(ps: seq<Partner>, u: Partner)
    ensures Ids(Updated(ps, u)) == Ids(ps)
    ensures u.id !in Ids(ps) ==> Updated(ps, u) == ps
    ensures Updated(Updated(ps, u), u) == Updated(ps, u)
  {
    if u.id !in Ids(ps) {
      assert forall i :: 0 <= i < |ps| ==> Ids(ps)[i] == ps[i].id;
    }
  }

  /** Deleting keeps, in order, exactly the partners with another id. */
  lemma DeleteFacts(ps: seq<Partner>, id: int)
    ensures IsSubsequence(Deleted(ps, id), ps)
    ensures forall p :: p in Deleted(ps, id) <==> p in ps && p.id != id
    ensures |Deleted(ps, id)| == |ps| - CountWhere(ps, (p: Partner) => p.id == id)
    ensures id !in Ids(ps) ==> Deleted(ps, id) == ps
  {
    FilterIsSubsequence(ps, KeepsOther(id));
    FilterLength(ps, KeepsOther(id));
    CountComplement(ps, id);
    if id !in Ids(ps) {
      assert forall i :: 0 <= i < |ps| ==> Ids(ps)[i] == ps[i].id;
      FilterAll(ps, KeepsOther(id));
    }
  }

  lemma {:induction false} CountComplement(ps: seq<Partner>, id: int)
    ensures CountWhere(ps, KeepsOther(id)) == |ps| - CountWhere(ps, (p: Partner) => p.id == id)
  {
    if ps != [] {
      CountComplement(ps[..|ps| - 1], id);
    }
  }

  /** Deleting the id just given to an added partner restores the list. */
  lemma DeleteUndoesAdd(ps: seq<Partner>, np: Partner)
    ensures Deleted(Added(ps, np), NextId(ps)) == ps
  {
    var r := Added(ps, np);
    assert r[..|r| - 1] == ps;
    FilterAll(ps, KeepsOther(NextId(ps)));
  }

  /** Imported partners keep a truthy id; those without one are numbered
      after the current list, distinct among themselves. */
  lemma ImportFacts(current: seq<Partner>, incoming: seq<Partner>)
    ensures forall i :: 0 <= i < |incoming| && incoming[i].id != 0 ==> Imported(current, incoming)[i].id == incoming[i].id
    ensures forall i :: 0 <= i < |incoming| && incoming[i].id == 0 ==> Imported(current, incoming)[i].id > |current|
    ensures forall i, j :: 0 <= i < j < |incoming| && incoming[i].id == 0 && incoming[j].id == 0 ==>
      Imported(current, incoming)[i].id != Imported(current, incoming)[j].id
    ensures (forall i :: 0 <= i < |incoming| ==> incoming[i].id != 0) ==> Imported(current, incoming) == incoming
  {
  }
}
