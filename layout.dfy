/** The earlier pre-pass of `src/layout.ts`: every person or marriage is placed
    over its parental marriages (none, one or two), recursively, and recorded in
    a map keyed by its bare id. A node's `x - mod` is always the midpoint of
    its parents, and a node at `preX = 0` (a left-most node) is placed exactly
    there. Coordinates are JavaScript numbers halved, so they are reals here. */
module Layout {
  import opened Wrappers
  import opened FamilyModel
  import opened LayoutIndex

  const NodeWidth: real := 100.0
  const NodeHeight: real := 40.0
  const MarriageNodeSize: real := 10.0
  const MarriageGap: real := 40.0
  const NodesGap: real := 40.0
  const MarriageWidth: real := (NodeWidth + MarriageGap) * 2.0

  datatype PreNodeType = PersonType | MarriageType

  /** A person id or a marriage id, tagged. */
  datatype Id = Id(kind: PreNodeType, id: string)

  datatype PreNode = PreNode(id: Id, x: real, mod: real, shift: real)

  /** The id has a parental marriage through a truthy parent id. */
  predicate HasParents(idx: FamilyIndex, personId: string) {
    Truthy(personId) && ParentsMarriageId(idx, personId).Some?
  }

  /** What one parent slot of a marriage contributes to its parents list. */
  function ParentSlot(idx: FamilyIndex, personId: string): seq<Id> {
    if HasParents(idx, personId) then [Id(MarriageType, ParentsMarriageId(idx, personId).value)] else []
  }

  /** The parents of a node, each a parental MARRIAGE: a person's own parental
      marriage; for a marriage, its first parent's and then its second parent's,
      those that exist. */
  function ParentsOf(id: Id, idx: FamilyIndex): (r: Result<seq<Id>, LayoutError>)
    ensures r.Success? ==> |r.value| <= 2 && forall i :: 0 <= i < |r.value| ==> r.value[i].kind == MarriageType
  {
    match id.kind
    case PersonType =>
      (match ParentsMarriageId(idx, id.id)
       case None => Success([])
       case Some(mid) => Success([Id(MarriageType, mid)]))
    case MarriageType =>
      if id.id !in idx.marriageById then Failure(MissingMarriage(id.id))
      else
        var m := idx.marriageById[id.id];
        Success(ParentSlot(idx, m.parent1Id) + ParentSlot(idx, m.parent2Id))
  }

  /** The parents list: an error exactly for an unknown marriage; a person's
      own parental marriage, if any; for a marriage, first its first parent's
      parental marriage and then its second parent's, those that exist. */
  lemma ParentsOfCases(id: Id, idx: FamilyIndex)
    ensures ParentsOf(id, idx).Failure? <==> id.kind == MarriageType && id.id !in idx.marriageById
    ensures ParentsOf(id, idx).Failure? ==> ParentsOf(id, idx).error == MissingMarriage(id.id)
    ensures id.kind == PersonType ==>
              (ParentsMarriageId(idx, id.id).None? ==> ParentsOf(id, idx) == Success([])) &&
              (ParentsMarriageId(idx, id.id).Some? ==> ParentsOf(id, idx) == Success([Id(MarriageType, idx.personParents[id.id])]))
    ensures id.kind == MarriageType && id.id in idx.marriageById ==>
              var m := idx.marriageById[id.id];
              var r := ParentsOf(id, idx).value;
              && |r| == (if HasParents(idx, m.parent1Id) then 1 else 0) + (if HasParents(idx, m.parent2Id) then 1 else 0)
              && (HasParents(idx, m.parent1Id) ==> r[0] == Id(MarriageType, idx.personParents[m.parent1Id]))
              && (HasParents(idx, m.parent2Id) ==> r[|r| - 1] == Id(MarriageType, idx.personParents[m.parent2Id]))
  {
  }

  /** A node over the point `mid`: the left-most node (`preX = 0`) sits on it,
      any other sits at `preX` with `mod` recording the offset. */
  function CenterOver(id: Id, preX: real, mid: real): (n: PreNode)
    ensures n.id == id && n.shift == 0.0
    ensures n.x - n.mod == mid
    ensures preX == 0.0 ==> n.x == mid && n.mod == 0.0
    ensures preX != 0.0 ==> n.x == preX
  {
    if preX == 0.0 then PreNode(id, mid, 0.0, 0.0) else PreNode(id, preX, preX - mid, 0.0)
  }

  /** The outcome of one call and the map after it (including the entries
      written before an error was thrown). */
  datatype PreRun = PreRun(outcome: Result<PreNode, LayoutError>, nodes: map<string, PreNode>)

  /** `buildPreNodes(id, family, preNodes, preX)`, with a recursion bound. The
      node is written under its bare id, replacing any earlier entry. */
  function BuildPre(fuel: nat, id: Id, idx: FamilyIndex, nodes: map<string, PreNode>, preX: real): (run: PreRun)
    ensures nodes.Keys <= run.nodes.Keys
    ensures run.outcome.Success? ==>
              run.outcome.value.id == id && run.outcome.value.shift == 0.0 &&
              id.id in run.nodes && run.nodes[id.id] == run.outcome.value
    decreases fuel, 0
  {
    if fuel == 0 then PreRun(Failure(OutOfFuel), nodes)
    else match ParentsOf(id, idx)
      case Failure(e) => PreRun(Failure(e), nodes)
      case Success(parents) =>
        if |parents| == 0 then
          var n := PreNode(id, preX, 0.0, 0.0);
          PreRun(Success(n), nodes[id.id := n])
        else if |parents| == 1 then OverOne(fuel - 1, id, idx, parents[0], nodes, preX)
        else OverTwo(fuel - 1, id, idx, parents[0], parents[1], nodes, preX)
  }

  /** A node with one parent: the parent is laid out from 0, and the node is
      placed over half the parent's `x`. */
  function OverOne(fuel: nat, id: Id, idx: FamilyIndex, parent: Id, nodes: map<string, PreNode>, preX: real): (run: PreRun)
    ensures nodes.Keys <= run.nodes.Keys
    ensures run.outcome.Success? ==>
              run.outcome.value.id == id && run.outcome.value.shift == 0.0 &&
              id.id in run.nodes && run.nodes[id.id] == run.outcome.value
    decreases fuel, 1
  {
    var p := BuildPre(fuel, parent, idx, nodes, 0.0);
    if p.outcome.Failure? then p
    else
      var n := CenterOver(id, preX, p.outcome.value.x / 2.0);
      PreRun(Success(n), p.nodes[id.id := n])
  }

  /** A node with two parents: the first is laid out from 0, the second from
      just right of the first's width, and the node is placed over their
      midpoint. */
  function OverTwo(fuel: nat, id: Id, idx: FamilyIndex, first: Id, second: Id, nodes: map<string, PreNode>, preX: real): (run: PreRun)
    ensures nodes.Keys <= run.nodes.Keys
    ensures run.outcome.Success? ==>
              run.outcome.value.id == id && run.outcome.value.shift == 0.0 &&
              id.id in run.nodes && run.nodes[id.id] == run.outcome.value
    decreases fuel, 1
  {
    var a := BuildPre(fuel, first, idx, nodes, 0.0);
    if a.outcome.Failure? then a
    else
      var deltaX := if a.outcome.value.id.kind == PersonType then NodeWidth + NodesGap else MarriageWidth + NodesGap;
      var b := BuildPre(fuel, second, idx, a.nodes, deltaX);
      if b.outcome.Failure? then b
      else
        var n := CenterOver(id, preX, (a.outcome.value.x + b.outcome.value.x) / 2.0);
        PreRun(Success(n), b.nodes[id.id := n])
  }

  // ---------------------------------------------------------------------------
  // Properties of the pre-pass

  /** A person without a parental marriage, or a marriage neither of whose
      parents has one, is a leaf at `preX`. */
  lemma BuildPreLeaf(fuel: nat, id: Id, idx: FamilyIndex, nodes: map<string, PreNode>, preX: real)
    requires fuel > 0
    requires (id.kind == PersonType && ParentsMarriageId(idx, id.id).None?) ||
             (id.kind == MarriageType && id.id in idx.marriageById &&
              !HasParents(idx, idx.marriageById[id.id].parent1Id) && !HasParents(idx, idx.marriageById[id.id].parent2Id))
    ensures BuildPre(fuel, id, idx, nodes, preX) == PreRun(Success(PreNode(id, preX, 0.0, 0.0)), nodes[id.id := PreNode(id, preX, 0.0, 0.0)])
  {
    ParentsOfCases(id, idx);
    assert ParentsOf(id, idx) == Success([]);
  }

  /** An unknown marriage id is an error, and nothing is written. */
  lemma BuildPreMissingMarriage(fuel: nat, id: Id, idx: FamilyIndex, nodes: map<string, PreNode>, preX: real)
    requires fuel > 0
    requires id.kind == MarriageType && id.id !in idx.marriageById
    ensures BuildPre(fuel, id, idx, nodes, preX) == PreRun(Failure(MissingMarriage(id.id)), nodes)
  {
  }

  /** One parent: the parent is laid out from 0 and the node is centred over
      half the parent's `x`. */
  lemma BuildPreOneParent(fuel: nat, id: Id, idx: FamilyIndex, nodes: map<string, PreNode>, preX: real)
    requires fuel > 0
    requires ParentsOf(id, idx).Success? && |ParentsOf(id, idx).value| == 1
    requires BuildPre(fuel, id, idx, nodes, preX).outcome.Success?
    ensures var run := BuildPre(fuel, id, idx, nodes, preX);
            var p := BuildPre(fuel - 1, ParentsOf(id, idx).value[0], idx, nodes, 0.0);
            && p.outcome.Success?
            && var n := run.outcome.value;
            && n.x - n.mod == p.outcome.value.x / 2.0
            && (preX == 0.0 ==> n.x == p.outcome.value.x / 2.0 && n.mod == 0.0)
            && (preX != 0.0 ==> n.x == preX && n.mod == preX - p.outcome.value.x / 2.0)
            && run.nodes == p.nodes[id.id := n]
  {
  }

  /** Two parents: the first is laid out from 0 and, being a marriage, pushes
      the second to `MarriageWidth + NodesGap = 320`; the node is centred over
      the midpoint of the two. */
  lemma BuildPreTwoParents(fuel: nat, id: Id, idx: FamilyIndex, nodes: map<string, PreNode>, preX: real)
    requires fuel > 0
    requires ParentsOf(id, idx).Success? && |ParentsOf(id, idx).value| == 2
    requires BuildPre(fuel, id, idx, nodes, preX).outcome.Success?
    ensures var run := BuildPre(fuel, id, idx, nodes, preX);
            var parents := ParentsOf(id, idx).value;
            var a := BuildPre(fuel - 1, parents[0], idx, nodes, 0.0);
            && a.outcome.Success?
            && var b := BuildPre(fuel - 1, parents[1], idx, a.nodes, 320.0);
            && b.outcome.Success?
            && var n := run.outcome.value;
            && n.x - n.mod == (a.outcome.value.x + b.outcome.value.x) / 2.0
            && (preX == 0.0 ==> n.mod == 0.0)
            && (preX != 0.0 ==> n.x == preX)
            && run.nodes == b.nodes[id.id := n]
  {
    var parents := ParentsOf(id, idx).value;
    var a := BuildPre(fuel - 1, parents[0], idx, nodes, 0.0);
    assert parents[0].kind == MarriageType;
    assert MarriageWidth + NodesGap == 320.0;
    if a.outcome.Success? {
      assert a.outcome.value.id.kind == MarriageType;
    }
  }

  predicate AllShiftsZero(nodes: map<string, PreNode>) {
    forall k :: k in nodes ==> nodes[k].shift == 0.0
  }

  /** No node the pre-pass writes carries a shift. */
  lemma {:induction false} BuildPreShiftsZero(fuel: nat, id: Id, idx: FamilyIndex, nodes: map<string, PreNode>, preX: real)
    requires AllShiftsZero(nodes)
    ensures AllShiftsZero(BuildPre(fuel, id, idx, nodes, preX).nodes)
    decreases fuel, 0
  {
    if fuel > 0 && ParentsOf(id, idx).Success? {
      var parents := ParentsOf(id, idx).value;
      if |parents| == 1 {
        OverOneShiftsZero(fuel - 1, id, idx, parents[0], nodes, preX);
      } else if |parents| == 2 {
        OverTwoShiftsZero(fuel - 1, id, idx, parents[0], parents[1], nodes, preX);
      }
    }
  }

  lemma {:induction false} OverOneShiftsZero(fuel: nat, id: Id, idx: FamilyIndex, parent: Id, nodes: map<string, PreNode>, preX: real)
    requires AllShiftsZero(nodes)
    ensures AllShiftsZero(OverOne(fuel, id, idx, parent, nodes, preX).nodes)
    decreases fuel, 1
  {
    BuildPreShiftsZero(fuel, parent, idx, nodes, 0.0);
  }

  lemma {:induction false} OverTwoShiftsZero(fuel: nat, id: Id, idx: FamilyIndex, first: Id, second: Id,
                                           nodes: map<string, PreNode>, preX: real)
    requires AllShiftsZero(nodes)
    ensures AllShiftsZero(OverTwo(fuel, id, idx, first, second, nodes, preX).nodes)
    decreases fuel, 1
  {
    BuildPreShiftsZero(fuel, first, idx, nodes, 0.0);
    var a := BuildPre(fuel, first, idx, nodes, 0.0);
    if a.outcome.Success? {
      var deltaX := if a.outcome.value.id.kind == PersonType then NodeWidth + NodesGap else MarriageWidth + NodesGap;
      BuildPreShiftsZero(fuel, second, idx, a.nodes, deltaX);
    }
  }

  /** The recursion bound only matters when it runs out: any larger bound gives
      the same run. */
  lemma {:induction false} BuildPreFuel(fuel: nat, more: nat, id: Id, idx: FamilyIndex, nodes: map<string, PreNode>, preX: real)
    requires fuel <= more
    requires BuildPre(fuel, id, idx, nodes, preX).outcome != Failure(OutOfFuel)
    ensures BuildPre(more, id, idx, nodes, preX) == BuildPre(fuel, id, idx, nodes, preX)
    decreases fuel, 0
  {
    if ParentsOf(id, idx).Success? {
      var parents := ParentsOf(id, idx).value;
      if |parents| == 1 {
        OverOneFuel(fuel - 1, more - 1, id, idx, parents[0], nodes, preX);
      } else if |parents| == 2 {
        OverTwoFuel(fuel - 1, more - 1, id, idx, parents[0], parents[1], nodes, preX);
      }
    }
  }

  lemma {:induction false} OverOneFuel(fuel: nat, more: nat, id: Id, idx: FamilyIndex, parent: Id, nodes: map<string, PreNode>, preX: real)
    requires fuel <= more
    requires OverOne(fuel, id, idx, parent, nodes, preX).outcome != Failure(OutOfFuel)
    ensures OverOne(more, id, idx, parent, nodes, preX) == OverOne(fuel, id, idx, parent, nodes, preX)
    decreases fuel, 1
  {
    BuildPreFuel(fuel, more, parent, idx, nodes, 0.0);
  }

  lemma {:induction false} OverTwoFuel(fuel: nat, more: nat, id: Id, idx: FamilyIndex, first: Id, second: Id,
                                     nodes: map<string, PreNode>, preX: real)
    requires fuel <= more
    requires OverTwo(fuel, id, idx, first, second, nodes, preX).outcome != Failure(OutOfFuel)
    ensures OverTwo(more, id, idx, first, second, nodes, preX) == OverTwo(fuel, id, idx, first, second, nodes, preX)
    decreases fuel, 1
  {
    var a := BuildPre(fuel, first, idx, nodes, 0.0);
    BuildPreFuel(fuel, more, first, idx, nodes, 0.0);
    assert BuildPre(more, first, idx, nodes, 0.0) == a;
    if a.outcome.Success? {
      var deltaX := if a.outcome.value.id.kind == PersonType then NodeWidth + NodesGap else MarriageWidth + NodesGap;
      var b := BuildPre(fuel, second, idx, a.nodes, deltaX);
      assert b.outcome != Failure(OutOfFuel);
      BuildPreFuel(fuel, more, second, idx, a.nodes, deltaX);
      assert BuildPre(more, second, idx, a.nodes, deltaX) == b;
      if b.outcome.Success? {
        var n := CenterOver(id, preX, (a.outcome.value.x + b.outcome.value.x) / 2.0);
        assert OverTwo(fuel, id, idx, first, second, nodes, preX) == PreRun(Success(n), b.nodes[id.id := n]);
      }
    }
  }

  // ---------------------------------------------------------------------------
  // The pre-pass, imperatively

  /** The shared `preNodes` map. */
  class PreNodeMap {
    var nodes: map<string, PreNode>

    constructor()
      ensures nodes == map[]
    {
      nodes := map[];
    }

    method Set(key: string, node: PreNode)
      modifies this
      ensures nodes == old(nodes)[key := node]
    {
      nodes := nodes[key := node];
    }
  }

  /** The parents list of `buildPreNodes`, built by pushing. */
  method CollectParents(id: Id, idx: FamilyIndex) returns (r: Result<seq<Id>, LayoutError>)
    ensures r == ParentsOf(id, idx)
  {
    var parents: seq<Id> := [];
    if id.kind == PersonType {
      var marriageId := ParentsMarriageId(idx, id.id);
      if marriageId.Some? {
        parents := [Id(MarriageType, marriageId.value)];
      }
    } else {
      if id.id !in idx.marriageById {
        return Failure(MissingMarriage(id.id));
      }
      var marriage := idx.marriageById[id.id];
      if Truthy(marriage.parent1Id) {
        var parent1MarriageId := ParentsMarriageId(idx, marriage.parent1Id);
        if parent1MarriageId.Some? {
          parents := parents + [Id(MarriageType, parent1MarriageId.value)];
        }
      }
      assert parents == ParentSlot(idx, marriage.parent1Id);
      if Truthy(marriage.parent2Id) {
        var parent2MarriageId := ParentsMarriageId(idx, marriage.parent2Id);
        if parent2MarriageId.Some? {
          parents := parents + [Id(MarriageType, parent2MarriageId.value)];
        }
      }
      assert parents == ParentSlot(idx, marriage.parent1Id) + ParentSlot(idx, marriage.parent2Id);
    }
    return Success(parents);
  }

  /** `buildPreNodes`: returns the node for `id` and leaves it, and the nodes of
      all its ancestors, written into `preNodes`. */
  method BuildPreNodes(fuel: nat, id: Id, idx: FamilyIndex, preNodes: PreNodeMap, preX: real)
    returns (r: Result<PreNode, LayoutError>)
    modifies preNodes
    ensures PreRun(r, preNodes.nodes) == BuildPre(fuel, id, idx, old(preNodes.nodes), preX)
    decreases fuel
  {
    if fuel == 0 {
      return Failure(OutOfFuel);
    }
    var parents :- CollectParents(id, idx);

    if |parents| == 0 {
      var preNode := PreNode(id, preX, 0.0, 0.0);
      preNodes.Set(id.id, preNode);
      return Success(preNode);
    }

    if |parents| == 1 {
      assert BuildPre(fuel, id, idx, old(preNodes.nodes), preX) == OverOne(fuel - 1, id, idx, parents[0], old(preNodes.nodes), preX);
      var parentNode :- BuildPreNodes(fuel - 1, parents[0], idx, preNodes, 0.0);
      var x: real;
      var mod: real;
      if preX == 0.0 {
        x := parentNode.x / 2.0;
        mod := 0.0;
      } else {
        x := preX;
        mod := x - parentNode.x / 2.0;
      }
      var preNode := PreNode(id, x, mod, 0.0);
      preNodes.Set(id.id, preNode);
      return Success(preNode);
    }

    assert BuildPre(fuel, id, idx, old(preNodes.nodes), preX)
        == OverTwo(fuel - 1, id, idx, parents[0], parents[1], old(preNodes.nodes), preX);
    var firstPreNode :- BuildPreNodes(fuel - 1, parents[0], idx, preNodes, 0.0);
    var deltaX: real;
    if firstPreNode.id.kind == PersonType {
      deltaX := NodeWidth + NodesGap;
    } else {
      deltaX := MarriageWidth + NodesGap;
    }
    var secondPreNode :- BuildPreNodes(fuel - 1, parents[1], idx, preNodes, deltaX);
    var x: real;
    var mod: real;
    if preX == 0.0 {
      x := (firstPreNode.x + secondPreNode.x) / 2.0;
      mod := 0.0;
    } else {
      x := preX;
      mod := x - (firstPreNode.x + secondPreNode.x) / 2.0;
    }
    var preNode := PreNode(id, x, mod, 0.0);
    preNodes.Set(id.id, preNode);
    return Success(preNode);
  }

  /** The root of the layout: the perspective's first marriage if it has any,
      otherwise the perspective person. */
  function RootId(perspectiveId: string, idx: FamilyIndex): (r: Id)
    ensures r.kind == MarriageType <==> perspectiveId in idx.personMarriages && |idx.personMarriages[perspectiveId]| > 0
    ensures r.kind == MarriageType ==> r.id == idx.personMarriages[perspectiveId][0].id
    ensures r.kind == PersonType ==> r.id == perspectiveId
  {
    var marriages := if perspectiveId in idx.personMarriages then idx.personMarriages[perspectiveId] else [];
    if |marriages| > 0 then Id(MarriageType, marriages[0].id) else Id(PersonType, perspectiveId)
  }

  /** `buildNodes`: lays out from the root at 0 into a fresh map. No finaliser
      exists yet, so it yields no nodes. */
  method BuildNodes(perspectiveId: string, idx: FamilyIndex, fuel: nat) returns (r: Result<seq<Node>, LayoutError>)
    ensures var run := BuildPre(fuel, RootId(perspectiveId, idx), idx, map[], 0.0);
            if run.outcome.Success? then r == Success([]) else r == Failure(run.outcome.error)
  {
    var preNodes := new PreNodeMap();
    var id := RootId(perspectiveId, idx);
    var rootPreNode :- BuildPreNodes(fuel, id, idx, preNodes, 0.0);
    return Success([]);
  }
}
