/** The sibling-unit pre-pass of `src/layout2.ts`.

    A sibling unit is the block of one sibling group laid out side by side.
    `preBuildSiblings` lays out the unit of a group by first laying out the units
    of both parents' own groups (the first parent's to the right of 0, the second
    parent's to the left of the first's width), then centring the group under the
    two parents, widening it towards any flank that carries a marriage, appending
    it to a shared list and, when another sibling is married, laying out that
    spouse's group next to it. All coordinates are integers: a group of `n`
    siblings is `180 * n - 40` wide, which is even, so halving it is exact. */
module Layout2 {
  import opened Wrappers
  import opened FamilyModel
  import opened LayoutIndex

  const NodeWidth: int := 140
  const NodeHeight: int := 70
  const MarriageNodeSize: int := 10
  const MarriageGap: int := 20
  const NodesGap: int := 40
  const MarriageWidth: int := (NodeWidth + MarriageGap) * 2

  datatype Side = Left | Right

  function OppositeSide(side: Side): (r: Side)
    ensures r != side
  {
    if side == Left then Right else Left
  }

  lemma OppositeSideInvolution(side: Side)
    ensures OppositeSide(OppositeSide(side)) == side
  {
  }

  /** Which sibling is placed at which edge of its group. */
  datatype Perspective = Perspective(id: string, side: Side)

  /** `leftSibling`/`rightSibling` are the ids pinned to the group's edges,
      `None` where the source leaves the field undefined. */
  datatype SiblingsUnit = SiblingsUnit(
    siblings: seq<string>,
    leftSibling: Option<string>,
    rightSibling: Option<string>,
    x: int,
    width: int,
    mod: int,
    shift: int)

  /** An optional flank id that is also truthy. */
  predicate IsTruthy(o: Option<string>) {
    o.Some? && Truthy(o.value)
  }

  // ---------------------------------------------------------------------------
  // Lookups

  /** The sibling group of a person: the children of its parents' marriage, or
      the person alone when it has no parents. */
  function GetPersonSiblings(personId: string, idx: FamilyIndex): (r: Result<seq<string>, LayoutError>)
    ensures ParentsMarriageId(idx, personId).None? ==> r == Success([personId])
    ensures ParentsMarriageId(idx, personId).Some? ==>
              var mid := ParentsMarriageId(idx, personId).value;
              if mid in idx.marriageById then r == Success(idx.marriageById[mid].childrenIds)
              else r == Failure(MissingParentsMarriage(personId))
  {
    match ParentsMarriageId(idx, personId)
    case None => Success([personId])
    case Some(mid) =>
      if mid !in idx.marriageById then Failure(MissingParentsMarriage(personId))
      else Success(idx.marriageById[mid].childrenIds)
  }

  /** `n` nodes side by side with a gap between neighbours. */
  function SingleSiblingsWidth(siblings: seq<string>): (w: int)
    ensures w == 180 * |siblings| - 40
    ensures w % 2 == 0
  {
    |siblings| * NodeWidth + (|siblings| - 1) * NodesGap
  }

  /** The spouse of a person married at most once: the other parent of its one
      marriage, or `None` when it is unmarried or that slot is empty. */
  function GetPersonSpouseId(personId: string, idx: FamilyIndex): (r: Result<Option<string>, LayoutError>)
    ensures personId !in idx.personMarriages ==> r == Success(None)
    ensures personId in idx.personMarriages && |idx.personMarriages[personId]| == 0 ==> r == Success(None)
    ensures personId in idx.personMarriages && |idx.personMarriages[personId]| > 1 ==>
              r == Failure(InvalidMarriages(personId))
    ensures r.Success? && r.value.Some? ==>
              personId in idx.personMarriages && |idx.personMarriages[personId]| == 1 &&
              var m := idx.personMarriages[personId][0];
              Truthy(r.value.value) && Truthy(personId) &&
              ((m.parent1Id == personId && r.value.value == m.parent2Id) ||
               (m.parent2Id == personId && r.value.value == m.parent1Id))
    ensures personId in idx.personMarriages && |idx.personMarriages[personId]| == 1 && Truthy(personId) ==>
              var m := idx.personMarriages[personId][0];
              && (m.parent1Id == personId ==>
                    r == Success(if Truthy(m.parent2Id) then Some(m.parent2Id) else None))
              && (m.parent1Id != personId && m.parent2Id == personId ==>
                    r == Success(if Truthy(m.parent1Id) then Some(m.parent1Id) else None))
    ensures r.Failure? <==>
              personId in idx.personMarriages && var ms := idx.personMarriages[personId];
              |ms| > 1 ||
              (|ms| == 1 && (!Truthy(personId) || (ms[0].parent1Id != personId && ms[0].parent2Id != personId)))
  {
    if personId !in idx.personMarriages then Success(None)
    else
      var marriages := idx.personMarriages[personId];
      if |marriages| == 0 then Success(None)
      else if |marriages| > 1 then Failure(InvalidMarriages(personId))
      else
        var m := marriages[0];
        if Truthy(m.parent1Id) && m.parent1Id == personId then
          Success(if Truthy(m.parent2Id) then Some(m.parent2Id) else None)
        else if Truthy(m.parent2Id) && m.parent2Id == personId then
          Success(if Truthy(m.parent1Id) then Some(m.parent1Id) else None)
        else Failure(InvalidMarriageFor(personId))
  }

  /** Whether the person has a (truthy) spouse; errors propagate. */
  function IsPersonMarried(personId: string, idx: FamilyIndex): (r: Result<bool, LayoutError>)
    ensures r.Failure? <==> GetPersonSpouseId(personId, idx).Failure?
    ensures r == Success(true) <==> GetPersonSpouseId(personId, idx).Success? && IsTruthy(GetPersonSpouseId(personId, idx).value)
  {
    var spouse :- GetPersonSpouseId(personId, idx);
    Success(IsTruthy(spouse))
  }

  /** A sibling that `findMarriedSibling` stops at: not the excepted one, and
      with an entry in `personMarriages`. */
  predicate IsCandidate(idx: FamilyIndex, except: string, s: string) {
    s != except && s in idx.personMarriages
  }

  /** Reference: the first candidate in list order decides; it must have exactly
      one marriage. */
  function MarriedSibling(siblings: seq<string>, idx: FamilyIndex, except: string): (r: Result<Option<string>, LayoutError>)
    ensures r.Success? && r.value.Some? ==>
              r.value.value in siblings && IsCandidate(idx, except, r.value.value) &&
              |idx.personMarriages[r.value.value]| == 1
    ensures r.Failure? ==>
              r.error.InvalidMarriages? && r.error.personId in siblings && IsCandidate(idx, except, r.error.personId) &&
              |idx.personMarriages[r.error.personId]| != 1
  {
    if siblings == [] then Success(None)
    else if IsCandidate(idx, except, siblings[0]) then
      if |idx.personMarriages[siblings[0]]| != 1 then Failure(InvalidMarriages(siblings[0]))
      else Success(Some(siblings[0]))
    else MarriedSibling(siblings[1..], idx, except)
  }

  /** When no sibling is a candidate, there is no married sibling. */
  lemma {:induction false} MarriedSiblingNone(siblings: seq<string>, idx: FamilyIndex, except: string)
    requires forall i :: 0 <= i < |siblings| ==> !IsCandidate(idx, except, siblings[i])
    ensures MarriedSibling(siblings, idx, except) == Success(None)
  {
    if siblings != [] {
      assert !IsCandidate(idx, except, siblings[0]);
      MarriedSiblingNone(siblings[1..], idx, except);
    }
  }

  /** The first candidate is the result when it is married once, and the error
      otherwise; later siblings are never looked at. */
  lemma {:induction false} MarriedSiblingFirst(siblings: seq<string>, idx: FamilyIndex, except: string, i: nat)
    requires i < |siblings| && IsCandidate(idx, except, siblings[i])
    requires forall j :: 0 <= j < i ==> !IsCandidate(idx, except, siblings[j])
    ensures MarriedSibling(siblings, idx, except) ==
            if |idx.personMarriages[siblings[i]]| == 1 then Success(Some(siblings[i]))
            else Failure(InvalidMarriages(siblings[i]))
  {
    if i > 0 {
      assert !IsCandidate(idx, except, siblings[0]);
      MarriedSiblingFirst(siblings[1..], idx, except, i - 1);
    }
  }

  /** `findMarriedSibling`: a scan with an early exit. */
  method FindMarriedSibling(siblings: seq<string>, idx: FamilyIndex, except: string)
    returns (r: Result<Option<string>, LayoutError>)
    ensures r == MarriedSibling(siblings, idx, except)
  {
    var i := 0;
    while i < |siblings|
      invariant 0 <= i <= |siblings|
      invariant MarriedSibling(siblings, idx, except) == MarriedSibling(siblings[i..], idx, except)
    {
      var sibling := siblings[i];
      assert siblings[i..][1..] == siblings[i + 1..];
      if sibling == except {
        i := i + 1;
        continue;
      }
      if sibling in idx.personMarriages {
        var marriages := idx.personMarriages[sibling];
        if |marriages| == 0 || |marriages| > 1 {
          return Failure(InvalidMarriages(sibling));
        }
        return Success(Some(sibling));
      }
      i := i + 1;
    }
    return Success(None);
  }

  // ---------------------------------------------------------------------------
  // The pre-pass, as a function (the specification of PreBuildSiblings)

  /** A group without parents: placed at `preX`, nothing pinned. */
  function RootUnit(preX: int, siblings: seq<string>): SiblingsUnit {
    SiblingsUnit(siblings, None, None, preX, SingleSiblingsWidth(siblings), 0, 0)
  }

  /** The unit of a group whose parents' units are `first` and `second`: the
      perspective sibling is pinned to its side and the married sibling, if any,
      to the other; the group ends at `preX` on the right side and starts there on
      the left; `mod` centres the unwidened group under the point where the first
      parent's unit ends; when the group is narrower than both parents' units,
      its pinned flanks are stretched to their outer edges. */
  function ParentedUnit(preX: int, siblings: seq<string>, perspective: Perspective, married: Option<string>,
                        first: SiblingsUnit, second: SiblingsUnit): (u: SiblingsUnit)
    ensures u.siblings == siblings && u.shift == 0
    ensures perspective.side == Right ==>
              u.rightSibling == Some(perspective.id) && u.leftSibling == (if IsTruthy(married) then married else None)
    ensures perspective.side == Left ==>
              u.leftSibling == Some(perspective.id) && u.rightSibling == (if IsTruthy(married) then married else None)
    ensures var w := SingleSiblingsWidth(siblings);
            var x0 := if perspective.side == Right then preX - w else preX;
            var widen := w < second.x + second.width - first.x;
            && u.mod == x0 + w / 2 - (first.x + first.width)
            && u.x == (if widen && IsTruthy(u.leftSibling) then first.x else x0)
            && u.x + u.width == (if widen && IsTruthy(u.rightSibling) then second.x + second.width else x0 + w)
  {
    var w := SingleSiblingsWidth(siblings);
    var left := if perspective.side == Right then (if IsTruthy(married) then married else None) else Some(perspective.id);
    var right := if perspective.side == Right then Some(perspective.id) else (if IsTruthy(married) then married else None);
    var x0 := if perspective.side == Right then preX - w else preX;
    var mod := x0 + w / 2 - (first.x + first.width);
    var widen := w < second.x + second.width - first.x;
    var x := if widen && IsTruthy(left) then first.x else x0;
    var right0 := x0 + w;
    var rightEdge := if widen && IsTruthy(right) then second.x + second.width else right0;
    SiblingsUnit(siblings, left, right, x, rightEdge - x, mod, 0)
  }

  /** The outcome of one call and the list of units after it (including the
      units appended before an error was thrown). */
  datatype Run = Run(outcome: Result<SiblingsUnit, LayoutError>, units: seq<SiblingsUnit>)

  /** `preBuildSiblings(preX, siblings, perspective, family, units)`, with a
      recursion bound. The list is only ever appended to. */
  function PreBuild(fuel: nat, preX: int, siblings: seq<string>, perspective: Perspective, idx: FamilyIndex,
                    units: seq<SiblingsUnit>): (run: Run)
    ensures units <= run.units
    ensures run.outcome.Success? ==> |units| < |run.units|
    decreases fuel, 1
  {
    if fuel == 0 then Run(Failure(OutOfFuel), units)
    else if siblings == [] || !Truthy(siblings[0]) then Run(Failure(EmptyGroup), units)
    else match ParentsMarriageId(idx, siblings[0])
      case None =>
        if |siblings| > 1 then Run(Failure(MissingParentsMarriage(siblings[0])), units)
        else Run(Success(RootUnit(preX, siblings)), units + [RootUnit(preX, siblings)])
      case Some(mid) =>
        if mid !in idx.marriageById then Run(Failure(MissingMarriage(mid)), units)
        else
          var m := idx.marriageById[mid];
          if !Truthy(m.parent1Id) then Run(Failure(MissingFirstParent(mid)), units)
          else
            var s1 := GetPersonSiblings(m.parent1Id, idx);
            if s1.Failure? then Run(Failure(s1.error), units)
            else
              var first := PreBuild(fuel - 1, 0, s1.value, Perspective(m.parent1Id, Right), idx, units);
              if first.outcome.Failure? then first
              else SecondParentRun(fuel - 1, preX, siblings, perspective, idx, mid, m, first.outcome.value, first.units)
  }

  /** The part of `preBuildSiblings` after the first parent's sub-tree: the
      second parent's sub-tree, started where the first parent's unit ends. */
  function SecondParentRun(fuel: nat, preX: int, siblings: seq<string>, perspective: Perspective, idx: FamilyIndex,
                           mid: string, m: Marriage, first: SiblingsUnit, units: seq<SiblingsUnit>): (run: Run)
    ensures units <= run.units
    ensures run.outcome.Success? ==> |units| < |run.units|
    decreases fuel, 4
  {
    if !Truthy(m.parent2Id) then Run(Failure(MissingSecondParent(mid)), units)
    else
      var s2 := GetPersonSiblings(m.parent2Id, idx);
      if s2.Failure? then Run(Failure(s2.error), units)
      else
        var second := PreBuild(fuel, first.width, s2.value, Perspective(m.parent1Id, Left), idx, units);
        if second.outcome.Failure? then second
        else GroupRun(fuel, preX, siblings, perspective, idx, first, second.outcome.value, second.units)
  }

  /** The part of `preBuildSiblings` after both parents' sub-trees: the group's
      own unit, then the married sibling's spouse sub-tree. */
  function GroupRun(fuel: nat, preX: int, siblings: seq<string>, perspective: Perspective, idx: FamilyIndex,
                    first: SiblingsUnit, second: SiblingsUnit, units: seq<SiblingsUnit>): (run: Run)
    ensures units <= run.units
    ensures run.outcome.Success? ==> |units| < |run.units|
    decreases fuel, 3
  {
    var married := MarriedSibling(siblings, idx, perspective.id);
    if married.Failure? then Run(Failure(married.error), units)
    else
      var unit := ParentedUnit(preX, siblings, perspective, married.value, first, second);
      var after := units + [unit];
      if !IsTruthy(married.value) then Run(Success(unit), after)
      else SpouseRun(fuel, unit, married.value.value, perspective.side, idx, after)
  }

  /** The married sibling's spouse sub-tree, laid out next to `unit`: from its
      left edge on the right side, from its right edge on the left side. */
  function SpouseRun(fuel: nat, unit: SiblingsUnit, marriedId: string, side: Side, idx: FamilyIndex,
                     units: seq<SiblingsUnit>): (run: Run)
    ensures units <= run.units
    ensures run.outcome.Success? ==> run.outcome == Success(unit)
    decreases fuel, 2
  {
    var spouse := GetPersonSpouseId(marriedId, idx);
    if spouse.Failure? then Run(Failure(spouse.error), units)
    else if !IsTruthy(spouse.value) then Run(Failure(NoSpouse(marriedId)), units)
    else
      var s3 := GetPersonSiblings(spouse.value.value, idx);
      if s3.Failure? then Run(Failure(s3.error), units)
      else
        var spousePreX := if side == Left then unit.x + unit.width else unit.x;
        var sub := PreBuild(fuel, spousePreX, s3.value, Perspective(spouse.value.value, side), idx, units);
        if sub.outcome.Failure? then sub else Run(Success(unit), sub.units)
  }

  // ---------------------------------------------------------------------------
  // Properties of the pre-pass

  /** An empty group, or one whose first id is empty, is rejected before
      anything is appended. */
  lemma PreBuildEmptyGroup(fuel: nat, preX: int, siblings: seq<string>, perspective: Perspective, idx: FamilyIndex,
                           units: seq<SiblingsUnit>)
    requires fuel > 0
    requires siblings == [] || !Truthy(siblings[0])
    ensures PreBuild(fuel, preX, siblings, perspective, idx, units) == Run(Failure(EmptyGroup), units)
  {
  }

  /** A group without parents must be a single person; its unit sits at `preX`,
      one node wide, pinned nowhere, and is the one unit appended. */
  lemma PreBuildNoParents(fuel: nat, preX: int, siblings: seq<string>, perspective: Perspective, idx: FamilyIndex,
                          units: seq<SiblingsUnit>)
    requires fuel > 0
    requires siblings != [] && Truthy(siblings[0]) && ParentsMarriageId(idx, siblings[0]).None?
    ensures var run := PreBuild(fuel, preX, siblings, perspective, idx, units);
            if |siblings| > 1 then run == Run(Failure(MissingParentsMarriage(siblings[0])), units)
            else
              && run.outcome.Success?
              && var u := run.outcome.value;
              && u.x == preX && u.width == NodeWidth && u.mod == 0 && u.shift == 0
              && u.leftSibling.None? && u.rightSibling.None? && u.siblings == siblings
              && run.units == units + [u]
  {
  }

  /** A group with parents: both parents' sub-trees come first, the first
      parent's on the right side from 0 and the second parent's on the left side
      from the first unit's width (with the FIRST parent as its perspective id);
      then the group's own unit is appended, and only after it anything else. */
  lemma PreBuildWithParents(fuel: nat, preX: int, siblings: seq<string>, perspective: Perspective, idx: FamilyIndex,
                            units: seq<SiblingsUnit>)
    requires fuel > 0
    requires siblings != [] && Truthy(siblings[0]) && ParentsMarriageId(idx, siblings[0]).Some?
    requires PreBuild(fuel, preX, siblings, perspective, idx, units).outcome.Success?
    ensures var run := PreBuild(fuel, preX, siblings, perspective, idx, units);
            var mid := ParentsMarriageId(idx, siblings[0]).value;
            && mid in idx.marriageById
            && var m := idx.marriageById[mid];
            && Truthy(m.parent1Id) && Truthy(m.parent2Id)
            && GetPersonSiblings(m.parent1Id, idx).Success? && GetPersonSiblings(m.parent2Id, idx).Success?
            && var first := PreBuild(fuel - 1, 0, GetPersonSiblings(m.parent1Id, idx).value, Perspective(m.parent1Id, Right), idx, units);
            && first.outcome.Success?
            && var second := PreBuild(fuel - 1, first.outcome.value.width, GetPersonSiblings(m.parent2Id, idx).value,
                                      Perspective(m.parent1Id, Left), idx, first.units);
            && second.outcome.Success?
            && MarriedSibling(siblings, idx, perspective.id).Success?
            && run.outcome == Success(ParentedUnit(preX, siblings, perspective, MarriedSibling(siblings, idx, perspective.id).value,
                                                   first.outcome.value, second.outcome.value))
            && second.units + [run.outcome.value] <= run.units
            && (!IsTruthy(MarriedSibling(siblings, idx, perspective.id).value) ==> run.units == second.units + [run.outcome.value])
  {
    var run := PreBuild(fuel, preX, siblings, perspective, idx, units);
    var mid := ParentsMarriageId(idx, siblings[0]).value;
    var m := idx.marriageById[mid];
    var first := PreBuild(fuel - 1, 0, GetPersonSiblings(m.parent1Id, idx).value, Perspective(m.parent1Id, Right), idx, units);
    assert run == SecondParentRun(fuel - 1, preX, siblings, perspective, idx, mid, m, first.outcome.value, first.units);
    var second := PreBuild(fuel - 1, first.outcome.value.width, GetPersonSiblings(m.parent2Id, idx).value,
                           Perspective(m.parent1Id, Left), idx, first.units);
    assert run == GroupRun(fuel - 1, preX, siblings, perspective, idx, first.outcome.value, second.outcome.value, second.units);
  }

  /** A group with parents and a married sibling `s`: the sibling's spouse must
      exist, and its group is laid out after the group's own unit, from the
      unit's left edge on the right side and from its right edge on the left
      side, with the spouse as perspective on the same side; the run keeps the
      units of that sub-tree and returns the group's own unit. */
  lemma PreBuildMarriedSibling(fuel: nat, preX: int, siblings: seq<string>, perspective: Perspective, idx: FamilyIndex,
                               units: seq<SiblingsUnit>)
    requires fuel > 0
    requires siblings != [] && Truthy(siblings[0]) && ParentsMarriageId(idx, siblings[0]).Some?
    requires PreBuild(fuel, preX, siblings, perspective, idx, units).outcome.Success?
    requires MarriedSibling(siblings, idx, perspective.id).Success?
    requires IsTruthy(MarriedSibling(siblings, idx, perspective.id).value)
    ensures var run := PreBuild(fuel, preX, siblings, perspective, idx, units);
            var unit := run.outcome.value;
            var married := MarriedSibling(siblings, idx, perspective.id).value.value;
            var spouse := GetPersonSpouseId(married, idx);
            && spouse.Success? && IsTruthy(spouse.value)
            && GetPersonSiblings(spouse.value.value, idx).Success?
            && ParentsMarriageId(idx, siblings[0]).value in idx.marriageById
            && var m := idx.marriageById[ParentsMarriageId(idx, siblings[0]).value];
            && GetPersonSiblings(m.parent1Id, idx).Success? && GetPersonSiblings(m.parent2Id, idx).Success?
            && var first := PreBuild(fuel - 1, 0, GetPersonSiblings(m.parent1Id, idx).value, Perspective(m.parent1Id, Right), idx, units);
            && first.outcome.Success?
            && var second := PreBuild(fuel - 1, first.outcome.value.width, GetPersonSiblings(m.parent2Id, idx).value,
                                      Perspective(m.parent1Id, Left), idx, first.units);
            && var sub := PreBuild(fuel - 1, if perspective.side == Left then unit.x + unit.width else unit.x,
                                   GetPersonSiblings(spouse.value.value, idx).value,
                                   Perspective(spouse.value.value, perspective.side), idx, second.units + [unit]);
            && sub.outcome.Success?
            && run.units == sub.units
  {
    PreBuildWithParents(fuel, preX, siblings, perspective, idx, units);
    var run := PreBuild(fuel, preX, siblings, perspective, idx, units);
    var mid := ParentsMarriageId(idx, siblings[0]).value;
    var m := idx.marriageById[mid];
    var first := PreBuild(fuel - 1, 0, GetPersonSiblings(m.parent1Id, idx).value, Perspective(m.parent1Id, Right), idx, units);
    assert run == SecondParentRun(fuel - 1, preX, siblings, perspective, idx, mid, m, first.outcome.value, first.units);
    var second := PreBuild(fuel - 1, first.outcome.value.width, GetPersonSiblings(m.parent2Id, idx).value,
                           Perspective(m.parent1Id, Left), idx, first.units);
    assert run == GroupRun(fuel - 1, preX, siblings, perspective, idx, first.outcome.value, second.outcome.value, second.units);
    var unit := run.outcome.value;
    var married := MarriedSibling(siblings, idx, perspective.id).value.value;
    assert run == SpouseRun(fuel - 1, unit, married, perspective.side, idx, second.units + [unit]);
  }

  /** The spouse step fails, appending nothing, when the married sibling's
      spouse lookup fails or finds no spouse. */
  lemma SpouseRunNoSpouse(fuel: nat, unit: SiblingsUnit, marriedId: string, side: Side, idx: FamilyIndex,
                          units: seq<SiblingsUnit>)
    ensures GetPersonSpouseId(marriedId, idx).Failure? ==>
              SpouseRun(fuel, unit, marriedId, side, idx, units) == Run(Failure(GetPersonSpouseId(marriedId, idx).error), units)
    ensures GetPersonSpouseId(marriedId, idx).Success? && !IsTruthy(GetPersonSpouseId(marriedId, idx).value) ==>
              SpouseRun(fuel, unit, marriedId, side, idx, units) == Run(Failure(NoSpouse(marriedId)), units)
  {
  }

  predicate AllShiftsZero(us: seq<SiblingsUnit>) {
    forall i :: 0 <= i < |us| ==> us[i].shift == 0
  }

  /** No unit the pre-pass appends carries a shift. */
  lemma {:induction false} PreBuildShiftsZero(fuel: nat, preX: int, siblings: seq<string>, perspective: Perspective,
                                            idx: FamilyIndex, units: seq<SiblingsUnit>)
    requires AllShiftsZero(units)
    ensures AllShiftsZero(PreBuild(fuel, preX, siblings, perspective, idx, units).units)
    decreases fuel, 1
  {
    if fuel > 0 && siblings != [] && Truthy(siblings[0]) && ParentsMarriageId(idx, siblings[0]).Some? {
      var mid := ParentsMarriageId(idx, siblings[0]).value;
      if mid in idx.marriageById {
        var m := idx.marriageById[mid];
        var s1 := GetPersonSiblings(m.parent1Id, idx);
        if Truthy(m.parent1Id) && s1.Success? {
          PreBuildShiftsZero(fuel - 1, 0, s1.value, Perspective(m.parent1Id, Right), idx, units);
          var first := PreBuild(fuel - 1, 0, s1.value, Perspective(m.parent1Id, Right), idx, units);
          if first.outcome.Success? {
            SecondParentRunShiftsZero(fuel - 1, preX, siblings, perspective, idx, mid, m, first.outcome.value, first.units);
          }
        }
      }
    }
  }

  lemma {:induction false} SecondParentRunShiftsZero(fuel: nat, preX: int, siblings: seq<string>, perspective: Perspective,
                                                   idx: FamilyIndex, mid: string, m: Marriage, first: SiblingsUnit,
                                                   units: seq<SiblingsUnit>)
    requires AllShiftsZero(units)
    ensures AllShiftsZero(SecondParentRun(fuel, preX, siblings, perspective, idx, mid, m, first, units).units)
    decreases fuel, 4
  {
    var s2 := GetPersonSiblings(m.parent2Id, idx);
    if Truthy(m.parent2Id) && s2.Success? {
      PreBuildShiftsZero(fuel, first.width, s2.value, Perspective(m.parent1Id, Left), idx, units);
      var second := PreBuild(fuel, first.width, s2.value, Perspective(m.parent1Id, Left), idx, units);
      if second.outcome.Success? {
        GroupRunShiftsZero(fuel, preX, siblings, perspective, idx, first, second.outcome.value, second.units);
      }
    }
  }

  lemma {:induction false} GroupRunShiftsZero(fuel: nat, preX: int, siblings: seq<string>, perspective: Perspective,
                                            idx: FamilyIndex, first: SiblingsUnit, second: SiblingsUnit,
                                            units: seq<SiblingsUnit>)
    requires AllShiftsZero(units)
    ensures AllShiftsZero(GroupRun(fuel, preX, siblings, perspective, idx, first, second, units).units)
    decreases fuel, 3
  {
    var married := MarriedSibling(siblings, idx, perspective.id);
    if married.Success? {
      var unit := ParentedUnit(preX, siblings, perspective, married.value, first, second);
      assert AllShiftsZero(units + [unit]);
      if IsTruthy(married.value) {
        SpouseRunShiftsZero(fuel, unit, married.value.value, perspective.side, idx, units + [unit]);
      }
    }
  }

  lemma {:induction false} SpouseRunShiftsZero(fuel: nat, unit: SiblingsUnit, marriedId: string, side: Side, idx: FamilyIndex,
                                             units: seq<SiblingsUnit>)
    requires AllShiftsZero(units)
    ensures AllShiftsZero(SpouseRun(fuel, unit, marriedId, side, idx, units).units)
    decreases fuel, 2
  {
    var spouse := GetPersonSpouseId(marriedId, idx);
    if spouse.Success? && IsTruthy(spouse.value) {
      var s3 := GetPersonSiblings(spouse.value.value, idx);
      if s3.Success? {
        var spousePreX := if side == Left then unit.x + unit.width else unit.x;
        PreBuildShiftsZero(fuel, spousePreX, s3.value, Perspective(spouse.value.value, side), idx, units);
      }
    }
  }

  /** The recursion bound only matters when it runs out: any larger bound gives
      the same run. */
  lemma {:induction false} PreBuildFuel(fuel: nat, more: nat, preX: int, siblings: seq<string>, perspective: Perspective,
                                      idx: FamilyIndex, units: seq<SiblingsUnit>)
    requires fuel <= more
    requires PreBuild(fuel, preX, siblings, perspective, idx, units).outcome != Failure(OutOfFuel)
    ensures PreBuild(more, preX, siblings, perspective, idx, units) == PreBuild(fuel, preX, siblings, perspective, idx, units)
    decreases fuel, 1
  {
    if siblings != [] && Truthy(siblings[0]) && ParentsMarriageId(idx, siblings[0]).Some? {
      var mid := ParentsMarriageId(idx, siblings[0]).value;
      if mid in idx.marriageById {
        var m := idx.marriageById[mid];
        var s1 := GetPersonSiblings(m.parent1Id, idx);
        if Truthy(m.parent1Id) && s1.Success? {
          var first := PreBuild(fuel - 1, 0, s1.value, Perspective(m.parent1Id, Right), idx, units);
          PreBuildFuel(fuel - 1, more - 1, 0, s1.value, Perspective(m.parent1Id, Right), idx, units);
          if first.outcome.Success? {
            SecondParentRunFuel(fuel - 1, more - 1, preX, siblings, perspective, idx, mid, m, first.outcome.value, first.units);
          }
        }
      }
    }
  }

  lemma {:induction false} SecondParentRunFuel(fuel: nat, more: nat, preX: int, siblings: seq<string>, perspective: Perspective,
                                             idx: FamilyIndex, mid: string, m: Marriage, first: SiblingsUnit,
                                             units: seq<SiblingsUnit>)
    requires fuel <= more
    requires SecondParentRun(fuel, preX, siblings, perspective, idx, mid, m, first, units).outcome != Failure(OutOfFuel)
    ensures SecondParentRun(more, preX, siblings, perspective, idx, mid, m, first, units)
            == SecondParentRun(fuel, preX, siblings, perspective, idx, mid, m, first, units)
    decreases fuel, 4
  {
    var s2 := GetPersonSiblings(m.parent2Id, idx);
    if Truthy(m.parent2Id) && s2.Success? {
      var second := PreBuild(fuel, first.width, s2.value, Perspective(m.parent1Id, Left), idx, units);
      PreBuildFuel(fuel, more, first.width, s2.value, Perspective(m.parent1Id, Left), idx, units);
      if second.outcome.Success? {
        GroupRunFuel(fuel, more, preX, siblings, perspective, idx, first, second.outcome.value, second.units);
      }
    }
  }

  lemma {:induction false} GroupRunFuel(fuel: nat, more: nat, preX: int, siblings: seq<string>, perspective: Perspective,
                                      idx: FamilyIndex, first: SiblingsUnit, second: SiblingsUnit, units: seq<SiblingsUnit>)
    requires fuel <= more
    requires GroupRun(fuel, preX, siblings, perspective, idx, first, second, units).outcome != Failure(OutOfFuel)
    ensures GroupRun(more, preX, siblings, perspective, idx, first, second, units)
            == GroupRun(fuel, preX, siblings, perspective, idx, first, second, units)
    decreases fuel, 3
  {
    var married := MarriedSibling(siblings, idx, perspective.id);
    if married.Success? && IsTruthy(married.value) {
      var unit := ParentedUnit(preX, siblings, perspective, married.value, first, second);
      SpouseRunFuel(fuel, more, unit, married.value.value, perspective.side, idx, units + [unit]);
    }
  }

  lemma {:induction false} SpouseRunFuel(fuel: nat, more: nat, unit: SiblingsUnit, marriedId: string, side: Side,
                                       idx: FamilyIndex, units: seq<SiblingsUnit>)
    requires fuel <= more
    requires SpouseRun(fuel, unit, marriedId, side, idx, units).outcome != Failure(OutOfFuel)
    ensures SpouseRun(more, unit, marriedId, side, idx, units) == SpouseRun(fuel, unit, marriedId, side, idx, units)
    decreases fuel, 2
  {
    var spouse := GetPersonSpouseId(marriedId, idx);
    if spouse.Success? && IsTruthy(spouse.value) {
      var s3 := GetPersonSiblings(spouse.value.value, idx);
      if s3.Success? {
        var spousePreX := if side == Left then unit.x + unit.width else unit.x;
        PreBuildFuel(fuel, more, spousePreX, s3.value, Perspective(spouse.value.value, side), idx, units);
      }
    }
  }

  // ---------------------------------------------------------------------------
  // The pre-pass, imperatively

  /** The shared `preNodes` array: an append-only list of units. */
  class UnitList {
    var units: seq<SiblingsUnit>

    constructor()
      ensures units == []
    {
      units := [];
    }

    method Push(unit: SiblingsUnit)
      modifies this
      ensures units == old(units) + [unit]
    {
      units := units + [unit];
    }
  }

  /** `preBuildSiblings`: returns the unit of the group and leaves the units of
      its whole sub-tree appended to `preNodes`. */
  method PreBuildSiblings(fuel: nat, preX: int, siblings: seq<string>, perspective: Perspective, idx: FamilyIndex,
                          preNodes: UnitList) returns (r: Result<SiblingsUnit, LayoutError>)
    modifies preNodes
    ensures Run(r, preNodes.units) == PreBuild(fuel, preX, siblings, perspective, idx, old(preNodes.units))
    decreases fuel, 1
  {
    if fuel == 0 {
      return Failure(OutOfFuel);
    }
    if siblings == [] || !Truthy(siblings[0]) {
      return Failure(EmptyGroup);
    }
    var parentsMarriageId := ParentsMarriageId(idx, siblings[0]);
    if parentsMarriageId.None? {
      if |siblings| > 1 {
        return Failure(MissingParentsMarriage(siblings[0]));
      }
      var unit := SiblingsUnit(siblings, None, None, preX, SingleSiblingsWidth(siblings), 0, 0);
      preNodes.Push(unit);
      return Success(unit);
    }
    var mid := parentsMarriageId.value;
    if mid !in idx.marriageById {
      return Failure(MissingMarriage(mid));
    }
    var marriage := idx.marriageById[mid];
    if !Truthy(marriage.parent1Id) {
      return Failure(MissingFirstParent(mid));
    }
    var firstSiblings :- GetPersonSiblings(marriage.parent1Id, idx);
    var firstUnit :- PreBuildSiblings(fuel - 1, 0, firstSiblings, Perspective(marriage.parent1Id, Right), idx, preNodes);
    ghost var firstUnits := preNodes.units;
    assert PreBuild(fuel, preX, siblings, perspective, idx, old(preNodes.units))
        == SecondParentRun(fuel - 1, preX, siblings, perspective, idx, mid, marriage, firstUnit, firstUnits);
    if !Truthy(marriage.parent2Id) {
      return Failure(MissingSecondParent(mid));
    }
    var secondSiblings :- GetPersonSiblings(marriage.parent2Id, idx);
    var secondUnit :- PreBuildSiblings(fuel - 1, firstUnit.width, secondSiblings, Perspective(marriage.parent1Id, Left), idx, preNodes);
    ghost var secondUnits := preNodes.units;
    assert PreBuild(fuel, preX, siblings, perspective, idx, old(preNodes.units))
        == GroupRun(fuel - 1, preX, siblings, perspective, idx, firstUnit, secondUnit, secondUnits);
    var married := FindMarriedSibling(siblings, idx, perspective.id);
    if married.Failure? {
      return Failure(married.error);
    }
    var marriedSiblingId := married.value;
    var unit := PlaceGroup(preX, siblings, perspective, marriedSiblingId, firstUnit, secondUnit);
    preNodes.Push(unit);
    if IsTruthy(marriedSiblingId) {
      var spouseOutcome :- BuildSpouseSubtree(fuel - 1, unit, marriedSiblingId.value, perspective.side, idx, preNodes);
    }
    return Success(unit);
  }

  /** The geometry step of `preBuildSiblings` for a group with parents: the
      flanks, then `x` and the width, adjusted in place. */
  method PlaceGroup(preX: int, siblings: seq<string>, perspective: Perspective, marriedSiblingId: Option<string>,
                    firstUnit: SiblingsUnit, secondUnit: SiblingsUnit) returns (unit: SiblingsUnit)
    ensures unit == ParentedUnit(preX, siblings, perspective, marriedSiblingId, firstUnit, secondUnit)
  {
    var parentsUnitsWidth := secondUnit.x + secondUnit.width - firstUnit.x;
    var siblingsWidth := SingleSiblingsWidth(siblings);
    var married := IsTruthy(marriedSiblingId);

    var leftSibling, rightSibling;
    if perspective.side == Right {
      rightSibling := Some(perspective.id);
      leftSibling := if married then marriedSiblingId else None;
    } else {
      leftSibling := Some(perspective.id);
      rightSibling := if married then marriedSiblingId else None;
    }

    var x := preX;
    if perspective.side == Right {
      x := x - siblingsWidth;
    }
    var middlePoint := x + siblingsWidth / 2;
    var mod := middlePoint - (firstUnit.x + firstUnit.width);
    if siblingsWidth < parentsUnitsWidth {
      if IsTruthy(leftSibling) {
        var delta := x - firstUnit.x;
        x := firstUnit.x;
        siblingsWidth := siblingsWidth + delta;
      }
      if IsTruthy(rightSibling) {
        var delta := secondUnit.x + secondUnit.width - (x + siblingsWidth);
        siblingsWidth := siblingsWidth + delta;
      }
    }
    unit := SiblingsUnit(siblings, leftSibling, rightSibling, x, siblingsWidth, mod, 0);
  }

  /** The tail of `preBuildSiblings` once a married sibling was found: its
      spouse's group is laid out beside the unit just pushed. */
  method BuildSpouseSubtree(fuel: nat, unit: SiblingsUnit, marriedId: string, side: Side, idx: FamilyIndex,
                            preNodes: UnitList) returns (r: Result<SiblingsUnit, LayoutError>)
    modifies preNodes
    ensures Run(r, preNodes.units) == SpouseRun(fuel, unit, marriedId, side, idx, old(preNodes.units))
    decreases fuel, 2
  {
    var spouse :- GetPersonSpouseId(marriedId, idx);
    if !IsTruthy(spouse) {
      return Failure(NoSpouse(marriedId));
    }
    var siblingPreX := unit.x;
    if side == Left {
      siblingPreX := siblingPreX + unit.width;
    }
    var spouseSiblings :- GetPersonSiblings(spouse.value, idx);
    var spouseUnit :- PreBuildSiblings(fuel, siblingPreX, spouseSiblings, Perspective(spouse.value, side), idx, preNodes);
    return Success(unit);
  }

  /** `buildNodes`: lays out the perspective's group from 0 on the right side.
      No finaliser exists yet, so it yields no nodes and no edges. */
  method BuildNodes(perspectiveId: string, idx: FamilyIndex, fuel: nat) returns (r: Result<(seq<Node>, seq<Edge>), LayoutError>)
    ensures GetPersonSiblings(perspectiveId, idx).Failure? ==> r == Failure(GetPersonSiblings(perspectiveId, idx).error)
    ensures GetPersonSiblings(perspectiveId, idx).Success? ==>
              var run := PreBuild(fuel, 0, GetPersonSiblings(perspectiveId, idx).value, Perspective(perspectiveId, Right), idx, []);
              if run.outcome.Success? then r == Success(([], [])) else r == Failure(run.outcome.error)
  {
    var preNodes := new UnitList();
    var siblings :- GetPersonSiblings(perspectiveId, idx);
    var rootSiblingsUnit :- PreBuildSiblings(fuel, 0, siblings, Perspective(perspectiveId, Right), idx, preNodes);
    return Success(([], []));
  }
}
