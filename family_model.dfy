/** The family data model of `src/model.ts`: persons, marriages, the index
    `buildIndex` folds them into, the placeholder node list `buildNodes` emits
    from that index, and the built-in demo family. */
module FamilyModel {
  import opened Wrappers
  import opened OrderedMaps

  datatype Person = Person(id: string, name: string)

  /** A marriage; an empty parent id stands for an unknown parent. The order of
      `childrenIds` is the left-to-right order of the siblings. */
  datatype Marriage = Marriage(id: string, parent1Id: string, parent2Id: string, childrenIds: seq<string>)

  datatype Family = Family(persons: seq<Person>, marriages: seq<Marriage>)

  /** The index of `src/model.ts`. `personParents` maps a child to the two parent
      ids of its parents' marriage (not to a marriage id). */
  datatype Index = Index(
    personById: OMap<Person>,
    personMarriages: OMap<seq<Marriage>>,
    personChildren: OMap<seq<string>>,
    personParents: OMap<seq<string>>)

  datatype NodeKind = PersonNode | MarriageNode

  /** A diagram node: only its id, label, position and type are modelled. */
  datatype Node = Node(id: string, caption: string, x: int, y: int, kind: NodeKind)

  // ---------------------------------------------------------------------------
  // The demo family

  /** Three generations: Yaroslav and Halia are the parents of Pavlo, Nastia and
      Mykhailo; Serhii and Halina are the parents of Vita and Katia; Pavlo and
      Katia are married and childless. */
  function DefaultFamily(): (f: Family)
    ensures |f.persons| == 9 && |f.marriages| == 3
  {
    var pavlo := Person("1", "Pavlo");
    var katia := Person("2", "Katia");
    var serhii := Person("3", "Serhii");
    var halina := Person("4", "Halina");
    var yaroslav := Person("5", "Yaroslav");
    var halia := Person("6", "Halia");
    var nastia := Person("7", "Nastia");
    var mykhailo := Person("8", "Mykhailo");
    var vita := Person("9", "Vita");
    var m1 := Marriage("1", pavlo.id, katia.id, []);
    var m2 := Marriage("2", yaroslav.id, halia.id, [pavlo.id, nastia.id, mykhailo.id]);
    var m3 := Marriage("3", serhii.id, halina.id, [vita.id, katia.id]);
    var persons := [pavlo, katia, serhii, halina, yaroslav, halia, nastia, mykhailo, vita];
    Family(persons, [m1, m2, m3])
  }

  /** The demo family has nine people with distinct ids and three marriages,
      `1` childless, `2` with children `1`, `7`, `8` and `3` with `9`, `2`, all
      of whose parents are among the people. */
  lemma DefaultFamilyShape()
    ensures var f := DefaultFamily();
            && |f.persons| == 9 && |f.marriages| == 3
            && DistinctIds(f.persons)
            && (forall i :: 0 <= i < |f.marriages| ==> f.marriages[i].id == ["1", "2", "3"][i])
            && f.marriages[0].childrenIds == []
            && f.marriages[1].childrenIds == ["1", "7", "8"]
            && f.marriages[2].childrenIds == ["9", "2"]
            && (forall i :: 0 <= i < |f.marriages| ==>
                  f.marriages[i].parent1Id in PersonIds(f.persons) && f.marriages[i].parent2Id in PersonIds(f.persons))
  {
    var ids := PersonIds(DefaultFamily().persons);
    assert ids[0] == "1" && ids[1] == "2" && ids[2] == "3" && ids[3] == "4" && ids[4] == "5" && ids[5] == "6";
  }

  function PersonIds(ps: seq<Person>): seq<string> {
    seq(|ps|, i requires 0 <= i < |ps| => ps[i].id)
  }

  ghost predicate DistinctIds(ps: seq<Person>) {
    forall i, j :: 0 <= i < j < |ps| ==> ps[i].id != ps[j].id
  }

  // ---------------------------------------------------------------------------
  // buildIndex, as a fold over the input (the specification of BuildIndex)

  /** `new Map(persons.map(p => [p.id, p]))`. */
  function PersonsById(ps: seq<Person>): OMap<Person>
  {
    if ps == [] then Empty() else Set(PersonsById(ps[..|ps| - 1]), ps[|ps| - 1].id, ps[|ps| - 1])
  }

  /** For each id of `ids` in turn, append `x` to the list stored under that id. */
  function AppendAll<T>(om: OMap<seq<T>>, ids: seq<string>, x: T): OMap<seq<T>>
  {
    if ids == [] then om
    else
      var before := AppendAll(om, ids[..|ids| - 1], x);
      var id := ids[|ids| - 1];
      Set(before, id, GetOr(before, id, []) + [x])
  }

  /** The three maps the marriage loop builds. */
  datatype Relations = Relations(
    personMarriages: OMap<seq<Marriage>>,
    personChildren: OMap<seq<string>>,
    personParents: OMap<seq<string>>)

  function NoRelations(): Relations {
    Relations(Empty(), Empty(), Empty())
  }

  /** The children loop of one marriage, over the children `cs`. */
  function AddChildren(rel: Relations, m: Marriage, cs: seq<string>): Relations
  {
    if cs == [] then rel
    else
      var before := AddChildren(rel, m, cs[..|cs| - 1]);
      var c := cs[|cs| - 1];
      Relations(
        before.personMarriages,
        AppendAll(before.personChildren, [m.parent1Id, m.parent2Id], c),
        Set(before.personParents, c, [m.parent1Id, m.parent2Id]))
  }

  /** One iteration of the marriage loop. */
  function AddMarriage(rel: Relations, m: Marriage): Relations
  {
    AddChildren(WithSlots(rel, m), m, m.childrenIds)
  }

  function FoldMarriages(ms: seq<Marriage>): Relations
  {
    if ms == [] then NoRelations() else AddMarriage(FoldMarriages(ms[..|ms| - 1]), ms[|ms| - 1])
  }

  function IndexOf(f: Family): Index
  {
    var rel := FoldMarriages(f.marriages);
    Index(PersonsById(f.persons), rel.personMarriages, rel.personChildren, rel.personParents)
  }

  /** `buildIndex`: a map per relation, built by loops that append. */
  method BuildIndex(family: Family) returns (index: Index)
    ensures index == IndexOf(family)
  {
    var personById := PersonsById(family.persons);
    var personMarriages: OMap<seq<Marriage>> := Empty();
    var personChildren: OMap<seq<string>> := Empty();
    var personParents: OMap<seq<string>> := Empty();
    var ms := family.marriages;
    for i := 0 to |ms|
      invariant Relations(personMarriages, personChildren, personParents) == FoldMarriages(ms[..i])
    {
      var marriage := ms[i];
      var slots := [marriage.parent1Id, marriage.parent2Id];
      ghost var marriagesBefore := personMarriages;
      for j := 0 to 2
        invariant personMarriages == AppendAll(marriagesBefore, slots[..j], marriage)
      {
        var parentMarriages := GetOr(personMarriages, slots[j], []);
        personMarriages := Set(personMarriages, slots[j], parentMarriages + [marriage]);
        assert slots[..j + 1][..j] == slots[..j];
      }
      assert slots[..2] == slots;
      ghost var start := Relations(personMarriages, personChildren, personParents);
      var children := marriage.childrenIds;
      for k := 0 to |children|
        invariant personMarriages == start.personMarriages
        invariant Relations(personMarriages, personChildren, personParents) == AddChildren(start, marriage, children[..k])
      {
        var childId := children[k];
        personParents := Set(personParents, childId, [marriage.parent1Id, marriage.parent2Id]);
        ghost var childrenBefore := personChildren;
        for j := 0 to 2
          invariant personChildren == AppendAll(childrenBefore, slots[..j], childId)
        {
          var siblings := GetOr(personChildren, slots[j], []);
          personChildren := Set(personChildren, slots[j], siblings + [childId]);
          assert slots[..j + 1][..j] == slots[..j];
        }
        assert slots[..2] == slots;
        assert children[..k + 1][..k] == children[..k];
      }
      assert children[..|children|] == children;
      assert ms[..i + 1][..i] == ms[..i];
    }
    assert ms[..|ms|] == ms;
    index := Index(personById, personMarriages, personChildren, personParents);
  }

  // ---------------------------------------------------------------------------
  // What the index holds, against reference definitions

  ghost predicate HasId(ps: seq<Person>, k: string) {
    exists i :: 0 <= i < |ps| && ps[i].id == k
  }

  /** `p` is the last person of `ps` whose id is `k`. */
  ghost predicate IsLastWithId(ps: seq<Person>, p: Person, k: string) {
    exists i :: 0 <= i < |ps| && ps[i] == p && p.id == k && forall j :: i < j < |ps| ==> ps[j].id != k
  }

  /** `personById` has an entry for exactly the ids of the input. */
  lemma {:induction false} PersonsByIdKeys(ps: seq<Person>, k: string)
    ensures Get(PersonsById(ps), k).Some? <==> HasId(ps, k)
  {
    if ps != [] {
      var n := |ps|;
      var init, last := ps[..n - 1], ps[n - 1];
      PersonsByIdKeys(init, k);
      GetSet(PersonsById(init), last.id, last, k);
      if last.id == k {
        assert ps[n - 1].id == k;
      } else {
        if HasId(ps, k) {
          var i :| 0 <= i < n && ps[i].id == k;
          assert init[i].id == k;
        }
        if HasId(init, k) {
          var i :| 0 <= i < n - 1 && init[i].id == k;
          assert ps[i].id == k;
        }
      }
    }
  }

  /** Each id of `personById` maps to the LAST person of the input carrying it. */
  lemma {:induction false} PersonsByIdLastWins(ps: seq<Person>, k: string)
    requires Get(PersonsById(ps), k).Some?
    ensures IsLastWithId(ps, Get(PersonsById(ps), k).value, k)
  {
    var n := |ps|;
    var init, last := ps[..n - 1], ps[n - 1];
    GetSet(PersonsById(init), last.id, last, k);
    if last.id == k {
      assert ps[n - 1] == Get(PersonsById(ps), k).value;
    } else {
      PersonsByIdLastWins(init, k);
      var p := Get(PersonsById(init), k).value;
      var i :| 0 <= i < n - 1 && init[i] == p && p.id == k && forall j :: i < j < n - 1 ==> init[j].id != k;
      assert ps[i] == p;
      forall j | i < j < n ensures ps[j].id != k {
        if j < n - 1 { assert ps[j] == init[j]; }
      }
    }
  }

  /** With distinct ids, `personById` has exactly one entry per person. */
  lemma {:induction false} PersonsByIdSize(ps: seq<Person>)
    requires DistinctIds(ps)
    ensures |PersonsById(ps)| == |ps|
  {
    if ps != [] {
      var n := |ps|;
      var init := ps[..n - 1];
      PersonsByIdSize(init);
      PersonsByIdKeys(init, ps[n - 1].id);
      SetKeys(PersonsById(init), ps[n - 1].id, ps[n - 1]);
    }
  }

  /** The values that appending `x` for each of `ids` adds under key `p`. */
  function AppendedFor<T>(ids: seq<string>, p: string, x: T): seq<T>
  {
    if ids == [] then [] else AppendedFor(ids[..|ids| - 1], p, x) + (if ids[|ids| - 1] == p then [x] else [])
  }

  lemma AppendedForPair<T>(a: string, b: string, p: string, x: T)
    ensures AppendedFor([a, b], p, x) == (if a == p then [x] else []) + (if b == p then [x] else [])
  {
    assert [a][..0] == [];
    assert AppendedFor([a], p, x) == (if a == p then [x] else []);
    assert [a, b][..1] == [a];
  }

  lemma {:induction false} AppendAllGet<T>(om: OMap<seq<T>>, ids: seq<string>, x: T, p: string)
    ensures GetOr(AppendAll(om, ids, x), p, []) == GetOr(om, p, []) + AppendedFor(ids, p, x)
    ensures Get(AppendAll(om, ids, x), p).Some? <==> Get(om, p).Some? || p in ids
  {
    if ids != [] {
      var init := ids[..|ids| - 1];
      AppendAllGet(om, init, x, p);
      var before := AppendAll(om, init, x);
      var id := ids[|ids| - 1];
      GetSet(before, id, GetOr(before, id, []) + [x], p);
      assert ids == init + [id];
    }
  }

  lemma {:induction false} AppendAllTotal<T>(om: OMap<seq<T>>, ids: seq<string>, x: T)
    ensures SumLengths(Values(AppendAll(om, ids, x))) == SumLengths(Values(om)) + |ids|
  {
    if ids != [] {
      var init := ids[..|ids| - 1];
      AppendAllTotal(om, init, x);
      var before := AppendAll(om, init, x);
      var id := ids[|ids| - 1];
      SumLengthsSet(before, id, GetOr(before, id, []) + [x]);
    }
  }

  /** Reference: the marriages of `p`, in input order; a marriage in which `p`
      fills both parent slots appears twice. */
  function MarriagesOf(ms: seq<Marriage>, p: string): seq<Marriage>
  {
    if ms == [] then []
    else
      var m := ms[|ms| - 1];
      MarriagesOf(ms[..|ms| - 1], p) + (if m.parent1Id == p then [m] else []) + (if m.parent2Id == p then [m] else [])
  }

  /** Reference: what one marriage contributes to the children list of `p`.
      Each child is appended once per parent slot `p` fills, child by child, so a
      marriage in which `p` fills both slots contributes every child twice in a row. */
  function ChildrenContribution(m: Marriage, p: string, cs: seq<string>): seq<string>
  {
    if cs == [] then []
    else
      var c := cs[|cs| - 1];
      ChildrenContribution(m, p, cs[..|cs| - 1]) + (if m.parent1Id == p then [c] else []) + (if m.parent2Id == p then [c] else [])
  }

  /** Reference: the children list of `p`, in marriage order. */
  function ChildrenOf(ms: seq<Marriage>, p: string): seq<string>
  {
    if ms == [] then []
    else
      var m := ms[|ms| - 1];
      ChildrenOf(ms[..|ms| - 1], p) + ChildrenContribution(m, p, m.childrenIds)
  }

  /** When `p` fills exactly one parent slot, its contribution is the marriage's
      children list as it stands; when it fills none, nothing. */
  lemma {:induction false} ChildrenContributionOneSlot(m: Marriage, p: string, cs: seq<string>)
    ensures (m.parent1Id == p) != (m.parent2Id == p) ==> ChildrenContribution(m, p, cs) == cs
    ensures m.parent1Id != p && m.parent2Id != p ==> ChildrenContribution(m, p, cs) == []
  {
    if cs != [] {
      ChildrenContributionOneSlot(m, p, cs[..|cs| - 1]);
      assert cs == cs[..|cs| - 1] + [cs[|cs| - 1]];
    }
  }

  ghost predicate IsParentIn(ms: seq<Marriage>, p: string) {
    exists i :: 0 <= i < |ms| && (ms[i].parent1Id == p || ms[i].parent2Id == p)
  }

  ghost predicate IsChildIn(ms: seq<Marriage>, c: string) {
    exists i :: 0 <= i < |ms| && c in ms[i].childrenIds
  }

  /** The children loop leaves `personMarriages` alone and records, for each
      of its children, the marriage's parent slots in `personParents`. */
  lemma {:induction false} AddChildrenParents(rel: Relations, m: Marriage, cs: seq<string>, p: string)
    ensures AddChildren(rel, m, cs).personMarriages == rel.personMarriages
    ensures p in cs ==> Get(AddChildren(rel, m, cs).personParents, p) == Some([m.parent1Id, m.parent2Id])
    ensures p !in cs ==> Get(AddChildren(rel, m, cs).personParents, p) == Get(rel.personParents, p)
  {
    if cs != [] {
      var init := cs[..|cs| - 1];
      var c := cs[|cs| - 1];
      AddChildrenParents(rel, m, init, p);
      var before := AddChildren(rel, m, init);
      GetSet(before.personParents, c, [m.parent1Id, m.parent2Id], p);
      assert cs == init + [c];
    }
  }

  /** The children loop appends this marriage's contribution to `p`'s children. */
  lemma {:induction false} AddChildrenChildren(rel: Relations, m: Marriage, cs: seq<string>, p: string)
    ensures GetOr(AddChildren(rel, m, cs).personChildren, p, [])
            == GetOr(rel.personChildren, p, []) + ChildrenContribution(m, p, cs)
    ensures Get(AddChildren(rel, m, cs).personChildren, p).Some? <==>
            Get(rel.personChildren, p).Some? || (cs != [] && (p == m.parent1Id || p == m.parent2Id))
  {
    if cs != [] {
      var init := cs[..|cs| - 1];
      var c := cs[|cs| - 1];
      AddChildrenChildren(rel, m, init, p);
      var before := AddChildren(rel, m, init);
      AppendAllGet(before.personChildren, [m.parent1Id, m.parent2Id], c, p);
      AppendedForPair(m.parent1Id, m.parent2Id, p, c);
    }
  }

  /** The marriage-slot step of one marriage, before its children. */
  function WithSlots(rel: Relations, m: Marriage): Relations {
    Relations(AppendAll(rel.personMarriages, [m.parent1Id, m.parent2Id], m), rel.personChildren, rel.personParents)
  }

  /** `personMarriages` holds, under each id, that id's marriages in input order. */
  lemma {:induction false} PersonMarriagesContents(ms: seq<Marriage>, p: string)
    ensures GetOr(FoldMarriages(ms).personMarriages, p, []) == MarriagesOf(ms, p)
  {
    if ms != [] {
      var init, m := ms[..|ms| - 1], ms[|ms| - 1];
      PersonMarriagesContents(init, p);
      var rel := FoldMarriages(init);
      AppendAllGet(rel.personMarriages, [m.parent1Id, m.parent2Id], m, p);
      AppendedForPair(m.parent1Id, m.parent2Id, p, m);
      AddChildrenParents(WithSlots(rel, m), m, m.childrenIds, p);
    }
  }

  /** One marriage step changes `personMarriages` only by the two slot appends. */
  lemma FoldMarriagesSlots(ms: seq<Marriage>)
    requires ms != []
    ensures var m := ms[|ms| - 1];
            FoldMarriages(ms).personMarriages
            == AppendAll(FoldMarriages(ms[..|ms| - 1]).personMarriages, [m.parent1Id, m.parent2Id], m)
  {
    var m := ms[|ms| - 1];
    AddChildrenParents(WithSlots(FoldMarriages(ms[..|ms| - 1]), m), m, m.childrenIds, "");
  }

  /** The keys of `personMarriages` are exactly the ids found in a parent slot
      of some marriage. */
  lemma {:induction false} PersonMarriagesKeys(ms: seq<Marriage>, p: string)
    ensures Get(FoldMarriages(ms).personMarriages, p).Some? <==> IsParentIn(ms, p)
  {
    if ms != [] {
      var init, m := ms[..|ms| - 1], ms[|ms| - 1];
      PersonMarriagesKeys(init, p);
      PersonMarriagesKeysStep(ms, p);
      ParentInSnoc(init, m, p);
      assert ms == init + [m];
    }
  }

  /** One marriage step adds exactly its two parent slots to the keys. */
  lemma PersonMarriagesKeysStep(ms: seq<Marriage>, p: string)
    requires ms != []
    ensures var m := ms[|ms| - 1];
            Get(FoldMarriages(ms).personMarriages, p).Some? <==>
              Get(FoldMarriages(ms[..|ms| - 1]).personMarriages, p).Some? || p == m.parent1Id || p == m.parent2Id
  {
    var m := ms[|ms| - 1];
    FoldMarriagesSlots(ms);
    AppendAllGet(FoldMarriages(ms[..|ms| - 1]).personMarriages, [m.parent1Id, m.parent2Id], m, p);
  }

  lemma ParentInSnoc(ms: seq<Marriage>, m: Marriage, p: string)
    ensures IsParentIn(ms + [m], p) <==> IsParentIn(ms, p) || m.parent1Id == p || m.parent2Id == p
  {
    var ms' := ms + [m];
    if IsParentIn(ms', p) && !(m.parent1Id == p || m.parent2Id == p) {
      var i :| 0 <= i < |ms'| && (ms'[i].parent1Id == p || ms'[i].parent2Id == p);
      assert ms[i] == ms'[i];
    }
    if IsParentIn(ms, p) {
      var i :| 0 <= i < |ms| && (ms[i].parent1Id == p || ms[i].parent2Id == p);
      assert ms'[i] == ms[i];
    }
    if m.parent1Id == p || m.parent2Id == p {
      assert ms'[|ms|] == m;
    }
  }

  /** Every marriage is appended to two lists, so all the lists of
      `personMarriages` together are twice as long as the marriage list. */
  lemma {:induction false} PersonMarriagesTotal(ms: seq<Marriage>)
    ensures SumLengths(Values(FoldMarriages(ms).personMarriages)) == 2 * |ms|
  {
    if ms != [] {
      var init := ms[..|ms| - 1];
      var m := ms[|ms| - 1];
      PersonMarriagesTotal(init);
      var rel := FoldMarriages(init);
      AppendAllTotal(rel.personMarriages, [m.parent1Id, m.parent2Id], m);
      AddChildrenParents(WithSlots(rel, m), m, m.childrenIds, "");
    }
  }

  /** `p`'s parents are the slots of the marriage `ms[i]`, the last that lists `c`. */
  ghost predicate IsLastParentsOf(ms: seq<Marriage>, c: string, parents: seq<string>) {
    exists i :: 0 <= i < |ms| && c in ms[i].childrenIds && parents == [ms[i].parent1Id, ms[i].parent2Id] &&
                forall j :: i < j < |ms| ==> c !in ms[j].childrenIds
  }

  /** The keys of `personParents` are exactly the children of some marriage. */
  lemma {:induction false} PersonParentsKeys(ms: seq<Marriage>, c: string)
    ensures Get(FoldMarriages(ms).personParents, c).Some? <==> IsChildIn(ms, c)
  {
    if ms != [] {
      var init, m := ms[..|ms| - 1], ms[|ms| - 1];
      PersonParentsKeys(init, c);
      var rel := FoldMarriages(init);
      AddChildrenParents(WithSlots(rel, m), m, m.childrenIds, c);
      ChildInSnoc(init, m, c);
      assert ms == init + [m];
    }
  }

  /** Each child in `personParents` maps to the parent slots of the LAST
      marriage listing that child. */
  lemma {:induction false} PersonParentsLastWins(ms: seq<Marriage>, c: string)
    requires Get(FoldMarriages(ms).personParents, c).Some?
    ensures IsLastParentsOf(ms, c, Get(FoldMarriages(ms).personParents, c).value)
  {
    var init, m := ms[..|ms| - 1], ms[|ms| - 1];
    var rel := FoldMarriages(init);
    AddChildrenParents(WithSlots(rel, m), m, m.childrenIds, c);
    assert ms == init + [m];
    if c in m.childrenIds {
      LastParentsSnoc(init, m, c, [m.parent1Id, m.parent2Id]);
    } else {
      PersonParentsLastWins(init, c);
      LastParentsSnoc(init, m, c, Get(rel.personParents, c).value);
    }
  }

  lemma ChildInSnoc(ms: seq<Marriage>, m: Marriage, c: string)
    ensures IsChildIn(ms + [m], c) <==> IsChildIn(ms, c) || c in m.childrenIds
  {
    var ms' := ms + [m];
    if IsChildIn(ms', c) && c !in m.childrenIds {
      var i :| 0 <= i < |ms'| && c in ms'[i].childrenIds;
      assert ms[i] == ms'[i];
    }
    if IsChildIn(ms, c) {
      var i :| 0 <= i < |ms| && c in ms[i].childrenIds;
      assert ms'[i] == ms[i];
    }
    if c in m.childrenIds {
      assert ms'[|ms|] == m;
    }
  }

  lemma LastParentsSnoc(ms: seq<Marriage>, m: Marriage, c: string, parents: seq<string>)
    requires (c in m.childrenIds && parents == [m.parent1Id, m.parent2Id]) ||
             (c !in m.childrenIds && IsLastParentsOf(ms, c, parents))
    ensures IsLastParentsOf(ms + [m], c, parents)
  {
    var ms' := ms + [m];
    if c in m.childrenIds {
      assert ms'[|ms|] == m;
    } else {
      var i :| 0 <= i < |ms| && c in ms[i].childrenIds && parents == [ms[i].parent1Id, ms[i].parent2Id] &&
               forall j :: i < j < |ms| ==> c !in ms[j].childrenIds;
      assert ms'[i] == ms[i];
      forall j | i < j < |ms'| ensures c !in ms'[j].childrenIds {
        if j < |ms| { assert ms'[j] == ms[j]; }
      }
    }
  }

  /** `personChildren`: each parent's children in marriage order, and only ids
      that also have an entry in `personMarriages` are keys. */
  lemma {:induction false} PersonChildrenContents(ms: seq<Marriage>, p: string)
    ensures GetOr(FoldMarriages(ms).personChildren, p, []) == ChildrenOf(ms, p)
    ensures Get(FoldMarriages(ms).personChildren, p).Some? ==> Get(FoldMarriages(ms).personMarriages, p).Some?
  {
    if ms != [] {
      var init := ms[..|ms| - 1];
      var m := ms[|ms| - 1];
      PersonChildrenContents(init, p);
      var rel := FoldMarriages(init);
      AppendAllGet(rel.personMarriages, [m.parent1Id, m.parent2Id], m, p);
      AddChildrenParents(WithSlots(rel, m), m, m.childrenIds, p);
      AddChildrenChildren(WithSlots(rel, m), m, m.childrenIds, p);
    }
  }

  // ---------------------------------------------------------------------------
  // buildNodes

  function PersonNodeOf(p: Person): Node {
    Node(p.id, p.name, 100, 100, PersonNode)
  }

  function MarriageNodeOf(m: Marriage): Node {
    Node(m.id, "", 100, 100, MarriageNode)
  }

  function PersonNodes(ps: seq<Person>): (r: seq<Node>)
  {
    if ps == [] then [] else PersonNodes(ps[..|ps| - 1]) + [PersonNodeOf(ps[|ps| - 1])]
  }

  function MarriageNodes(ms: seq<Marriage>): (r: seq<Node>)
  {
    if ms == [] then [] else MarriageNodes(ms[..|ms| - 1]) + [MarriageNodeOf(ms[|ms| - 1])]
  }

  /** One marriage node per entry of every list, list after list. */
  function AllMarriageNodes(lists: seq<seq<Marriage>>): (r: seq<Node>)
  {
    if lists == [] then [] else AllMarriageNodes(lists[..|lists| - 1]) + MarriageNodes(lists[|lists| - 1])
  }

  /** The lists one after another. */
  function Flatten<T>(lists: seq<seq<T>>): seq<T>
  {
    if lists == [] then [] else Flatten(lists[..|lists| - 1]) + lists[|lists| - 1]
  }

  function NodesOf(index: Index): seq<Node> {
    PersonNodes(Values(index.personById)) + AllMarriageNodes(Values(index.personMarriages))
  }

  lemma {:induction false} PersonNodesShape(ps: seq<Person>)
    ensures |PersonNodes(ps)| == |ps|
    ensures forall i :: 0 <= i < |ps| ==> PersonNodes(ps)[i] == PersonNodeOf(ps[i])
  {
    if ps != [] { PersonNodesShape(ps[..|ps| - 1]); }
  }

  lemma {:induction false} MarriageNodesShape(ms: seq<Marriage>)
    ensures |MarriageNodes(ms)| == |ms|
    ensures forall i :: 0 <= i < |ms| ==> MarriageNodes(ms)[i] == MarriageNodeOf(ms[i])
  {
    if ms != [] { MarriageNodesShape(ms[..|ms| - 1]); }
  }

  lemma {:induction false} MarriageNodesAppend(a: seq<Marriage>, b: seq<Marriage>)
    ensures MarriageNodes(a + b) == MarriageNodes(a) + MarriageNodes(b)
  {
    if b != [] {
      MarriageNodesAppend(a, b[..|b| - 1]);
      assert (a + b)[..|a + b| - 1] == a + b[..|b| - 1];
    } else {
      assert a + b == a;
    }
  }

  /** The marriage nodes are those of the flattened lists: node `i` stands for
      the `i`-th marriage entry, list after list. */
  lemma {:induction false} AllMarriageNodesShape(lists: seq<seq<Marriage>>)
    ensures AllMarriageNodes(lists) == MarriageNodes(Flatten(lists))
    ensures |AllMarriageNodes(lists)| == |Flatten(lists)| == SumLengths(lists)
    ensures forall i :: 0 <= i < |Flatten(lists)| ==> AllMarriageNodes(lists)[i] == MarriageNodeOf(Flatten(lists)[i])
    ensures forall i :: 0 <= i < |AllMarriageNodes(lists)| ==> AllMarriageNodes(lists)[i].kind == MarriageNode
  {
    if lists != [] {
      var n := |lists|;
      AllMarriageNodesShape(lists[..n - 1]);
      MarriageNodesAppend(Flatten(lists[..n - 1]), lists[n - 1]);
      assert lists == lists[..n - 1] + [lists[n - 1]];
      SumLengthsAppend(lists[..n - 1], [lists[n - 1]]);
      assert SumLengths([lists[n - 1]]) == |lists[n - 1]| by {
        assert [lists[n - 1]][1..] == [];
      }
    }
    MarriageNodesShape(Flatten(lists));
  }

  /** The node list holds one person node per entry of `personById`, in map
      order, followed by one marriage node per entry of every `personMarriages`
      list, list after list. */
  lemma NodesOfShape(index: Index)
    ensures |NodesOf(index)| == |index.personById| + SumLengths(Values(index.personMarriages))
    ensures |NodesOf(index)| == |index.personById| + |Flatten(Values(index.personMarriages))|
    ensures forall i :: 0 <= i < |index.personById| ==> NodesOf(index)[i] == PersonNodeOf(index.personById[i].value)
    ensures forall i :: 0 <= i < |Flatten(Values(index.personMarriages))| ==>
              NodesOf(index)[|index.personById| + i] == MarriageNodeOf(Flatten(Values(index.personMarriages))[i])
    ensures forall i :: |index.personById| <= i < |NodesOf(index)| ==> NodesOf(index)[i].kind == MarriageNode
  {
    PersonNodesShape(Values(index.personById));
    AllMarriageNodesShape(Values(index.personMarriages));
    var n := |index.personById|;
    forall i | n <= i < |NodesOf(index)| ensures NodesOf(index)[i].kind == MarriageNode {
      assert NodesOf(index)[i] == AllMarriageNodes(Values(index.personMarriages))[i - n];
    }
  }

  /** `buildNodes`: a person node per entry of `personById`, then a marriage
      node per entry of every `personMarriages` list, in map order. */
  method BuildNodes(index: Index) returns (nodes: seq<Node>)
    ensures nodes == NodesOf(index)
  {
    nodes := [];
    var persons := Values(index.personById);
    for i := 0 to |persons|
      invariant nodes == PersonNodes(persons[..i])
    {
      nodes := nodes + [PersonNodeOf(persons[i])];
      assert persons[..i + 1][..i] == persons[..i];
    }
    assert persons[..|persons|] == persons;
    var lists := Values(index.personMarriages);
    for i := 0 to |lists|
      invariant nodes == PersonNodes(persons) + AllMarriageNodes(lists[..i])
    {
      var marriages := lists[i];
      nodes := PushMarriageNodes(nodes, marriages);
      assert lists[..i + 1][..i] == lists[..i];
      assert AllMarriageNodes(lists[..i + 1]) == AllMarriageNodes(lists[..i]) + MarriageNodes(marriages);
      assert nodes == PersonNodes(persons) + (AllMarriageNodes(lists[..i]) + MarriageNodes(marriages));
    }
    assert lists[..|lists|] == lists;
  }

  /** The inner loop of `buildNodes`: one marriage node per marriage of a list,
      pushed in order. */
  method PushMarriageNodes(nodes: seq<Node>, marriages: seq<Marriage>) returns (r: seq<Node>)
    ensures r == nodes + MarriageNodes(marriages)
  {
    r := nodes;
    for j := 0 to |marriages|
      invariant r == nodes + MarriageNodes(marriages[..j])
    {
      r := r + [MarriageNodeOf(marriages[j])];
      assert marriages[..j + 1][..j] == marriages[..j];
    }
    assert marriages[..|marriages|] == marriages;
  }

  /** With distinct person ids the index yields one node per person plus two
      marriage nodes per marriage. */
  lemma NodeCount(f: Family)
    requires DistinctIds(f.persons)
    ensures |NodesOf(IndexOf(f))| == |f.persons| + 2 * |f.marriages|
  {
    PersonsByIdSize(f.persons);
    PersonMarriagesTotal(f.marriages);
    NodesOfShape(IndexOf(f));
  }

  /** In the demo family Katia's parents are Serhii and Halina. */
  lemma DefaultFamilyKatiaParents()
    ensures Get(FoldMarriages(DefaultFamily().marriages).personParents, "2") == Some(["3", "4"])
  {
    var ms := DefaultFamily().marriages;
    assert "2" in ms[2].childrenIds;
    PersonParentsKeys(ms, "2");
    PersonParentsLastWins(ms, "2");
  }

  /** In the demo family Yaroslav has no recorded parents. */
  lemma DefaultFamilyYaroslavOrphan()
    ensures Get(FoldMarriages(DefaultFamily().marriages).personParents, "5") == None
  {
    PersonParentsKeys(DefaultFamily().marriages, "5");
  }

  /** In the demo family Yaroslav's children are Pavlo, Nastia and Mykhailo. */
  lemma DefaultFamilyYaroslavChildren()
    ensures GetOr(FoldMarriages(DefaultFamily().marriages).personChildren, "5", []) == ["1", "7", "8"]
  {
    var ms := DefaultFamily().marriages;
    var m1, m2, m3 := Marriage("1", "1", "2", []), Marriage("2", "5", "6", ["1", "7", "8"]), Marriage("3", "3", "4", ["9", "2"]);
    assert ms == [m1, m2, m3];
    PersonChildrenContents(ms, "5");
    ChildrenContributionOneSlot(m1, "5", m1.childrenIds);
    ChildrenContributionOneSlot(m2, "5", m2.childrenIds);
    ChildrenContributionOneSlot(m3, "5", m3.childrenIds);
    assert [m1, m2, m3][..2] == [m1, m2];
    assert [m1, m2][..1] == [m1];
    assert [m1][..0] == [];
    assert ChildrenOf([m1], "5") == [];
    assert ChildrenOf([m1, m2], "5") == ["1", "7", "8"];
  }

  /** In the demo family Pavlo's only marriage is the childless one. */
  lemma DefaultFamilyPavloMarriages()
    ensures GetOr(FoldMarriages(DefaultFamily().marriages).personMarriages, "1", []) == [DefaultFamily().marriages[0]]
  {
    var ms := DefaultFamily().marriages;
    var m1, m2, m3 := Marriage("1", "1", "2", []), Marriage("2", "5", "6", ["1", "7", "8"]), Marriage("3", "3", "4", ["9", "2"]);
    assert ms == [m1, m2, m3];
    PersonMarriagesContents(ms, "1");
    assert [m1, m2, m3][..2] == [m1, m2];
    assert [m1, m2][..1] == [m1];
    assert [m1][..0] == [];
    assert MarriagesOf([m1], "1") == [m1];
    assert MarriagesOf([m1, m2], "1") == [m1];
  }

  /** The demo family yields 9 person nodes and 6 marriage nodes. */
  lemma DefaultFamilyNodeCount()
    ensures |NodesOf(IndexOf(DefaultFamily()))| == 15
  {
    NodeCount(DefaultFamily());
  }
}
