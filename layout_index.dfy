/** The family index as the two layout passes (`src/layout.ts`, `src/layout2.ts`)
    read it, the errors they throw, and JavaScript truthiness of ids.

    Unlike the index `buildIndex` produces, the layout passes look up a child's
    parental MARRIAGE ID in `personParents` and resolve it through
    `marriageById`; the index is therefore an abstract input here. Lookups do
    not depend on insertion order, so plain maps suffice. */
module LayoutIndex {
  import opened Wrappers
  import opened FamilyModel

  datatype FamilyIndex = FamilyIndex(
    personParents: map<string, string>,
    marriageById: map<string, Marriage>,
    personMarriages: map<string, seq<Marriage>>)

  /** A string is truthy in JavaScript exactly when it is not empty. */
  predicate Truthy(s: string) {
    s != ""
  }

  /** `family.personParents.get(id)` tested for truthiness: a missing key and an
      empty marriage id both mean "no parents". */
  function ParentsMarriageId(idx: FamilyIndex, personId: string): (r: Option<string>)
    ensures r.Some? <==> personId in idx.personParents && Truthy(idx.personParents[personId])
    ensures r.Some? ==> r.value == idx.personParents[personId]
  {
    if personId in idx.personParents && Truthy(idx.personParents[personId]) then Some(idx.personParents[personId]) else None
  }

  /** The errors the layout passes throw, one per kind of thrown error (several
      `throw` sites can share a kind); the recursion bound of the model adds
      `OutOfFuel`, which stands for the stack overflow that unbounded recursion
      ends in. */
  datatype LayoutError =
    | EmptyGroup
    | MissingParentsMarriage(childId: string)
    | MissingMarriage(marriageId: string)
    | MissingFirstParent(marriageId: string)
    | MissingSecondParent(marriageId: string)
    | InvalidMarriages(personId: string)
    | InvalidMarriageFor(personId: string)
    | NoSpouse(personId: string)
    | OutOfFuel

  /** A diagram edge: only its endpoints are modelled. */
  datatype Edge = Edge(source: string, target: string)
}
