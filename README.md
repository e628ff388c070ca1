# grafily: a verified model of the family-tree layout core

grafily is an Obsidian plugin that draws a family tree from a vault of person
pages. This project models its computational core in Dafny and proves
properties of the model:

- the **sibling-unit pre-pass** of `src/layout2.ts` (`Layout2`). It lays out a
  sibling group as one unit: first the units of both parents' groups, then the
  group centred under them and widened towards flanks that carry a marriage,
  then the unit appended to a shared list, then the married sibling's spouse's
  group next to it;
- the **earlier pre-pass** of `src/layout.ts` (`Layout`). Every person or
  marriage is placed over its parental marriages (none, one or two) and written
  into a map keyed by its bare id;
- the **index builder**, node list and demo family of `src/model.ts`
  (`FamilyModel`), over an insertion-ordered string map (`OrderedMaps`) that
  stands for the JavaScript `Map`;
- the **page-metadata parser** of `src/parsing.ts` (`Parsing`).

The two layout passes read the index through `LayoutIndex`. There, a child
maps to its parents' marriage id, marriages are looked up by id, and a falsy
(empty) id means "absent". This is not the shape that `buildIndex` produces,
so that index is an input of its own. Each thrown error is a variant of
`LayoutError` or `PageError`.

A recursive pass that mutates shared state is modelled twice:

- a **specification function** with a recursion bound `fuel`. It returns the
  outcome together with the state after the call, including what was written
  before an error was thrown;
- an **imperative method** over a class that holds that state (`UnitList`,
  `PreNodeMap`). The method's postcondition equates its result and new state
  with the function.

The fuel lemmas (`PreBuildFuel`, `BuildPreFuel` and their stage partners) show
that any fuel large enough to avoid `OutOfFuel` gives the same result.

The model follows the code where it is easy to misread:

- the second parent's sub-tree starts at the first parent's unit width, with
  no gap;
- it is laid out with the FIRST parent's id as its perspective
  (`src/layout2.ts:199`);
- a group without parents sits at `preX` on both sides;
- `mod` is measured against the right edge of the first parent's unit;
- no collision resolver, neighbour unit or finaliser exists, so `shift` is
  always 0 and both layout `buildNodes` return empty results.

## Model

| member | source | states |
|---|---|---|
| OrderedMaps.GetSet | src/model.ts:105 | after `set(k, v)` the key `k` reads `v` and every other key reads as before |
| OrderedMaps.SetKeys | src/model.ts:105 | `set` keeps an existing key in its place and appends a new key at the end, which fixes the iteration order `values()` sees |
| FamilyModel.DefaultFamily | src/model.ts:18-40 | the demo family has 9 people and 3 marriages; its other facts are in `DefaultFamilyShape` |
| FamilyModel.DefaultFamilyShape | src/model.ts:18-40 | the demo family has 9 people with distinct ids and 3 marriages with ids 1, 2, 3; marriage 1 is childless, 2 has children 1, 7, 8 and 3 has 9, 2; every parent is one of the people |
| FamilyModel.BuildIndex | src/model.ts:94-121 | the nested loops over marriages, parent slots and children produce exactly the index of the fold `IndexOf` |
| FamilyModel.PersonsById | src/model.ts:95 | no contract; `new Map(persons.map(...))` as one `set` per person in order, characterised by `PersonsByIdKeys`, `PersonsByIdLastWins` and `PersonsByIdSize` |
| FamilyModel.FoldMarriages | src/model.ts:101-119 | no contract; the marriage loop as a fold, characterised by `PersonMarriagesContents`, `PersonMarriagesKeys`, `PersonMarriagesTotal`, `PersonParentsKeys`, `PersonParentsLastWins` and `PersonChildrenContents` |
| FamilyModel.IndexOf | src/model.ts:94-121 | no contract; the index as `PersonsById` of the persons and the three maps of `FoldMarriages`, the specification `BuildIndex` meets |
| FamilyModel.PersonsByIdKeys | src/model.ts:95 | `personById` has an entry for `k` iff some person has id `k` |
| FamilyModel.PersonsByIdLastWins | src/model.ts:95 | the entry for `k` is the last person with id `k` |
| FamilyModel.PersonsByIdSize | src/model.ts:95 | with distinct ids, `personById` has one entry per person |
| FamilyModel.AppendAllGet | src/model.ts:102-105 | appending `x` for each id of a list adds `x` to an id's list once per occurrence of that id, and creates exactly the missing keys of the list |
| FamilyModel.AppendAllTotal | src/model.ts:102-105 | appending for a list of ids raises the total length of all lists by the length of that list |
| FamilyModel.ChildrenContributionOneSlot | src/model.ts:110-117 | a person in exactly one parent slot receives the children list once, and a person in neither slot receives nothing |
| FamilyModel.AddChildrenParents | src/model.ts:108-109 | the children loop leaves `personMarriages` alone and sets `personParents` to the marriage's two parent ids for its children only |
| FamilyModel.AddChildrenChildren | src/model.ts:110-117 | the children loop appends each child to the lists of both parent slots, and creates a parent's key iff there is a child |
| FamilyModel.PersonMarriagesContents | src/model.ts:101-106 | `personMarriages[p]` is the marriages having `p` in a parent slot, in input order, listed twice where `p` fills both slots |
| FamilyModel.FoldMarriagesSlots | src/model.ts:101-118 | one marriage step changes `personMarriages` only by appending the marriage for its two parent slots |
| FamilyModel.PersonMarriagesKeys | src/model.ts:101-106 | `personMarriages` has a key iff that id is in a parent slot of some marriage |
| FamilyModel.PersonMarriagesKeysStep | src/model.ts:101-106 | one marriage step adds exactly its two parent ids to the keys of `personMarriages` |
| FamilyModel.PersonMarriagesTotal | src/model.ts:101-106 | the `personMarriages` lists hold 2 × (number of marriages) entries in total |
| FamilyModel.PersonParentsKeys | src/model.ts:108-109 | `personParents` has a key iff that id is a child of some marriage |
| FamilyModel.PersonParentsLastWins | src/model.ts:108-109 | `personParents[c]` is the two parent ids of the last marriage listing `c` as a child |
| FamilyModel.PersonChildrenContents | src/model.ts:101-118 | `personChildren[p]` is the concatenation, in marriage order, of the children of `p`'s marriages; where `p` fills both slots each child appears twice in a row (c1, c1, c2, c2); every key of `personChildren` is a key of `personMarriages` |
| FamilyModel.PersonNodesShape | src/model.ts:47-57 | one person node per person, in order, labelled with its name at (100, 100) |
| FamilyModel.MarriageNodesShape | src/model.ts:60-75 | one marriage node per marriage of a list, in order |
| FamilyModel.MarriageNodesAppend | src/model.ts:60-75 | the marriage nodes of two lists placed one after the other are the nodes of the first list followed by those of the second |
| FamilyModel.AllMarriageNodesShape | src/model.ts:59-76 | marriage node `i` is the node of the `i`-th entry of the flattened lists, so there are as many as the lists' total length, all of marriage kind |
| FamilyModel.NodesOfShape | src/model.ts:44-79 | the person nodes come first, in `personById` order; node `n + i`, where `n` is the number of persons, is the marriage node of the `i`-th entry of the `personMarriages` lists taken list after list, so a two-parent marriage appears once per parent slot, with its id |
| FamilyModel.BuildNodes | src/model.ts:44-79 | the nested push loops produce exactly `NodesOf(index)` |
| FamilyModel.PushMarriageNodes | src/model.ts:60-75 | the inner push loop appends exactly the marriage nodes of one list, in order, after the nodes already there |
| FamilyModel.NodeCount | src/model.ts:44-121 | for people with distinct ids, the index of a family yields \|persons\| + 2·\|marriages\| nodes |
| FamilyModel.DefaultFamilyKatiaParents | src/model.ts:32-38 | in the demo family Katia's parents are Serhii and Halina |
| FamilyModel.DefaultFamilyYaroslavOrphan | src/model.ts:32-38 | in the demo family Yaroslav has no parents entry |
| FamilyModel.DefaultFamilyYaroslavChildren | src/model.ts:32-38 | in the demo family Yaroslav's children are Pavlo, Nastia and Mykhailo |
| FamilyModel.DefaultFamilyPavloMarriages | src/model.ts:32-38 | in the demo family Pavlo's only marriage is marriage 1 |
| FamilyModel.DefaultFamilyNodeCount | src/model.ts:18-40 | the demo family yields 15 nodes |
| LayoutIndex.ParentsMarriageId | src/layout2.ts:58-59 | a parents marriage id exists iff the child has a truthy `personParents` entry, and it is that entry |
| Layout2.OppositeSide | src/layout2.ts:23-29 | the opposite side is never the side itself |
| Layout2.OppositeSideInvolution | src/layout2.ts:23-29 | taking the opposite side twice gives the side back |
| Layout2.GetPersonSiblings | src/layout2.ts:57-70 | a person without parents is a group of one; otherwise the group is the children of the parents' marriage, and an unknown marriage is an error |
| Layout2.SingleSiblingsWidth | src/layout2.ts:72-74 | a group of n is 180·n − 40 wide, an even number |
| Layout2.GetPersonSpouseId | src/layout2.ts:76-111 | no entry or an empty list gives no spouse; more than one marriage is an error; a truthy person in the first slot of its one marriage gets the second parent, or no spouse when that slot is empty; one in only the second slot gets the first parent, likewise; a spouse found is always the other, truthy, parent; an error happens exactly for several marriages or a person in neither slot |
| Layout2.IsPersonMarried | src/layout2.ts:113-119 | fails exactly when the spouse lookup fails, and is true exactly when it finds a truthy spouse |
| Layout2.MarriedSibling | src/layout2.ts:121-139 | reference for `findMarriedSibling`: a sibling it returns is in the group, is not `except`, has a `personMarriages` entry and exactly one marriage; its only error is `InvalidMarriages` for such a sibling whose entry does not hold exactly one marriage |
| Layout2.MarriedSiblingNone | src/layout2.ts:121-139 | with no sibling other than `except` in `personMarriages`, there is no married sibling |
| Layout2.MarriedSiblingFirst | src/layout2.ts:121-139 | the first such sibling decides: it is the result if it has exactly one marriage and an error otherwise, and later siblings are not looked at |
| Layout2.FindMarriedSibling | src/layout2.ts:121-139 | the loop with early exit returns what `MarriedSibling` specifies |
| Layout2.ParentedUnit | src/layout2.ts:204-252 | the perspective is pinned to its side and the married sibling to the other; the group ends at `preX` on the right side and starts there on the left; `mod` centres the unwidened group under the first parent's right edge; shift is 0; only when the group is narrower than both parents' span do the pinned flanks reach the first parent's left edge and the second parent's right edge |
| Layout2.PreBuild | src/layout2.ts:141-278 | the list of units is only extended, and a call that succeeds appends at least one unit |
| Layout2.SecondParentRun | src/layout2.ts:191-202 | the second-parent stage only extends the list, and grows it on success |
| Layout2.GroupRun | src/layout2.ts:204-256 | the group stage only extends the list, and grows it on success |
| Layout2.SpouseRun | src/layout2.ts:256-275 | the spouse stage only extends the list and, on success, returns the group's own unit |
| Layout2.PreBuildEmptyGroup | src/layout2.ts:148-150 | an empty group, or one whose first id is empty, is an error and appends nothing |
| Layout2.PreBuildNoParents | src/layout2.ts:152-171 | a group without parents is an error if it has more than one id; otherwise its unit is at `preX`, one node wide, with mod 0, shift 0 and no pinned flank, and it is the one unit appended |
| Layout2.PreBuildWithParents | src/layout2.ts:173-254 | a successful group with parents lays out the first parent's group on the right side from 0, then the second parent's on the left side from the first's width, with the first parent's id as perspective; its unit is the `ParentedUnit` of those two and comes after both sub-trees; without a married sibling nothing follows it |
| Layout2.PreBuildMarriedSibling | src/layout2.ts:173-275 | a successful group with parents and a married sibling has found that sibling's spouse and the spouse's group; after the group's own unit it lays out that group from the unit's left edge on the right side and from its right edge on the left side, with the spouse as perspective on the same side, and the units it leaves are those of that sub-tree |
| Layout2.SpouseRunNoSpouse | src/layout2.ts:256-261 | the spouse step fails, appending nothing, with the lookup's error or, when no spouse is found, with `NoSpouse` |
| Layout2.PreBuildShiftsZero | src/layout2.ts:160-252 | every unit appended by the pre-pass has shift 0 |
| Layout2.SecondParentRunShiftsZero | src/layout2.ts:191-202 | every unit appended by the second-parent stage has shift 0 |
| Layout2.GroupRunShiftsZero | src/layout2.ts:243-254 | every unit appended by the group stage has shift 0 |
| Layout2.SpouseRunShiftsZero | src/layout2.ts:256-275 | every unit appended by the spouse stage has shift 0 |
| Layout2.PreBuildFuel | src/layout2.ts:141-278 | a run that does not run out of fuel gives the same result with any larger fuel |
| Layout2.SecondParentRunFuel | src/layout2.ts:191-202 | the same for the second-parent stage |
| Layout2.GroupRunFuel | src/layout2.ts:204-256 | the same for the group stage |
| Layout2.SpouseRunFuel | src/layout2.ts:256-275 | the same for the spouse stage |
| Layout2.UnitList.constructor | src/layout2.ts:281 | the shared list starts empty |
| Layout2.UnitList.Push | src/layout2.ts:254 | a push appends one unit at the end and changes nothing else |
| Layout2.PreBuildSiblings | src/layout2.ts:141-278 | the method's result and the list it leaves are those of `PreBuild` from the old list |
| Layout2.PlaceGroup | src/layout2.ts:204-252 | the step-by-step updates of `x` and the width yield `ParentedUnit` |
| Layout2.BuildSpouseSubtree | src/layout2.ts:256-275 | the spouse step's result and list are those of `SpouseRun` |
| Layout2.BuildNodes | src/layout2.ts:280-291 | fails with the error of the sibling lookup or of the pre-pass from an empty list on the right side at 0, and otherwise returns no nodes and no edges |
| Layout.ParentsOf | src/layout.ts:43-72 | the parents list has at most two entries, all marriages |
| Layout.ParentsOfCases | src/layout.ts:43-72 | unknown marriages are the only error; a person's parents list is its parental marriage, if any; a marriage's list holds one entry per parent that has parents, the first parent's first |
| Layout.CenterOver | src/layout.ts:97-105 | the node's `x - mod` is the midpoint; at `preX = 0` the node sits on the midpoint with mod 0; otherwise it sits at `preX`; shift is 0 |
| Layout.BuildPre | src/layout.ts:42-163 | the map only gains keys; on success the node has the requested id and shift 0 and is written under its bare id |
| Layout.OverOne | src/layout.ts:87-118 | the same for the one-parent case |
| Layout.OverTwo | src/layout.ts:120-162 | the same for the two-parent case |
| Layout.BuildPreLeaf | src/layout.ts:74-85 | a person without a parental marriage, or a marriage neither of whose parents has one, is a leaf at `preX` with mod 0 and shift 0, written into the map |
| Layout.BuildPreMissingMarriage | src/layout.ts:53-57 | an unknown marriage id is an error and writes nothing |
| Layout.BuildPreOneParent | src/layout.ts:87-118 | with one parent, laid out from 0, `x - mod` is half the parent's `x`; at `preX = 0`, x is that and mod 0, otherwise x is `preX`; the node overwrites its key |
| Layout.BuildPreTwoParents | src/layout.ts:120-162 | with two parents, the first is laid out from 0, and the second from 320, since the first is always a marriage; `x - mod` is their midpoint; the node overwrites its key |
| Layout.BuildPreShiftsZero | src/layout.ts:42-163 | every node in the map after the pre-pass has shift 0 |
| Layout.OverOneShiftsZero | src/layout.ts:87-118 | the same for the one-parent case |
| Layout.OverTwoShiftsZero | src/layout.ts:120-162 | the same for the two-parent case |
| Layout.BuildPreFuel | src/layout.ts:42-163 | a run that does not run out of fuel gives the same result with any larger fuel |
| Layout.OverOneFuel | src/layout.ts:87-118 | the same for the one-parent case |
| Layout.OverTwoFuel | src/layout.ts:120-162 | the same for the two-parent case |
| Layout.PreNodeMap.constructor | src/layout.ts:166 | the map starts empty |
| Layout.PreNodeMap.Set | src/layout.ts:82 | a write replaces one key's node and changes nothing else |
| Layout.CollectParents | src/layout.ts:43-72 | the pushes onto the local list yield `ParentsOf` |
| Layout.BuildPreNodes | src/layout.ts:42-163 | the method's result and the map it leaves are those of `BuildPre` from the old map |
| Layout.RootId | src/layout.ts:168-177 | the root is the perspective's first marriage iff it has any marriage, and otherwise the perspective person |
| Layout.BuildNodes | src/layout.ts:165-182 | fails with the pre-pass error from the root into an empty map at 0, and otherwise returns no nodes |
| Parsing.TrimStart | src/parsing.ts:13 | the result is a suffix of the input, what was dropped is whitespace, and the result does not start with whitespace |
| Parsing.TrimEnd | src/parsing.ts:13 | the result is a prefix of the input, what was dropped is whitespace, and the result does not end with whitespace |
| Parsing.TrimSlice | src/parsing.ts:13 | `trim` is a slice of its input with only whitespace before and after it |
| Parsing.TrimEnds | src/parsing.ts:13 | a trimmed string is empty or starts and ends with a non-whitespace character |
| Parsing.TrimIdempotent | src/parsing.ts:13 | trimming twice is trimming once |
| Parsing.Split | src/parsing.ts:13 | `split` yields at least one piece |
| Parsing.SplitPiecesFree | src/parsing.ts:44-45 | no piece of a split contains the separator |
| Parsing.JoinSplit | src/parsing.ts:44-45 | joining the pieces of a split with the separator gives back the string |
| Parsing.SplitJoin | src/parsing.ts:44-45 | splitting the join of separator-free pieces gives back the pieces |
| Parsing.SplitNoSep | src/parsing.ts:36 | a string without the separator splits into itself alone |
| Parsing.SplitAt | src/parsing.ts:36 | the first piece ends at the first separator and the rest is the split of what follows it |
| Parsing.TrimAll | src/parsing.ts:46 | every piece is trimmed in place, in order |
| Parsing.Lines | src/parsing.ts:13 | a page has at least one line |
| Parsing.IndexOf | src/parsing.ts:14 | the result is -1 iff the line is absent, and otherwise the first position of the line |
| Parsing.FindStartingWith | src/parsing.ts:35 | nothing is found iff no line starts with the prefix; a line found starts with it |
| Parsing.FindStartingWithFirst | src/parsing.ts:35 | the line found is the first one starting with the prefix |
| Parsing.SegmentAfterColonSpec | src/parsing.ts:36 | the second `split(':')` piece is the text between the first ':' and the next ':' or the end |
| Parsing.SegmentAfterColonNone | src/parsing.ts:36 | there is no second piece iff the line has no ':' |
| Parsing.FirstColon | src/parsing.ts:36 | a line with a ':' splits into at least two pieces |
| Parsing.ExtractPageMeta | src/parsing.ts:12-67 | fails exactly when no trimmed line is `---`, the first line is `---`, or the first line is no valid name; on success the id is the file name and the name is the first line without its first two characters |
| Parsing.ExtractPageMetaMissingSeparator | src/parsing.ts:14-18 | the missing-separator error happens iff no trimmed line is `---` |
| Parsing.ExtractPageMetaMissingName | src/parsing.ts:20-25 | the missing-name error happens iff the first line is `---` |
| Parsing.ExtractPageMetaInvalidName | src/parsing.ts:27-32 | the invalid-name error happens iff there is a header but its first line is no valid name; no other error exists |
| Parsing.ExtractPageMetaSuccess | src/parsing.ts:34-66 | on success the id is the file name, "# " followed by the name is the first line, the name is not empty, a later line is `---`, and the five fields are read from the whole page |
| Parsing.NameLine | src/parsing.ts:28-32 | a valid name line is "# " followed by at least one character |
| Parsing.TextFieldSpec | src/parsing.ts:34-41 | a one-value field is the trimmed text between the first and the second ':' (or the end) of the first line starting with the tag, and the list field is then present too |
| Parsing.TextFieldAbsent | src/parsing.ts:34-56 | a field is absent iff no line starts with the tag or the first one has no ':' |
| Parsing.ListFieldPieces | src/parsing.ts:42-56 | a list field holds the trimmed ','-separated pieces of that segment in order: at least one, none containing ',', and the untrimmed pieces joined with ',' are the segment |

## Left out

- The plugin lifecycle, settings, React views and hooks, and the asynchronous
  vault reads in `src/main.ts`, `src/settings.ts`, `src/hooks.ts`,
  `src/ReactView.tsx` and `src/view/`: these are user interface and I/O with no
  layout logic.
- The collision resolver, the `shift` computation and the finaliser that would
  turn pre-nodes into positioned diagram nodes and edges: none of them exists
  in the code. `shift` is always 0 and both layout `buildNodes` return empty
  results, so the model proves exactly that.
- Unbounded recursion: the code has no cycle guard, so a cyclic family makes
  it recurse until the JavaScript stack overflows and a `RangeError` is
  thrown. The model bounds the recursion by `fuel` and reports `OutOfFuel`,
  which stands for that thrown error. The fuel lemmas show that the bound does
  not change any result it lets finish.
- Layout2.BuildNodes and Layout.BuildNodes: their results are `Result` values.
  A thrown error appears as a `LayoutError` variant, and the message text is
  not modelled.
- Parsing.ExtractPageMeta: errors are `PageError` variants, and the message
  text is not modelled.
- The connection between `buildIndex` and the layout passes. The layout files
  read `personParents` as child → marriage id and look marriages up by id.
  The index `buildIndex` builds has child → parent ids and no marriage lookup.
  The layout index is therefore an independent input.
- The `!marriages[0]` test in `getPersonSpouseId` and the layout `buildNodes`,
  and the `!parent`/`!firstParent`/`!secondParent` tests in `buildPreNodes`:
  for a non-empty list of objects these never fire, so the model has no branch
  for them.
- Diagram styling of `@xyflow/react` nodes (colours, sizes, radius, font): a
  node is modelled as its id, label, position and type only.
- The node height and marriage node size of both layout files, and the
  marriage width of `src/layout2.ts`, are declared with their values but
  never used by the pre-passes, which is also true of the code.
- String lengths and `trim`: JavaScript measures strings in UTF-16 code units.
  The model measures them in Dafny `char`s. The characters `trim` removes are
  the ECMAScript white-space and line-terminator characters.
- JavaScript numbers: `src/layout2.ts` coordinates are integers (every width
  is even, so halving is exact); `src/layout.ts` coordinates are reals; no
  floating-point rounding is modelled.
- The commented-out generation and edge code in `src/model.ts`, and the extra
  argument a caller passes to `extractPageMeta`: neither is part of the
  behaviour.
