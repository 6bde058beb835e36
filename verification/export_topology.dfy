/**
 * Why the run-time check of an export plan cannot fail, and what the plan does with every item.
 */
module ExportTopology {
  import opened Options
  import opened TextOrder
  import opened ExportCollection
  import opened ExportPlan
  import opened ExportTree

  // ----- Role names ---------------------------------------------------------------------------

  /** The length and a few letters are enough to tell the names apart. */
  function Mark(name: string): (nat, char, char, char)
    requires |name| > 3
  {
    (|name|, name[0], name[1], name[3])
  }

  function RoleMark(role: ArtifactRole): (nat, char, char, char) {
    match role
    case ItemRole(Occurrences) => (11, 'o', 'c', 'u')
    case ItemRole(Edges) => (5, 'e', 'd', 'e')
    case ItemRole(Containers) => (10, 'c', 'o', 't')
    case ItemRole(Overlays) => (8, 'o', 'v', 'r')
    case ItemRole(Badges) => (6, 'b', 'a', 'g')
    case ItemRole(SupportItems) => (13, 's', 'u', 'p')
    case ItemRole(Columns) => (7, 'c', 'o', 'u')
    case ItemRole(Rows) => (4, 'r', 'o', 's')
    case ItemRole(RowAxis) => (8, 'r', 'o', '_')
    case ItemRole(ColumnAxis) => (11, 'c', 'o', 'u')
    case ItemRole(Cells) => (5, 'c', 'e', 'l')
    case ItemRole(CycleRefs) => (10, 'c', 'y', 'l')
    case ItemRole(LinkRefs) => (9, 'l', 'i', 'k')
    case ItemRole(Steps) => (5, 's', 't', 'p')
    case ItemRole(Connectors) => (10, 'c', 'o', 'n')
    case ItemRole(Lanes) => (5, 'l', 'a', 'e')
    case ItemRole(Groups) => (6, 'g', 'r', 'u')
    case ItemRole(Facts) => (5, 'f', 'a', 't')
    case ItemRole(Attributes) => (10, 'a', 't', 'r')
    case ItemRole(Changes) => (7, 'c', 'h', 'n')
    case ItemRole(FieldDiffs) => (11, 'f', 'i', 'l')
    case Viewdata => (8, 'v', 'i', 'w')
    case Workbook => (8, 'w', 'o', 'k')
    case Document => (8, 'd', 'o', 'u')
    case Presentation => (12, 'p', 'r', 's')
  }

  lemma NameHasMark(role: ArtifactRole)
    ensures |RoleName(role)| > 3 && Mark(RoleName(role)) == RoleMark(role)
  {
  }

  lemma MarksDiffer(a: ArtifactRole, b: ArtifactRole)
    requires RoleMark(a) == RoleMark(b)
    ensures a == b
  {
  }

  lemma NamesDiffer(a: ArtifactRole, b: ArtifactRole)
    requires RoleName(a) == RoleName(b)
    ensures a == b
  {
    hide RoleName, RoleMark;
    NameHasMark(a);
    NameHasMark(b);
    MarksDiffer(a, b);
  }

  lemma UnitIdsDiffer(a: ArtifactRole, b: ArtifactRole)
    requires UnitId(a) == UnitId(b)
    ensures a == b
  {
    hide RoleName;
    assert UnitId(a)[5..] == RoleName(a) && UnitId(b)[5..] == RoleName(b);
    NamesDiffer(a, b);
  }

  // ----- Artifacts ----------------------------------------------------------------------------

  lemma ArtifactBeforeIsComparison()
    ensures Comparison(ArtifactBefore)
  {
    hide RoleName, Less;
    forall a, b | ArtifactBefore(a, b) ensures !ArtifactBefore(b, a) {
      BeforeIsAsymmetric(a, b);
    }
    forall a, b, c | !ArtifactBefore(b, a) && !ArtifactBefore(c, b) ensures !ArtifactBefore(c, a) {
      NotBeforeChains(a, b, c);
    }
  }

  lemma BeforeIsAsymmetric(a: Artifact, b: Artifact)
    requires ArtifactBefore(a, b)
    ensures !ArtifactBefore(b, a)
  {
    hide RoleName, Less;
    if a.primary == b.primary {
      if a.role != b.role {
        LessIsAsymmetric(RoleName(a.role), RoleName(b.role));
      } else {
        LessIsAsymmetric(a.path, b.path);
      }
    }
  }

  lemma NotBeforeChains(a: Artifact, b: Artifact, c: Artifact)
    requires !ArtifactBefore(b, a) && !ArtifactBefore(c, b)
    ensures !ArtifactBefore(c, a)
  {
    hide RoleName, Less;
    if a.primary == b.primary == c.primary {
      var x, y, z := RoleName(a.role), RoleName(b.role), RoleName(c.role);
      LessIsTotal(x, y);
      LessIsTotal(y, z);
      if a.role == b.role == c.role {
        AtMostIsTransitive(a.path, b.path, c.path);
      } else if a.role != b.role && b.role != c.role {
        NamesDistinct(a.role, b.role);
        NamesDistinct(b.role, c.role);
        LessIsTransitive(x, y, z);
        LessIsAsymmetric(x, z);
        LessIsIrreflexive(x);
      }
    }
  }

  lemma NamesDistinct(a: ArtifactRole, b: ArtifactRole)
    requires a != b
    ensures RoleName(a) != RoleName(b)
  {
    hide RoleName;
    if RoleName(a) == RoleName(b) {
      NamesDiffer(a, b);
    }
  }

  lemma PlannedRolesDiffer(shape: Shape, recipe: Recipe)
    ensures var roles := PlannedRoles(shape, recipe);
            roles != [] && forall i, j :: 0 <= i < j < |roles| ==> roles[i] != roles[j]
  {
  }

  lemma {:induction false} OnePrimaryCounts(artifacts: seq<Artifact>, at: nat)
    requires at < |artifacts| && forall i :: 0 <= i < |artifacts| ==> (artifacts[i].primary <==> i == at)
    ensures PrimaryCount(artifacts) == 1
    decreases |artifacts|
  {
    var front := artifacts[..|artifacts| - 1];
    if at < |front| {
      OnePrimaryCounts(front, at);
    } else {
      NoPrimaryCounts(front);
    }
  }

  lemma {:induction false} NoPrimaryCounts(artifacts: seq<Artifact>)
    requires forall i :: 0 <= i < |artifacts| ==> !artifacts[i].primary
    ensures PrimaryCount(artifacts) == 0
    decreases |artifacts|
  {
    if artifacts != [] {
      NoPrimaryCounts(artifacts[..|artifacts| - 1]);
    }
  }

  /** The planned artifacts have distinct roles, and the one primary artifact leads the list. */
  lemma ArtifactsAreClosed(shape: Shape, recipe: Recipe)
    ensures var a := Artifacts(shape, recipe);
            && a != [] && a[0] == ArtifactAt(recipe, PlannedRoles(shape, recipe)[0], 0) && ArtifactsClosed(a)
            && forall role :: HasRole(a, role) <==> role in PlannedRoles(shape, recipe)
  {
    hide RoleName, PlannedRoles, ArtifactAt, Less;
    var roles, unsorted, a := PlannedRoles(shape, recipe), Unsorted(shape, recipe), Artifacts(shape, recipe);
    PlannedRolesDiffer(shape, recipe);
    ArtifactAtHasRole(shape, recipe);
    SameElements(unsorted, a);
    var key := (x: Artifact) => x.role;
    assert DistinctBy(key, unsorted);
    PermutedStaysDistinct(key, unsorted, a);
    forall i, j | 0 <= i < j < |a| ensures a[i].role != a[j].role {
      assert key(a[i]) != key(a[j]);
    }
    PrimaryLeads(shape, recipe);
    OnePrimaryCounts(a, 0);
    forall role ensures HasRole(a, role) <==> role in roles {
      if HasRole(a, role) {
        var i :| 0 <= i < |a| && a[i].role == role;
        assert a[i] in a && a[i] in unsorted;
      }
      if role in roles {
        var i :| 0 <= i < |roles| && roles[i] == role;
        assert unsorted[i] in unsorted && unsorted[i] in a;
      }
    }
  }

  lemma ArtifactAtHasRole(shape: Shape, recipe: Recipe)
    ensures var roles, unsorted := PlannedRoles(shape, recipe), Unsorted(shape, recipe);
            |unsorted| == |roles| && forall i :: 0 <= i < |roles| ==>
              unsorted[i].role == roles[i] && (unsorted[i].primary <==> i == 0)
  {
    hide RoleName, PlannedRoles;
  }

  lemma PrimaryLeads(shape: Shape, recipe: Recipe)
    ensures var a, roles := Artifacts(shape, recipe), PlannedRoles(shape, recipe);
            && roles != [] && a != [] && a[0] == ArtifactAt(recipe, roles[0], 0)
            && forall i :: 0 <= i < |a| ==> (a[i].primary <==> i == 0)
  {
    hide RoleName, PlannedRoles, Less;
    var roles, unsorted, a := PlannedRoles(shape, recipe), Unsorted(shape, recipe), Artifacts(shape, recipe);
    PlannedRolesDiffer(shape, recipe);
    ArtifactAtHasRole(shape, recipe);
    SameElements(unsorted, a);
    ArtifactBeforeIsComparison();
    SortedByIsOrdered(ArtifactBefore, unsorted);
    assert unsorted[0] in unsorted;
    var p :| 0 <= p < |a| && a[p] == unsorted[0];
    assert a[0].primary by {
      assert p > 0 ==> !ArtifactBefore(a[p], a[0]);
    }
    SortedRolesDiffer(shape, recipe);
    forall i | 0 <= i < |a| && a[i].primary ensures i == 0 {
      assert a[i] in a && a[0] in a;
    }
  }

  lemma SortedRolesDiffer(shape: Shape, recipe: Recipe)
    ensures var a := Artifacts(shape, recipe); forall i, j :: 0 <= i < j < |a| ==> a[i].role != a[j].role
  {
    hide RoleName, PlannedRoles, ArtifactAt, Less;
    var unsorted, a := Unsorted(shape, recipe), Artifacts(shape, recipe);
    var key := (x: Artifact) => x.role;
    PlannedRolesDiffer(shape, recipe);
    ArtifactAtHasRole(shape, recipe);
    assert DistinctBy(key, unsorted);
    PermutedStaysDistinct(key, unsorted, a);
    forall i, j | 0 <= i < j < |a| ensures a[i].role != a[j].role {
      assert key(a[i]) != key(a[j]);
    }
  }

  /** No two artifacts of a plan are written to one path. */
  lemma ArtifactPathsDiffer(shape: Shape, recipe: Recipe)
    ensures var a := Artifacts(shape, recipe); forall i, j :: 0 <= i < j < |a| ==> a[i].path != a[j].path
  {
    hide RoleName, PlannedRoles, ArtifactAt, Less;
    var roles, unsorted, a := PlannedRoles(shape, recipe), Unsorted(shape, recipe), Artifacts(shape, recipe);
    PlannedRolesDiffer(shape, recipe);
    forall i, j | 0 <= i < j < |unsorted| ensures unsorted[i].path != unsorted[j].path {
      PathsDiffer(recipe, roles[i], roles[j], i, j);
    }
    var key := (x: Artifact) => x.path;
    assert DistinctBy(key, unsorted);
    PermutedStaysDistinct(key, unsorted, a);
    forall i, j | 0 <= i < j < |a| ensures a[i].path != a[j].path {
      assert key(a[i]) != key(a[j]);
    }
  }

  lemma PathsDiffer(recipe: Recipe, a: ArtifactRole, b: ArtifactRole, i: nat, j: nat)
    requires a != b && i < j
    ensures ArtifactAt(recipe, a, i).path != ArtifactAt(recipe, b, j).path
  {
    hide RoleName;
    var stem, ext := TrimSuffix(recipe.filename, recipe.extension), recipe.extension;
    var p, q := ArtifactAt(recipe, a, i).path, ArtifactAt(recipe, b, j).path;
    assert q == stem + "." + RoleName(b) + ext;
    NameHasMark(b);
    if i > 0 && p == q {
      assert p[|stem| + 1..|p| - |ext|] == RoleName(a) && q[|stem| + 1..|q| - |ext|] == RoleName(b);
      NamesDiffer(a, b);
    }
  }

  // ----- Units --------------------------------------------------------------------------------

  /** Every unit sits in a planned artifact under a role of its own. */
  lemma UnitsAreClosed(shape: Shape, recipe: Recipe)
    ensures var a := Artifacts(shape, recipe);
            && a != []
            && var units := PlannedUnits(shape, recipe, a);
               && units != [] && UnitsClosed(a, units) && (forall u :: 0 <= u < |units| ==> units[u].keys == [])
               && units[0].artifact == a[0].role
               && (forall u, v :: 0 <= u < v < |units| ==> units[u].role != units[v].role)
  {
    hide RoleName, UnitId, KindOf, Artifacts, ShapeRoles, PlannedRoles;
    ArtifactsAreClosed(shape, recipe);
    ShapeRolesDiffer(shape);
    var a := Artifacts(shape, recipe);
    var units := PlannedUnits(shape, recipe, a);
    forall u | 0 <= u < |units| ensures HasRole(a, units[u].artifact) && units[u].id != "" {
      UnitIdIsNamed(units[u].role);
      assert Bundled(recipe) ==> a[u].role == units[u].artifact;
      assert a[0].role == a[0].role;
    }
    forall u, v | 0 <= u < v < |units| ensures units[u].id != units[v].id && units[u].role != units[v].role {
      UnitIdsDistinct(units[u].role, units[v].role);
    }
  }

  lemma ShapeRolesDiffer(shape: Shape)
    ensures var roles := ShapeRoles(shape);
            roles != [] && forall i, j :: 0 <= i < j < |roles| ==> roles[i] != roles[j]
  {
  }

  lemma UnitIdIsNamed(role: ArtifactRole)
    ensures UnitId(role) != ""
  {
    hide RoleName;
    assert |UnitId(role)| >= 5;
  }

  lemma UnitIdsDistinct(a: ArtifactRole, b: ArtifactRole)
    requires a != b
    ensures UnitId(a) != UnitId(b)
  {
    hide UnitId;
    if UnitId(a) == UnitId(b) {
      UnitIdsDiffer(a, b);
    }
  }

  // ----- Keys in units ------------------------------------------------------------------------

  lemma {:induction false} KeysAtAreBound(entries: seq<Entry>, u: nat, key: string)
    ensures key in KeysAt(entries, u) <==>
              exists i :: 0 <= i < |entries| && entries[i].unit == Some(u) && entries[i].key == key
    decreases |entries|
  {
    if entries != [] {
      var front, last := entries[..|entries| - 1], entries[|entries| - 1];
      KeysAtAreBound(front, u, key);
      assert entries == front + [last];
      assert forall i :: 0 <= i < |front| ==> front[i] == entries[i];
    }
  }

  /** A filled unit lists, sorted and once each, exactly the keys bound to it. */
  lemma FilledHoldsBoundKeys(units: seq<PlanUnit>, entries: seq<Entry>, u: nat)
    requires u < |units| && units[u].keys == []
    ensures Strict(Filled(units, entries, u).keys)
    ensures forall key :: key in Filled(units, entries, u).keys <==>
              exists i :: 0 <= i < |entries| && entries[i].unit == Some(u) && entries[i].key == key
  {
    hide Less, KeysAt;
    var keys := KeysAt(entries, u);
    var sorted := SortedBy(Less, keys);
    assert [] + keys == keys;
    LessIsComparison();
    SortedByIsOrdered(Less, keys);
    DeduplicatedIsStrict(sorted);
    SameElements(sorted, keys);
    forall key
      ensures key in keys <==>
                exists i :: 0 <= i < |entries| && entries[i].unit == Some(u) && entries[i].key == key {
      KeysAtAreBound(entries, u, key);
    }
  }

  ghost function FilledAll(units: seq<PlanUnit>, entries: seq<Entry>): seq<PlanUnit> {
    seq(|units|, u requires 0 <= u < |units| => Filled(units, entries, u))
  }

  lemma FilledStaysClosed(artifacts: seq<Artifact>, units: seq<PlanUnit>, entries: seq<Entry>)
    requires UnitsClosed(artifacts, units)
    ensures UnitsClosed(artifacts, FilledAll(units, entries))
  {
    hide Deduplicated, SortedBy, KeysAt;
    var filled := FilledAll(units, entries);
    forall u | 0 <= u < |filled| ensures HasRole(artifacts, filled[u].artifact) && filled[u].id != "" {
      assert HasRole(artifacts, units[u].artifact);
    }
  }

  lemma EntryIsClosed(units: seq<PlanUnit>, entries: seq<Entry>, i: nat)
    requires i < |entries| && entries[i].disposition != Omitted && (entries[i].unit.Some? ==>
                                                                    entries[i].unit.value < |units|)
    requires forall u :: 0 <= u < |units| ==> units[u].keys == []
    ensures RepresentationClosed(FilledAll(units, entries), Represent(units, entries[i]))
  {
    hide Deduplicated, SortedBy, KeysAt;
    var e, filled := entries[i], FilledAll(units, entries);
    if e.unit.Some? {
      FilledHoldsBoundKeys(units, entries, e.unit.value);
      assert filled[e.unit.value].id == units[e.unit.value].id &&
        filled[e.unit.value].artifact == units[e.unit.value].artifact;
      assert e.key in filled[e.unit.value].keys;
    }
  }

  lemma EntriesAreSound(units: seq<PlanUnit>, items: seq<ExportItem>, root: SourceRefs, recipe: Recipe, i: nat)
    requires units != [] && i < |Entries(units, items, root, recipe)|
    ensures var e := Entries(units, items, root, recipe)[i];
            e.disposition != Omitted && (e.unit.Some? ==> e.unit.value < |units|)
  {
    var off := if recipe.lossless then 1 else 0;
    if off <= i < off + |items| {
      UnitIndexHolds(units, ItemRole(items[i - off].role));
      assert Entries(units, items, root, recipe)[i] == ItemEntry(units, recipe, items[i - off]);
    }
  }

  // ----- Main results -------------------------------------------------------------------------

  /** The plan the planner makes for a shape, a recipe and a list of items. */
  datatype Plan = Plan(artifacts: seq<Artifact>, units: seq<PlanUnit>, representations: seq<Representation>)

  ghost function PlanOf(shape: Shape, recipe: Recipe, items: seq<ExportItem>, root: SourceRefs): Plan
    requires Artifacts(shape, recipe) != []
  {
    var artifacts := Artifacts(shape, recipe);
    var units := PlannedUnits(shape, recipe, artifacts);
    var entries := Entries(units, items, root, recipe);
    Plan(artifacts, FilledAll(units, entries), RepresentAll(units, entries))
  }

  /** Whatever the shape, the recipe and the items, the planned topology passes the run-time check. */
  lemma PlanIsAlwaysClosed(shape: Shape, recipe: Recipe, items: seq<ExportItem>, root: SourceRefs)
    ensures Artifacts(shape, recipe) != []
    ensures var plan := PlanOf(shape, recipe, items, root);
            && TopologyClosed(plan.artifacts, plan.units, plan.representations)
            && forall u :: 0 <= u < |plan.units| ==> Strict(plan.units[u].keys)
  {
    hide Artifacts, PlannedUnits, Entries, Filled, Represent;
    ArtifactsAreClosed(shape, recipe);
    UnitsAreClosed(shape, recipe);
    var artifacts := Artifacts(shape, recipe);
    var units := PlannedUnits(shape, recipe, artifacts);
    var entries := Entries(units, items, root, recipe);
    var plan := PlanOf(shape, recipe, items, root);
    FilledStaysClosed(artifacts, units, entries);
    forall u | 0 <= u < |units| ensures Strict(Filled(units, entries, u).keys) {
      FilledHoldsBoundKeys(units, entries, u);
    }
    forall r | r in plan.representations ensures RepresentationClosed(plan.units, r) {
      var i :| 0 <= i < |plan.representations| && plan.representations[i] == r;
      EntriesAreSound(units, items, root, recipe, i);
      EntryIsClosed(units, entries, i);
    }
  }

  /** Where the representation of item `i` stands. */
  function Slot(recipe: Recipe, i: nat): nat {
    if recipe.lossless then i + 1 else i
  }

  /** One representation for each item under its own key and source, and the root entry only where it belongs. */
  lemma EveryItemIsRepresentedOnce(shape: Shape, recipe: Recipe, items: seq<ExportItem>, root: SourceRefs)
    requires Artifacts(shape, recipe) != []
    ensures var rs := PlanOf(shape, recipe, items, root).representations;
            && |rs| == |items| + (if recipe.lossless || items == [] then 1 else 0)
            && (forall i :: 0 <= i < |items| ==>
                  rs[Slot(recipe, i)].key == items[i].key && rs[Slot(recipe, i)].source == items[i].source)
            && (recipe.lossless || items == [] ==> rs[0].key == ROOT_KEY && rs[0].source == root && rs[0].unitId.Some?)
  {
    hide Artifacts, Target, Filled;
    UnitsAreClosed(shape, recipe);
    var units := PlannedUnits(shape, recipe, Artifacts(shape, recipe));
    forall i | 0 <= i < |items|
      ensures Entries(units, items, root, recipe)[Slot(recipe, i)] == ItemEntry(units, recipe, items[i])
    {
    }
  }

  /** A key stands in a unit exactly when its representation is bound to that unit. */
  lemma UnitKeysAreTheBoundOnes(shape: Shape, recipe: Recipe, items: seq<ExportItem>, root: SourceRefs, u: nat,
                                key: string)
    requires Artifacts(shape, recipe) != [] && u < |PlanOf(shape, recipe, items, root).units|
    ensures var plan := PlanOf(shape, recipe, items, root);
            key in plan.units[u].keys <==>
              exists i :: 0 <= i < |plan.representations| && plan.representations[i].key == key
                          && plan.representations[i].unitId == Some(plan.units[u].id)
  {
    hide Artifacts, PlannedUnits, Entries, Filled;
    UnitsAreClosed(shape, recipe);
    var units := PlannedUnits(shape, recipe, Artifacts(shape, recipe));
    var entries := Entries(units, items, root, recipe);
    FilledHoldsBoundKeys(units, entries, u);
    FilledKeepsId(units, entries, u);
    var rs := PlanOf(shape, recipe, items, root).representations;
    assert |rs| == |entries|;
    forall i | 0 <= i < |entries|
      ensures rs[i].key == entries[i].key && (entries[i].unit == Some(u) <==> rs[i].unitId == Some(units[u].id))
    {
      EntriesAreSound(units, items, root, recipe, i);
      assert rs[i] == Represent(units, entries[i]);
    }
  }

  lemma FilledKeepsId(units: seq<PlanUnit>, entries: seq<Entry>, u: nat)
    requires u < |units|
    ensures Filled(units, entries, u).id == units[u].id && Filled(units, entries, u).role == units[u].role
  {
  }

  /** With distinct item keys, no key stands in two units. */
  lemma UnitsShareNoKey(shape: Shape, recipe: Recipe, items: seq<ExportItem>, root: SourceRefs, u: nat, v: nat,
                        key: string)
    requires Artifacts(shape, recipe) != [] && u < v < |PlanOf(shape, recipe, items, root).units|
    requires Distinct(items) && forall i :: 0 <= i < |items| ==> ItemKey(items[i].key)
    ensures var plan := PlanOf(shape, recipe, items, root);
            !(key in plan.units[u].keys && key in plan.units[v].keys)
  {
    hide Artifacts, PlannedUnits, Entries, Filled, Represent;
    UnitKeysAreTheBoundOnes(shape, recipe, items, root, u, key);
    UnitKeysAreTheBoundOnes(shape, recipe, items, root, v, key);
    var plan := PlanOf(shape, recipe, items, root);
    var rs := plan.representations;
    UnitsAreClosed(shape, recipe);
    FilledKeepsId(PlannedUnits(shape, recipe, plan.artifacts),
                  Entries(PlannedUnits(shape, recipe, plan.artifacts), items, root, recipe), u);
    FilledKeepsId(PlannedUnits(shape, recipe, plan.artifacts),
                  Entries(PlannedUnits(shape, recipe, plan.artifacts), items, root, recipe), v);
    RepresentationKeysDiffer(shape, recipe, items, root);
  }

  lemma RepresentationKeysDiffer(shape: Shape, recipe: Recipe, items: seq<ExportItem>, root: SourceRefs)
    requires Artifacts(shape, recipe) != [] && Distinct(items) && forall i :: 0 <= i < |items| ==> ItemKey(items[i].key)
    ensures var rs := PlanOf(shape, recipe, items, root).representations;
            forall i, j :: 0 <= i < j < |rs| ==> rs[i].key != rs[j].key
  {
    hide PlanOf, Artifacts;
    EveryItemIsRepresentedOnce(shape, recipe, items, root);
    var rs := PlanOf(shape, recipe, items, root).representations;
    forall i, j | 0 <= i < j < |rs| ensures rs[i].key != rs[j].key {
      var off := if recipe.lossless then 1 else 0;
      assert rs[j].key == items[j - off].key by {
        assert Slot(recipe, j - off) == j;
      }
      if i >= off {
        assert Slot(recipe, i - off) == i;
      } else {
        assert ItemKey(items[j - off].key) && ROOT_KEY[1] != KEY_PREFIX[1];
      }
    }
  }

  /** Unit roles cover every role of the shape unless one role has the whole table to itself. */
  lemma RoleHasUnit(shape: Shape, recipe: Recipe, role: Role)
    requires Artifacts(shape, recipe) != [] && role in ShapeRoles(shape) && RoleAware(recipe)
    ensures var units := PlannedUnits(shape, recipe, Artifacts(shape, recipe));
            exists u :: 0 <= u < |units| && units[u].role == ItemRole(role)
  {
    hide RoleName, UnitId, KindOf, Artifacts, ShapeRoles;
    ArtifactsAreClosed(shape, recipe);
    var a := Artifacts(shape, recipe);
    var units := PlannedUnits(shape, recipe, a);
    var roles := ShapeRoles(shape);
    var i :| 0 <= i < |roles| && roles[i] == role;
    if Bundled(recipe) {
      assert PlannedRoles(shape, recipe)[i] == ItemRole(role);
      assert HasRole(a, ItemRole(role));
      var k :| 0 <= k < |a| && a[k].role == ItemRole(role);
      assert units[k].role == ItemRole(role);
    } else {
      assert units[i].role == ItemRole(role);
    }
  }

  lemma SingleTableRole(shape: Shape, recipe: Recipe)
    requires Artifacts(shape, recipe) != [] && SingleTable(recipe)
    ensures var units := PlannedUnits(shape, recipe, Artifacts(shape, recipe));
            |units| == 1 && units[0].role == ItemRole(ShapeRoles(shape)[0])
  {
    hide RoleName, UnitId, KindOf, Artifacts;
    ArtifactsAreClosed(shape, recipe);
    ShapeRolesDiffer(shape);
    assert PlannedRoles(shape, recipe)[0] == ItemRole(ShapeRoles(shape)[0]);
  }

  /**
   * An item is omitted exactly when an unbundled separated format has no room for its role, and an
   * item of a role-aware format goes to the unit of its own role.
   */
  lemma OmittedIffNoRoom(shape: Shape, recipe: Recipe, items: seq<ExportItem>, root: SourceRefs, i: nat)
    requires Artifacts(shape, recipe) != [] && i < |items| && items[i].role in ShapeRoles(shape)
    ensures var plan := PlanOf(shape, recipe, items, root);
            && Slot(recipe, i) < |plan.representations|
            && var r := plan.representations[Slot(recipe, i)];
               && (r.disposition == Omitted <==> SingleTable(recipe) && items[i].role != ShapeRoles(shape)[0])
               && (r.disposition != Omitted && (RoleAware(recipe) || SingleTable(recipe)) ==>
                     r.unitId == Some(UnitId(ItemRole(items[i].role))))
               && (r.disposition != Omitted && !RoleAware(recipe) ==> r.unitId == Some(plan.units[0].id))
  {
    hide Artifacts, ShapeRoles, UnitId, Filled;
    UnitsAreClosed(shape, recipe);
    var units := PlannedUnits(shape, recipe, Artifacts(shape, recipe));
    var entries := Entries(units, items, root, recipe);
    assert entries[Slot(recipe, i)] == ItemEntry(units, recipe, items[i]);
    FilledKeepsId(units, entries, 0);
    UnitIndexHolds(units, ItemRole(items[i].role));
    if RoleAware(recipe) {
      RoleHasUnit(shape, recipe, items[i].role);
    } else if SingleTable(recipe) {
      SingleTableRole(shape, recipe);
    }
  }

  // ----- From view to plan --------------------------------------------------------------------

  lemma ShapeStaysWithin(shape: Shape)
    ensures StaysWithin(Collections(shape), set role | role in ShapeRoles(shape))
  {
  }

  lemma ChainItemFits(decode: Value -> Option<SourceRefs>, owner: Value, cs: seq<Collection>, outer: SourceRefs,
                      chain: Chain, x: ExportItem, roles: set<Role>)
    requires Leads(owner, cs, chain) && StandsAt(decode, owner, cs, outer, chain, x) && StaysWithin(cs, roles)
    ensures x.role in roles && ItemKey(x.key)
  {
    ChainStaysWithin(owner, cs, chain, roles);
  }

  /** Every collected item has a role its shape has room for. */
  lemma CollectedRolesFitShape(decode: Value -> Option<SourceRefs>, root: Value, x: ExportItem)
    requires Collected(decode, root).Some? && x in Collected(decode, root).value
    ensures ViewOf(decode, root).Some?
    ensures x.role in ShapeRoles(ViewOf(decode, root).value.shape) && ItemKey(x.key)
  {
    hide ShapeOf, Collections, ShapeRoles, Leads, StandsAt;
    var view := ViewOf(decode, root).value;
    var cs, roles := Collections(view.shape), set role | role in ShapeRoles(view.shape);
    CollectedAreTheChainItems(decode, root);
    ShapeStaysWithin(view.shape);
    var chain :| Leads(view.payload, cs, chain) && StandsAt(decode, view.payload, cs, view.source, chain, x);
    ChainItemFits(decode, view.payload, cs, view.source, chain, x, roles);
  }

  datatype Outcome = InvalidView | PlanInvariant | Planned(plan: Plan)

  /** The planner end to end: only a view that cannot be collected makes it fail. */
  method PlanExport(decode: Value -> Option<SourceRefs>, root: Value, source: SourceRefs, recipe: Recipe)
    returns (result: Outcome)
    ensures result.InvalidView? <==> Collected(decode, root).None?
    ensures !result.PlanInvariant?
    ensures result.Planned? ==>
              var shape := ViewOf(decode, root).value.shape;
              Artifacts(shape, recipe) != [] && result.plan == PlanOf(shape, recipe, Collected(decode, root).value,
                                                                      source)
  {
    hide Artifacts, PlannedUnits, Entries, Filled, Represent, Collected, Less;
    var collected := CollectExportItems(decode, root);
    if collected.None? {
      return InvalidView;
    }
    var items := collected.value;
    assert ViewOf(decode, root).Some? by {
      CollectedHasView(decode, root);
    }
    var shape := ViewOf(decode, root).value.shape;
    PlanIsAlwaysClosed(shape, recipe, items, source);
    UnitsAreClosed(shape, recipe);
    var artifacts := ExportArtifacts(shape, recipe);
    var units := ExportPlanUnits(shape, recipe, artifacts);
    var representations := ExportRepresentations(items, source, recipe, units);
    ghost var plan := PlanOf(shape, recipe, items, source);
    assert units[..] == plan.units && representations == plan.representations;
    forall u | 0 <= u < units.Length ensures Sorted(units[u].keys) {
      StrictIsSorted(plan.units[u].keys);
    }
    var ok := ValidateExportTopology(artifacts, units[..], representations);
    return if ok then Planned(Plan(artifacts, units[..], representations)) else PlanInvariant;
  }

  lemma CollectedHasView(decode: Value -> Option<SourceRefs>, root: Value)
    requires Collected(decode, root).Some?
    ensures ViewOf(decode, root).Some?
  {
  }
}
