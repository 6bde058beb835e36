/**
 * Planning an export: the artifacts, the units inside them, and one representation for each
 * collected item. The units are filled in place; a run-time check re-examines the whole plan.
 */
module ExportPlan {
  import opened Options
  import opened TextOrder
  import opened ExportCollection

  datatype Format =
    | JsonFormat | YamlFormat | SvgFormat | PngFormat | PdfFormat | HtmlFormat | CsvFormat | TsvFormat | XlsxFormat
    | MarkdownFormat | PptxFormat | DocxFormat | MermaidFormat | BpmnFormat | DrawioFormat

  datatype ArtifactRole = ItemRole(role: Role) | Viewdata | Workbook | Document | Presentation

  datatype Recipe = Recipe(format: Format, lossless: bool, bundle: Option<bool>, filename: string, extension: string)

  datatype Artifact = Artifact(path: string, role: ArtifactRole, primary: bool)

  datatype UnitKind = Section | Sheet | Page | Slide

  datatype PlanUnit = PlanUnit(
    artifact: ArtifactRole, kind: UnitKind, order: nat, role: ArtifactRole, id: string, keys: seq<string>)

  datatype Disposition = Embedded | Rendered | Tabular | Omitted
  datatype OmissionReason = LossyFormat

  datatype Representation = Representation(
    artifact: Option<ArtifactRole>, disposition: Disposition, locator: Option<string>,
    omission: Option<OmissionReason>, source: SourceRefs, unitId: Option<string>, key: string)

  const ROOT_KEY := "viewdata-root"

  function RoleText(role: Role): string {
    match role
    case Occurrences => "occurrences"
    case Edges => "edges"
    case Containers => "containers"
    case Overlays => "overlays"
    case Badges => "badges"
    case SupportItems => "support_items"
    case Columns => "columns"
    case Rows => "rows"
    case RowAxis => "row_axis"
    case ColumnAxis => "column_axis"
    case Cells => "cells"
    case CycleRefs => "cycle_refs"
    case LinkRefs => "link_refs"
    case Steps => "steps"
    case Connectors => "connectors"
    case Lanes => "lanes"
    case Groups => "groups"
    case Facts => "facts"
    case Attributes => "attributes"
    case Changes => "changes"
    case FieldDiffs => "field_diffs"
  }

  function RoleName(role: ArtifactRole): string {
    match role
    case ItemRole(r) => RoleText(r)
    case Viewdata => "viewdata"
    case Workbook => "workbook"
    case Document => "document"
    case Presentation => "presentation"
  }

  function ShapeRoles(shape: Shape): seq<Role> {
    match shape
    case Diagram => [Occurrences, Edges, Containers, Overlays, Badges, SupportItems]
    case Table => [Rows, Columns]
    case Matrix => [Cells, RowAxis, ColumnAxis]
    case Tree => [Occurrences, CycleRefs, LinkRefs]
    case Flow => [Steps, Connectors, Lanes, CycleRefs]
    case Context => [Facts, Attributes, Groups]
    case Diff => [Changes, FieldDiffs]
  }

  function PrimaryRole(shape: Shape, format: Format): ArtifactRole {
    if format == JsonFormat || format == YamlFormat then Viewdata else ItemRole(ShapeRoles(shape)[0])
  }

  predicate Separated(format: Format) {
    format == CsvFormat || format == TsvFormat
  }

  predicate Paginated(format: Format) {
    format == XlsxFormat || format == PdfFormat || format == DocxFormat || format == PptxFormat
  }

  predicate Bundled(recipe: Recipe) {
    Separated(recipe.format) && recipe.bundle == Some(true)
  }

  function AsRoles(roles: seq<Role>): seq<ArtifactRole> {
    seq(|roles|, i requires 0 <= i < |roles| => ItemRole(roles[i]))
  }

  function PlannedRoles(shape: Shape, recipe: Recipe): seq<ArtifactRole> {
    if Bundled(recipe) then AsRoles(ShapeRoles(shape))
    else if recipe.format == XlsxFormat then [Workbook]
    else if recipe.format == PdfFormat || recipe.format == DocxFormat then [Document]
    else if recipe.format == PptxFormat then [Presentation]
    else [PrimaryRole(shape, recipe.format)]
  }

  function TrimSuffix(s: string, suffix: string): string {
    if |suffix| <= |s| && s[|s| - |suffix|..] == suffix then s[..|s| - |suffix|] else s
  }

  function ArtifactAt(recipe: Recipe, role: ArtifactRole, index: nat): Artifact {
    var stem := TrimSuffix(recipe.filename, recipe.extension);
    Artifact(if index == 0 then recipe.filename else stem + "." + RoleName(role) + recipe.extension, role, index == 0)
  }

  predicate ArtifactBefore(a: Artifact, b: Artifact) {
    if a.primary != b.primary then a.primary
    else if a.role != b.role then Less(RoleName(a.role), RoleName(b.role))
    else Less(a.path, b.path)
  }

  function Unsorted(shape: Shape, recipe: Recipe): seq<Artifact> {
    var roles := PlannedRoles(shape, recipe);
    seq(|roles|, i requires 0 <= i < |roles| => ArtifactAt(recipe, roles[i], i))
  }

  function Artifacts(shape: Shape, recipe: Recipe): seq<Artifact> {
    SortedBy(ArtifactBefore, Unsorted(shape, recipe))
  }

  method ExportArtifacts(shape: Shape, recipe: Recipe) returns (artifacts: seq<Artifact>)
    ensures artifacts == Artifacts(shape, recipe)
  {
    hide RoleName, PlannedRoles;
    var roles := PlannedRoles(shape, recipe);
    artifacts := [];
    for i := 0 to |roles|
      invariant |artifacts| == i && forall k :: 0 <= k < i ==> artifacts[k] == ArtifactAt(recipe, roles[k], k)
    {
      artifacts := artifacts + [ArtifactAt(recipe, roles[i], i)];
    }
    assert artifacts == Unsorted(shape, recipe);
    artifacts := SortedBy(ArtifactBefore, artifacts);
  }

  // ----- Units --------------------------------------------------------------------------------

  function KindOf(format: Format): UnitKind {
    match format
    case XlsxFormat => Sheet
    case PdfFormat => Page
    case DocxFormat => Page
    case PptxFormat => Slide
    case _ => Section
  }

  function UnitId(role: ArtifactRole): string {
    "unit:" + RoleName(role)
  }

  /** The artifact and the role of each planned unit. */
  function UnitRoles(shape: Shape, recipe: Recipe, artifacts: seq<Artifact>): seq<(ArtifactRole, ArtifactRole)>
    requires artifacts != []
  {
    if Bundled(recipe) then seq(|artifacts|, i requires 0 <= i < |artifacts| => (artifacts[i].role, artifacts[i].role))
    else if Paginated(recipe.format) then
      var roles := ShapeRoles(shape);
      seq(|roles|, i requires 0 <= i < |roles| => (artifacts[0].role, ItemRole(roles[i])))
    else [(artifacts[0].role, artifacts[0].role)]
  }

  function UnitAt(recipe: Recipe, planned: seq<(ArtifactRole, ArtifactRole)>, i: nat): PlanUnit
    requires i < |planned|
  {
    PlanUnit(planned[i].0, KindOf(recipe.format), i, planned[i].1, UnitId(planned[i].1), [])
  }

  function PlannedUnits(shape: Shape, recipe: Recipe, artifacts: seq<Artifact>): seq<PlanUnit>
    requires artifacts != []
  {
    var planned := UnitRoles(shape, recipe, artifacts);
    seq(|planned|, i requires 0 <= i < |planned| => UnitAt(recipe, planned, i))
  }

  method ExportPlanUnits(shape: Shape, recipe: Recipe, artifacts: seq<Artifact>) returns (units: array<PlanUnit>)
    requires artifacts != []
    ensures fresh(units) && units[..] == PlannedUnits(shape, recipe, artifacts)
  {
    hide UnitId, KindOf, ShapeRoles;
    var planned: seq<(ArtifactRole, ArtifactRole)> := [];
    if Bundled(recipe) {
      for i := 0 to |artifacts|
        invariant |planned| == i && forall k :: 0 <= k < i ==> planned[k] == (artifacts[k].role, artifacts[k].role)
      {
        planned := planned + [(artifacts[i].role, artifacts[i].role)];
      }
    } else if Paginated(recipe.format) {
      var roles := ShapeRoles(shape);
      for i := 0 to |roles|
        invariant |planned| == i && forall k :: 0 <= k < i ==> planned[k] == (artifacts[0].role, ItemRole(roles[k]))
      {
        planned := planned + [(artifacts[0].role, ItemRole(roles[i]))];
      }
    } else {
      planned := [(artifacts[0].role, artifacts[0].role)];
    }
    assert planned == UnitRoles(shape, recipe, artifacts);
    units := new PlanUnit[|planned|](i requires 0 <= i < |planned| => UnitAt(recipe, planned, i));
  }

  // ----- Representations ----------------------------------------------------------------------

  predicate RoleAware(recipe: Recipe) {
    Paginated(recipe.format) || Bundled(recipe)
  }

  predicate SingleTable(recipe: Recipe) {
    Separated(recipe.format) && !RoleAware(recipe)
  }

  /** The unit a role is filed under: the last one that has it. */
  function UnitIndex(units: seq<PlanUnit>, role: ArtifactRole): Option<nat> {
    if units == [] then None
    else if units[|units| - 1].role == role then Some(|units| - 1)
    else UnitIndex(units[..|units| - 1], role)
  }

  function Target(units: seq<PlanUnit>, recipe: Recipe, item: ExportItem): Option<nat> {
    if RoleAware(recipe) || SingleTable(recipe) then UnitIndex(units, ItemRole(item.role)) else Some(0)
  }

  function ItemDisposition(format: Format): Disposition {
    if format == JsonFormat || format == YamlFormat then Embedded
    else if Separated(format) || format == XlsxFormat || format == MarkdownFormat then Tabular
    else Rendered
  }

  function Bound(unit: PlanUnit, disposition: Disposition, source: SourceRefs, key: string): Representation {
    Representation(Some(unit.artifact), disposition, Some(unit.id + ":" + key), None, source, Some(unit.id), key)
  }

  function OmittedItem(item: ExportItem): Representation {
    Representation(None, Omitted, None, Some(LossyFormat), item.source, None, item.key)
  }

  /** A key and the unit it is bound to, if any. */
  datatype Entry = Entry(unit: Option<nat>, key: string, source: SourceRefs, disposition: Disposition)

  function ItemEntry(units: seq<PlanUnit>, recipe: Recipe, item: ExportItem): Entry {
    Entry(Target(units, recipe, item), item.key, item.source, ItemDisposition(recipe.format))
  }

  /** The root entry stands first when the export is lossless, and alone when there is nothing else. */
  function Entries(units: seq<PlanUnit>, items: seq<ExportItem>, root: SourceRefs, recipe: Recipe): seq<Entry> {
    (if recipe.lossless then [Entry(Some(0), ROOT_KEY, root, Embedded)] else [])
    + seq(|items|, i requires 0 <= i < |items| => ItemEntry(units, recipe, items[i]))
    + (if !recipe.lossless && items == [] then [Entry(Some(0), ROOT_KEY, root, Rendered)] else [])
  }

  function Represent(units: seq<PlanUnit>, e: Entry): Representation {
    if e.unit.Some? && e.unit.value < |units| then Bound(units[e.unit.value], e.disposition, e.source, e.key)
    else Representation(None, Omitted, None, Some(LossyFormat), e.source, None, e.key)
  }

  function RepresentAll(units: seq<PlanUnit>, entries: seq<Entry>): seq<Representation> {
    seq(|entries|, i requires 0 <= i < |entries| => Represent(units, entries[i]))
  }

  function KeysAt(entries: seq<Entry>, unit: nat): seq<string> {
    if entries == [] then []
    else
      var front := KeysAt(entries[..|entries| - 1], unit);
      if entries[|entries| - 1].unit == Some(unit) then front + [entries[|entries| - 1].key] else front
  }

  /** The unit after its keys are collected, sorted and freed of repeats. */
  function Filled(units: seq<PlanUnit>, entries: seq<Entry>, u: nat): PlanUnit
    requires u < |units|
  {
    units[u].(keys := Deduplicated(SortedBy(Less, units[u].keys + KeysAt(entries, u))))
  }

  lemma KeysAtNext(entries: seq<Entry>, e: Entry, unit: nat)
    ensures KeysAt(entries + [e], unit) == KeysAt(entries, unit) + if e.unit == Some(unit) then [e.key] else []
  {
    assert (entries + [e])[..|entries|] == entries;
  }

  lemma {:induction false} UnitIndexHolds(units: seq<PlanUnit>, role: ArtifactRole)
    ensures match UnitIndex(units, role)
            case None => forall u :: 0 <= u < |units| ==> units[u].role != role
            case Some(i) => i < |units| && units[i].role == role
    decreases |units|
  {
    if units != [] && units[|units| - 1].role != role {
      UnitIndexHolds(units[..|units| - 1], role);
    }
  }

  /** Each unit carries the keys bound to it so far; nothing else about it has changed. */
  ghost predicate Filling(was: seq<PlanUnit>, now: seq<PlanUnit>, entries: seq<Entry>) {
    |now| == |was| && forall u :: 0 <= u < |was| ==> now[u] == was[u].(keys := was[u].keys + KeysAt(entries, u))
  }

  lemma NothingFilled(was: seq<PlanUnit>)
    ensures Filling(was, was, []) && RepresentAll(was, []) == []
  {
    assert forall u :: 0 <= u < |was| ==> was[u].keys + [] == was[u].keys;
  }

  method Bind(units: array<PlanUnit>, index: nat, key: string, ghost was: seq<PlanUnit>, ghost entries: seq<Entry>,
              ghost e: Entry)
    returns (artifact: ArtifactRole, unitId: string, locator: string)
    requires index < units.Length && Filling(was, units[..], entries) && e.unit == Some(index) && e.key == key
    modifies units
    ensures Filling(was, units[..], entries + [e])
    ensures artifact == was[index].artifact && unitId == was[index].id && locator == was[index].id + ":" + key
  {
    units[index] := units[index].(keys := units[index].keys + [key]);
    forall u | 0 <= u < |was| ensures units[u] == was[u].(keys := was[u].keys + KeysAt(entries + [e], u)) {
      KeysAtNext(entries, e, u);
      assert was[u].keys + KeysAt(entries, u) + [key] == was[u].keys + (KeysAt(entries, u) + [key]);
    }
    return units[index].artifact, units[index].id, units[index].id + ":" + key;
  }

  method BindRoot(units: array<PlanUnit>, root: SourceRefs, disposition: Disposition, ghost was: seq<PlanUnit>,
                  ghost entries: seq<Entry>) returns (r: Representation)
    requires units.Length > 0 && Filling(was, units[..], entries) && disposition != Omitted
    modifies units
    ensures var e := Entry(Some(0), ROOT_KEY, root, disposition);
            Filling(was, units[..], entries + [e]) && r == Represent(was, e)
  {
    var artifact, unitId, locator := Bind(units, 0, ROOT_KEY, was, entries,
                                          Entry(Some(0), ROOT_KEY, root, disposition));
    return Representation(Some(artifact), disposition, Some(locator), None, root, Some(unitId), ROOT_KEY);
  }

  method BindItem(units: array<PlanUnit>, item: ExportItem, recipe: Recipe, matching: bool,
                  unitsByRole: map<ArtifactRole, nat>,
                  ghost was: seq<PlanUnit>, ghost entries: seq<Entry>) returns (r: Representation)
    requires units.Length > 0 && Filling(was, units[..], entries)
    requires matching <==> RoleAware(recipe) || SingleTable(recipe)
    requires forall role :: UnitIndex(was, role) == if role in unitsByRole then Some(unitsByRole[role]) else None
    modifies units
    ensures var e := ItemEntry(was, recipe, item);
            Filling(was, units[..], entries + [e]) && r == Represent(was, e)
  {
    hide KeysAt, UnitIndex;
    ghost var e := ItemEntry(was, recipe, item);
    UnitIndexHolds(was, ItemRole(item.role));
    if matching && ItemRole(item.role) !in unitsByRole {
      UnboundKeepsFilling(was, units[..], entries, e);
      return OmittedItem(item);
    }
    var index := if matching then unitsByRole[ItemRole(item.role)] else 0;
    var artifact, unitId, locator := Bind(units, index, item.key, was, entries, e);
    return Representation(Some(artifact), ItemDisposition(recipe.format), Some(locator), None, item.source,
                          Some(unitId), item.key);
  }

  lemma RepresentNext(units: seq<PlanUnit>, entries: seq<Entry>, e: Entry)
    ensures RepresentAll(units, entries + [e]) == RepresentAll(units, entries) + [Represent(units, e)]
  {
  }

  method ExportRepresentations(items: seq<ExportItem>, root: SourceRefs, recipe: Recipe, units: array<PlanUnit>)
    returns (result: seq<Representation>)
    requires units.Length > 0
    modifies units
    ensures var was := old(units[..]);
            var entries := Entries(was, items, root, recipe);
            && result == RepresentAll(was, entries)
            && forall u :: 0 <= u < |was| ==> units[u] == Filled(was, entries, u)
  {
    hide KeysAt, Filled, Filling, UnitIndex, Represent, RepresentAll, ItemEntry, Less;
    ghost var was := units[..];
    var unitsByRole: map<ArtifactRole, nat> := IndexByRole(units);
    var matching := RoleAware(recipe) || SingleTable(recipe);
    result := [];
    ghost var done: seq<Entry> := [];
    NothingFilled(was);
    if recipe.lossless {
      var r := BindRoot(units, root, Embedded, was, done);
      RepresentNext(was, done, Entry(Some(0), ROOT_KEY, root, Embedded));
      result, done := result + [r], done + [Entry(Some(0), ROOT_KEY, root, Embedded)];
    }
    ghost var head := done;
    for i := 0 to |items|
      invariant Filling(was, units[..], done) && result == RepresentAll(was, done) && |result| == |done|
      invariant done == head + seq(i, k requires 0 <= k < i => ItemEntry(was, recipe, items[k]))
    {
      var r := BindItem(units, items[i], recipe, matching, unitsByRole, was, done);
      RepresentNext(was, done, ItemEntry(was, recipe, items[i]));
      result, done := result + [r], done + [ItemEntry(was, recipe, items[i])];
    }
    if |result| == 0 {
      var r := BindRoot(units, root, Rendered, was, done);
      RepresentNext(was, done, Entry(Some(0), ROOT_KEY, root, Rendered));
      result, done := result + [r], done + [Entry(Some(0), ROOT_KEY, root, Rendered)];
    }
    assert done == Entries(was, items, root, recipe);
    SortUnits(units, was, done);
  }

  lemma UnboundKeepsFilling(was: seq<PlanUnit>, now: seq<PlanUnit>, entries: seq<Entry>, e: Entry)
    requires Filling(was, now, entries) && e.unit.None?
    ensures Filling(was, now, entries + [e])
  {
    forall u | 0 <= u < |was| ensures now[u] == was[u].(keys := was[u].keys + KeysAt(entries + [e], u)) {
      KeysAtNext(entries, e, u);
      assert KeysAt(entries, u) + [] == KeysAt(entries, u);
    }
  }

  method IndexByRole(units: array<PlanUnit>) returns (unitsByRole: map<ArtifactRole, nat>)
    ensures forall role :: UnitIndex(units[..], role) == if role in unitsByRole then Some(unitsByRole[role]) else None
  {
    unitsByRole := map[];
    for i := 0 to units.Length
      invariant forall role :: UnitIndex(units[..i], role) == if role in unitsByRole then Some(unitsByRole[role])
                else None
    {
      unitsByRole := unitsByRole[units[i].role := i];
      assert units[..i + 1][..i] == units[..i];
    }
    assert units[..units.Length] == units[..];
  }

  method SortUnits(units: array<PlanUnit>, ghost was: seq<PlanUnit>, ghost entries: seq<Entry>)
    requires Filling(was, units[..], entries)
    modifies units
    ensures units.Length == |was| && forall u :: 0 <= u < |was| ==> units[u] == Filled(was, entries, u)
  {
    hide Less, Deduplicated, SortedBy, KeysAt;
    for i := 0 to units.Length
      invariant forall u :: 0 <= u < i ==> units[u] == Filled(was, entries, u)
      invariant forall u :: i <= u < units.Length ==> units[u] == was[u].(keys := was[u].keys + KeysAt(entries, u))
    {
      var sorted := SortedBy(Less, units[i].keys);
      var values := new string[|sorted|](k requires 0 <= k < |sorted| => sorted[k]);
      assert values[..] == sorted;
      var n := UniqueInPlace(values);
      units[i] := units[i].(keys := values[..n]);
    }
  }

  // ----- The run-time check -------------------------------------------------------------------

  function PrimaryCount(artifacts: seq<Artifact>): nat {
    if artifacts == [] then 0
    else PrimaryCount(artifacts[..|artifacts| - 1]) + if artifacts[|artifacts| - 1].primary then 1 else 0
  }

  ghost predicate ArtifactsClosed(artifacts: seq<Artifact>) {
    && (forall i, j :: 0 <= i < j < |artifacts| ==> artifacts[i].role != artifacts[j].role)
    && PrimaryCount(artifacts) == 1
  }

  ghost predicate HasRole(artifacts: seq<Artifact>, role: ArtifactRole) {
    exists i :: 0 <= i < |artifacts| && artifacts[i].role == role
  }

  ghost predicate UnitsClosed(artifacts: seq<Artifact>, units: seq<PlanUnit>) {
    && (forall u :: 0 <= u < |units| ==> HasRole(artifacts, units[u].artifact) && units[u].id != "")
    && (forall u, v :: 0 <= u < v < |units| ==> units[u].id != units[v].id)
  }

  ghost predicate RepresentationClosed(units: seq<PlanUnit>, r: Representation) {
    if r.disposition == Omitted then r.artifact.None? && r.unitId.None? && r.locator.None? && r.omission.Some?
    else
      && r.artifact.Some? && r.unitId.Some? && r.locator.Some? && r.omission.None?
      && exists u ::
           && 0 <= u < |units| && units[u].id == r.unitId.value && units[u].artifact == r.artifact.value
           && r.key in units[u].keys
  }

  ghost predicate TopologyClosed(artifacts: seq<Artifact>, units: seq<PlanUnit>, representations: seq<Representation>) {
    && ArtifactsClosed(artifacts) && UnitsClosed(artifacts, units)
    && forall r :: r in representations ==> RepresentationClosed(units, r)
  }

  method ValidateArtifacts(artifacts: seq<Artifact>) returns (ok: bool, roles: set<ArtifactRole>)
    ensures ok <==> ArtifactsClosed(artifacts)
    ensures ok ==> forall role :: role in roles <==> HasRole(artifacts, role)
  {
    roles := {};
    var primary := 0;
    for i := 0 to |artifacts|
      invariant forall k, l :: 0 <= k < l < i ==> artifacts[k].role != artifacts[l].role
      invariant forall role :: role in roles <==> exists k :: 0 <= k < i && artifacts[k].role == role
      invariant primary == PrimaryCount(artifacts[..i])
    {
      assert artifacts[..i + 1][..i] == artifacts[..i];
      if artifacts[i].role in roles {
        return false, roles;
      }
      roles := roles + {artifacts[i].role};
      if artifacts[i].primary {
        primary := primary + 1;
      }
    }
    assert artifacts[..|artifacts|] == artifacts;
    return primary == 1, roles;
  }

  method ValidateUnits(artifacts: seq<Artifact>, roles: set<ArtifactRole>, units: seq<PlanUnit>)
    returns (ok: bool, unitsById: map<string, PlanUnit>)
    requires forall role :: role in roles <==> HasRole(artifacts, role)
    ensures ok <==> UnitsClosed(artifacts, units)
    ensures ok ==> forall id :: id in unitsById <==> exists u :: 0 <= u < |units| && units[u].id == id
    ensures ok ==> forall u :: 0 <= u < |units| ==> units[u].id in unitsById && unitsById[units[u].id] == units[u]
  {
    hide HasRole;
    unitsById := map[];
    for i := 0 to |units|
      invariant forall u :: 0 <= u < i ==> HasRole(artifacts, units[u].artifact) && units[u].id != ""
      invariant forall u, v :: 0 <= u < v < i ==> units[u].id != units[v].id
      invariant forall id :: id in unitsById <==> exists u :: 0 <= u < i && units[u].id == id
      invariant forall u :: 0 <= u < i ==> units[u].id in unitsById && unitsById[units[u].id] == units[u]
    {
      if units[i].artifact !in roles || units[i].id == "" || units[i].id in unitsById {
        return false, unitsById;
      }
      unitsById := unitsById[units[i].id := units[i]];
    }
    return true, unitsById;
  }

  /** Accepts exactly the closed plans whose units list their keys in order. */
  method ValidateExportTopology(artifacts: seq<Artifact>, units: seq<PlanUnit>, representations: seq<Representation>)
    returns (ok: bool)
    requires forall u :: 0 <= u < |units| ==> Sorted(units[u].keys)
    ensures ok <==> TopologyClosed(artifacts, units, representations)
  {
    var roles;
    ok, roles := ValidateArtifacts(artifacts);
    if !ok {
      return false;
    }
    var unitsById;
    ok, unitsById := ValidateUnits(artifacts, roles, units);
    if !ok {
      return false;
    }
    for i := 0 to |representations|
      invariant forall k :: 0 <= k < i ==> RepresentationClosed(units, representations[k])
    {
      var r := representations[i];
      assert r in representations;
      if r.disposition == Omitted {
        if r.artifact.Some? || r.unitId.Some? || r.locator.Some? || r.omission.None? {
          return false;
        }
      } else {
        if r.artifact.None? || r.unitId.None? || r.locator.None? || r.omission.Some? {
          return false;
        }
        if r.unitId.value !in unitsById {
          return false;
        }
        var unit := unitsById[r.unitId.value];
        var listed := Contains(unit.keys, r.key);
        if unit.artifact != r.artifact.value || !listed {
          return false;
        }
      }
    }
    return true;
  }
}
