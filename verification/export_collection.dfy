/**
 * Collecting the items of a view tree for export. The collector walks the nested collections in
 * place; `Flatten` is the list it gathers, and a `Chain` is the position of one item in the tree.
 */
module ExportCollection {
  import opened Options
  import opened TextOrder

  /** Source references are carried along with an item and never looked into. */
  type SourceRefs = nat

  const NO_SOURCE: SourceRefs := 0

  datatype Value =
    | Object(fields: map<string, Value>)
    | List(items: seq<Value>)
    | Str(text: string)
    | Other(code: nat)

  datatype Shape = Diagram | Table | Matrix | Tree | Flow | Context | Diff

  datatype Role =
    | Occurrences | Edges | Containers | Overlays | Badges | SupportItems | Columns | Rows | RowAxis | ColumnAxis
    | Cells
    | CycleRefs | LinkRefs | Steps | Connectors | Lanes | Groups | Facts | Attributes | Changes | FieldDiffs

  datatype ExportItem = ExportItem(key: string, role: Role, source: SourceRefs)

  /** Which collections the items of a collection hold in turn. */
  datatype Nesting = Flat | ChildOccurrences | GroupContents | ChangeFields

  datatype Collection = Collection(field: string, role: Role, nesting: Nesting)

  function Nested(nesting: Nesting): seq<Collection> {
    match nesting
    case Flat => []
    case ChildOccurrences => [Collection("children", Occurrences, ChildOccurrences)]
    case GroupContents => [Collection("facts", Facts, Flat), Collection("attributes", Attributes, Flat)]
    case ChangeFields => [Collection("fields", FieldDiffs, Flat)]
  }

  function Collections(shape: Shape): seq<Collection> {
    match shape
    case Diagram =>
      [Collection("occurrences", Occurrences, Flat), Collection("edges", Edges, Flat),
       Collection("containers", Containers, Flat), Collection("overlays", Overlays, Flat),
       Collection("badges", Badges, Flat), Collection("support_items", SupportItems, Flat)]
    case Table => [Collection("columns", Columns, Flat), Collection("rows", Rows, Flat)]
    case Matrix =>
      [Collection("row_axis", RowAxis, Flat), Collection("column_axis", ColumnAxis, Flat),
       Collection("cells", Cells, Flat)]
    case Tree =>
      [Collection("roots", Occurrences, ChildOccurrences), Collection("cycle_refs", CycleRefs, Flat),
       Collection("link_refs", LinkRefs, Flat)]
    case Flow =>
      [Collection("steps", Steps, Flat), Collection("connectors", Connectors, Flat), Collection("lanes", Lanes, Flat),
       Collection("cycle_refs", CycleRefs, Flat)]
    case Context => [Collection("groups", Groups, GroupContents)]
    case Diff => [Collection("changes", Changes, ChangeFields)]
  }

  function ShapeOf(kind: string): Option<Shape> {
    if kind == "diagram" then Some(Diagram)
    else if kind == "table" then Some(Table)
    else if kind == "matrix" then Some(Matrix)
    else if kind == "tree" then Some(Tree)
    else if kind == "flow" then Some(Flow)
    else if kind == "context" then Some(Context)
    else if kind == "diff" then Some(Diff)
    else None
  }

  const KEY_PREFIX := "vdi:"

  predicate ItemKey(key: string) {
    KEY_PREFIX <= key
  }

  function KeyOf(v: Value): Option<string> {
    if v.Object? && "key" in v.fields && v.fields["key"].Str? && ItemKey(v.fields["key"].text)
    then Some(v.fields["key"].text)
    else None
  }

  /** An item's own source when it declares one, and otherwise the one it inherits. */
  function SourceOf(decode: Value -> Option<SourceRefs>, v: Value, inherited: SourceRefs): Option<SourceRefs>
    requires v.Object?
  {
    if "source" in v.fields then decode(v.fields["source"]) else Some(inherited)
  }

  function Joined(a: Option<seq<ExportItem>>, b: Option<seq<ExportItem>>): Option<seq<ExportItem>> {
    if a.Some? && b.Some? then Some(a.value + b.value) else None
  }

  /** The items of the collections `cs` of `owner`, in the order the walk meets them. */
  function Flatten(decode: Value -> Option<SourceRefs>, owner: Value, cs: seq<Collection>, inherited: SourceRefs)
    : Option<seq<ExportItem>>
    requires owner.Object?
    decreases owner, 2, |cs|
  {
    if cs == [] then Some([])
    else Joined(FlattenField(decode, owner, cs[0], inherited), Flatten(decode, owner, cs[1..], inherited))
  }

  function FlattenField(decode: Value -> Option<SourceRefs>, owner: Value, c: Collection, inherited: SourceRefs)
    : Option<seq<ExportItem>>
    requires owner.Object?
    decreases owner, 1, 0
  {
    if c.field in owner.fields && owner.fields[c.field].List? then FlattenList(decode, owner.fields[c.field], 0, c,
        inherited)
    else None
  }

  function FlattenList(decode: Value -> Option<SourceRefs>, list: Value, from: nat, c: Collection,
                       inherited: SourceRefs)
    : Option<seq<ExportItem>>
    requires list.List? && from <= |list.items|
    decreases list, 1, |list.items| - from
  {
    if from == |list.items| then Some([])
    else Joined(FlattenItem(decode, list.items[from], c, inherited), FlattenList(decode, list, from + 1, c, inherited))
  }

  function FlattenItem(decode: Value -> Option<SourceRefs>, v: Value, c: Collection, inherited: SourceRefs)
    : Option<seq<ExportItem>>
    decreases v, 3, 0
  {
    if KeyOf(v).None? || SourceOf(decode, v, inherited).None? then None
    else
      var source := SourceOf(decode, v, inherited).value;
      Joined(Some([ExportItem(KeyOf(v).value, c.role, source)]), Flatten(decode, v, Nested(c.nesting), source))
  }

  ghost predicate Distinct(items: seq<ExportItem>) {
    forall i, j :: 0 <= i < j < |items| ==> items[i].key != items[j].key
  }

  lemma DistinctPrefix(a: seq<ExportItem>, b: seq<ExportItem>)
    requires Distinct(a + b)
    ensures Distinct(a) && Distinct(b) && forall x, y :: x in a && y in b ==> x.key != y.key
  {
    forall i, j | 0 <= i < j < |a| ensures a[i].key != a[j].key {
      assert (a + b)[i] == a[i] && (a + b)[j] == a[j];
    }
    forall i, j | 0 <= i < j < |b| ensures b[i].key != b[j].key {
      assert (a + b)[|a| + i] == b[i] && (a + b)[|a| + j] == b[j];
    }
    forall x, y | x in a && y in b ensures x.key != y.key {
      var i :| 0 <= i < |a| && a[i] == x;
      var j :| 0 <= j < |b| && b[j] == y;
      assert (a + b)[i] == x && (a + b)[|a| + j] == y;
    }
  }

  // ----- The collector ------------------------------------------------------------------------

  /** The walk gathered exactly `found`, or failed because it cannot be gathered without a clash. */
  ghost predicate Gathered(before: seq<ExportItem>, found: Option<seq<ExportItem>>, ok: bool, after: seq<ExportItem>) {
    if ok then found.Some? && after == before + found.value && Distinct(after)
    else found.None? || !Distinct(before + found.value)
  }

  lemma GatheredThen(before: seq<ExportItem>, a: Option<seq<ExportItem>>, middle: seq<ExportItem>,
                     b: Option<seq<ExportItem>>, ok: bool, after: seq<ExportItem>)
    requires Gathered(before, a, true, middle) && Gathered(middle, b, ok, after)
    ensures Gathered(before, Joined(a, b), ok, after)
  {
    if b.Some? {
      assert before + (a.value + b.value) == middle + b.value;
    }
  }

  lemma GatheredStops(before: seq<ExportItem>, a: Option<seq<ExportItem>>, b: Option<seq<ExportItem>>,
                      after: seq<ExportItem>)
    requires Gathered(before, a, false, after)
    ensures Gathered(before, Joined(a, b), false, after)
  {
    if a.Some? && b.Some? && Distinct(before + (a.value + b.value)) {
      assert before + (a.value + b.value) == (before + a.value) + b.value;
      DistinctPrefix(before + a.value, b.value);
    }
  }

  class ExportItemCollector {
    const decode: Value -> Option<SourceRefs>
    var items: seq<ExportItem>
    var seen: set<string>

    ghost predicate Valid()
      reads this
    {
      Distinct(items) && seen == set x | x in items :: x.key
    }

    constructor (decode: Value -> Option<SourceRefs>)
      ensures Valid() && items == [] && this.decode == decode
    {
      this.decode, items, seen := decode, [], {};
    }

    /** Appends the item itself; `source` is what its nested items inherit. */
    method CollectItem(value: Value, c: Collection, inherited: SourceRefs) returns (ok: bool, source: SourceRefs)
      requires Valid()
      modifies this
      ensures Valid()
      ensures ok ==> value.Object? && KeyOf(value).Some? && SourceOf(decode, value, inherited) == Some(source)
      ensures ok ==> items == old(items) + [ExportItem(KeyOf(value).value, c.role, source)]
      ensures !ok ==>
                || KeyOf(value).None? || SourceOf(decode, value, inherited).None?
                || exists x :: x in old(items) && x.key == KeyOf(value).value
    {
      source := NO_SOURCE;
      if !value.Object? {
        return false, source;
      }
      if "key" !in value.fields || !value.fields["key"].Str? || !ItemKey(value.fields["key"].text) {
        return false, source;
      }
      var key := value.fields["key"].text;
      if key in seen {
        return false, source;
      }
      var found := SourceOf(decode, value, inherited);
      if found.None? {
        return false, source;
      }
      source := found.value;
      seen := seen + {key};
      items := items + [ExportItem(key, c.role, source)];
      return true, source;
    }

    method CollectArray(owner: Value, c: Collection, inherited: SourceRefs) returns (ok: bool)
      requires Valid() && owner.Object?
      modifies this
      ensures ok ==> Valid()
      ensures Gathered(old(items), FlattenField(decode, owner, c, inherited), ok, items)
      decreases owner, 0
    {
      if c.field !in owner.fields || !owner.fields[c.field].List? {
        return false;
      }
      var list := owner.fields[c.field];
      ghost var done: Option<seq<ExportItem>> := Some([]);
      JoinedEmpty(FlattenList(decode, list, 0, c, inherited));
      for i := 0 to |list.items|
        invariant Valid() && Gathered(old(items), done, true, items)
        invariant Joined(done, FlattenList(decode, list, i, c, inherited)) == FlattenList(decode, list, 0, c, inherited)
      {
        ghost var before := items;
        ghost var found, rest := FlattenItem(decode, list.items[i], c, inherited),
          FlattenList(decode, list, i + 1, c, inherited);
        ok := CollectNested(list.items[i], c, inherited);
        JoinedAssociates(done, found, rest);
        if !ok {
          GatheredStops(before, found, rest, items);
          GatheredThen(old(items), done, before, Joined(found, rest), false, items);
          return false;
        }
        GatheredThen(old(items), done, before, found, true, items);
        done := Joined(done, found);
      }
      JoinedEmpty(done);
      return true;
    }

    /** One item, and the collections it holds in turn. */
    method CollectNested(value: Value, c: Collection, inherited: SourceRefs) returns (ok: bool)
      requires Valid()
      modifies this
      ensures ok ==> Valid()
      ensures Gathered(old(items), FlattenItem(decode, value, c, inherited), ok, items)
      decreases value, 2
    {
      var source;
      ok, source := CollectItem(value, c, inherited);
      if !ok {
        ClashStops(old(items), decode, value, c, inherited, items);
        return false;
      }
      ghost var self := Some([ExportItem(KeyOf(value).value, c.role, source)]);
      ghost var middle := items;
      ok := CollectEach(value, Nested(c.nesting), source);
      GatheredThen(old(items), self, middle, Flatten(decode, value, Nested(c.nesting), source), ok, items);
    }

    method CollectEach(owner: Value, cs: seq<Collection>, inherited: SourceRefs) returns (ok: bool)
      requires Valid() && owner.Object?
      modifies this
      ensures ok ==> Valid()
      ensures Gathered(old(items), Flatten(decode, owner, cs, inherited), ok, items)
      decreases owner, 1
    {
      ghost var done: Option<seq<ExportItem>> := Some([]);
      JoinedEmpty(Flatten(decode, owner, cs, inherited));
      assert cs[0..] == cs;
      for i := 0 to |cs|
        invariant Valid() && Gathered(old(items), done, true, items)
        invariant Joined(done, Flatten(decode, owner, cs[i..], inherited)) == Flatten(decode, owner, cs, inherited)
      {
        ghost var before := items;
        ghost var found, rest := FlattenField(decode, owner, cs[i], inherited),
          Flatten(decode, owner, cs[i + 1..], inherited);
        assert cs[i..][1..] == cs[i + 1..];
        ok := CollectArray(owner, cs[i], inherited);
        JoinedAssociates(done, found, rest);
        if !ok {
          GatheredStops(before, found, rest, items);
          GatheredThen(old(items), done, before, Joined(found, rest), false, items);
          return false;
        }
        GatheredThen(old(items), done, before, found, true, items);
        done := Joined(done, found);
      }
      JoinedEmpty(done);
      return true;
    }
  }

  lemma JoinedAssociates(a: Option<seq<ExportItem>>, b: Option<seq<ExportItem>>, c: Option<seq<ExportItem>>)
    ensures Joined(a, Joined(b, c)) == Joined(Joined(a, b), c)
  {
    if a.Some? && b.Some? && c.Some? {
      assert a.value + (b.value + c.value) == (a.value + b.value) + c.value;
    }
  }

  lemma JoinedEmpty(a: Option<seq<ExportItem>>)
    ensures Joined(Some([]), a) == a && Joined(a, Some([])) == a
  {
    if a.Some? {
      assert [] + a.value == a.value && a.value + [] == a.value;
    }
  }

  lemma KeyClash(before: seq<ExportItem>, more: seq<ExportItem>)
    requires more != [] && exists x :: x in before && x.key == more[0].key
    ensures !Distinct(before + more)
  {
    var x :| x in before && x.key == more[0].key;
    var i :| 0 <= i < |before| && before[i] == x;
    assert (before + more)[i].key == (before + more)[|before|].key;
  }

  lemma ClashStops(before: seq<ExportItem>, decode: Value -> Option<SourceRefs>, v: Value, c: Collection,
                   inherited: SourceRefs, after: seq<ExportItem>)
    requires || KeyOf(v).None? || SourceOf(decode, v, inherited).None?
             || exists x :: x in before && x.key == KeyOf(v).value
    ensures Gathered(before, FlattenItem(decode, v, c, inherited), false, after)
  {
    var found := FlattenItem(decode, v, c, inherited);
    if found.Some? {
      KeyClash(before, found.value);
    }
  }

  // ----- The whole collection -----------------------------------------------------------------

  function ByKey(a: ExportItem, b: ExportItem): bool {
    Less(a.key, b.key)
  }

  /** What the view declares: its shape, the object holding the collections, and the outermost source. */
  datatype View = View(shape: Shape, payload: Value, source: SourceRefs)

  function ViewOf(decode: Value -> Option<SourceRefs>, root: Value): (view: Option<View>)
    ensures view.Some? ==> view.value.payload.Object?
  {
    if !root.Object? || SourceOf(decode, root, NO_SOURCE).None? || "kind" !in root.fields || !root.fields["kind"].Str?
    then None
    else
      var kind := root.fields["kind"].text;
      if kind !in root.fields || !root.fields[kind].Object? || ShapeOf(kind).None? then None
      else Some(View(ShapeOf(kind).value, root.fields[kind], SourceOf(decode, root, NO_SOURCE).value))
  }

  function ViewItems(decode: Value -> Option<SourceRefs>, view: View): Option<seq<ExportItem>>
    requires view.payload.Object?
  {
    Flatten(decode, view.payload, Collections(view.shape), view.source)
  }

  ghost function Collected(decode: Value -> Option<SourceRefs>, root: Value): Option<seq<ExportItem>> {
    var view := ViewOf(decode, root);
    if view.None? then None
    else
      var found := ViewItems(decode, view.value);
      if found.Some? && Distinct(found.value) then Some(SortedBy(ByKey, found.value)) else None
  }

  method CollectExportItems(decode: Value -> Option<SourceRefs>, root: Value) returns (result: Option<seq<ExportItem>>)
    ensures result == Collected(decode, root)
  {
    hide ShapeOf, Collections;
    var view := ViewOf(decode, root);
    if view.None? {
      return None;
    }
    var collector := new ExportItemCollector(decode);
    ghost var found := ViewItems(decode, view.value);
    assert found.Some? ==> [] + found.value == found.value;
    var ok := collector.CollectEach(view.value.payload, Collections(view.value.shape), view.value.source);
    if !ok {
      return None;
    }
    return Some(SortedBy(ByKey, collector.items));
  }

  lemma ByKeyIsComparison()
    ensures Comparison(ByKey)
  {
    LessIsComparison();
    forall a, b | ByKey(a, b) ensures !ByKey(b, a) {
      LessIsAsymmetric(a.key, b.key);
    }
    forall a, b, c | !ByKey(b, a) && !ByKey(c, b) ensures !ByKey(c, a) {
      AtMostIsTransitive(a.key, b.key, c.key);
    }
  }

  ghost predicate StrictlyByKey(items: seq<ExportItem>) {
    forall i, j :: 0 <= i < j < |items| ==> Less(items[i].key, items[j].key)
  }

  lemma PermutedItemsStayDistinct(a: seq<ExportItem>, b: seq<ExportItem>)
    requires Distinct(a) && multiset(a) == multiset(b)
    ensures Distinct(b)
  {
    var key := (x: ExportItem) => x.key;
    assert DistinctBy(key, a);
    PermutedStaysDistinct(key, a, b);
    assert forall i, j :: 0 <= i < j < |b| ==> key(b[i]) != key(b[j]);
  }

  /** The collected list is the gathered one, sorted by key without repeats. */
  lemma CollectedIsSorted(decode: Value -> Option<SourceRefs>, root: Value)
    requires Collected(decode, root).Some?
    ensures var items := Collected(decode, root).value;
            var found := ViewItems(decode, ViewOf(decode, root).value);
            StrictlyByKey(items) && found.Some? && multiset(items) == multiset(found.value)
  {
    hide ShapeOf, Collections;
    var found := ViewItems(decode, ViewOf(decode, root).value).value;
    var items := SortedBy(ByKey, found);
    ByKeyIsComparison();
    SortedByIsOrdered(ByKey, found);
    PermutedItemsStayDistinct(found, items);
    forall i, j | 0 <= i < j < |items| ensures Less(items[i].key, items[j].key) {
      LessIsTotal(items[i].key, items[j].key);
    }
  }
}
