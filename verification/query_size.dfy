/**
 * Measuring a query result without printing it. The functions ending in `Json` are the tree the
 * protocol prints; the methods of `QuerySizer` walk the result itself and charge a counter.
 */
module QuerySize {
  import opened Options
  import opened CanonicalJson

  const MAX_SAFE_INTEGER := 9_007_199_254_740_991

  /** Only the shortest decimal of a finite number is printed, so that text stands for the number. */
  datatype Float = NaN | Infinite | NegativeZero | Finite(decimal: Text)

  datatype ScalarType =
    | StringScalar | EnumScalar | DateScalar | DatetimeScalar | IntegerScalar | NumberScalar | BooleanScalar
    | UnsupportedScalar(name: Text)

  datatype ScalarValue = ScalarValue(kind: ScalarType, text: Text, integer: int, number: Float, boolean: bool)

  datatype Path = Path(entities: seq<Text>, relations: seq<Text>)
  datatype CycleRef = CycleRef(
    from: Text, kind: Text, orientation: Text, relation: Text, retained: Path, to: Text)
  datatype StateRead = StateRead(fieldPath: Text, subject: Text)
  datatype Origin = Origin(kind: Text, pack: Text)
  datatype SourceRange = SourceRange(start: int, end: int, modulePath: Text, origin: Origin)
  datatype Related = Related(message: Text, owner: Text, range: Option<SourceRange>, relation: Text, subject: Text)
  datatype Diagnostic = Diagnostic(
    arguments: map<Text, Text>, code: Text, messageKey: Text, message: Text, owner: Text,
    range: Option<SourceRange>, related: seq<Related>, severity: Text, subject: Text)
  datatype StateInput = StateInput(
    kind: Text, snapshotHash: Text, stateVersion: Text, capturedAt: Text, definitionHash: Text)
  datatype Generation = Generation(endpoint: Text, handle: Text, value: nat)

  datatype QueryResult = QueryResult(
    arguments: map<Text, ScalarValue>, cycles: seq<CycleRef>, diagnostics: seq<Diagnostic>,
    induced: seq<Text>, pathRelations: seq<Text>, paths: seq<Path>, primary: seq<Text>, query: Text,
    reached: seq<Text>, seeds: seq<Text>, selected: seq<Text>, stateInput: StateInput, statePolicy: Text,
    stateReads: seq<StateRead>, support: seq<Text>, traversed: seq<Text>)

  datatype QueryExecution = QueryExecution(generation: Generation, result: QueryResult, returnedItems: int)

  // ----- The tree the protocol prints ---------------------------------------------------------

  function TextJson(t: Text): Json {
    Str(Given(t))
  }

  function Required(name: Name, value: Json): Member {
    Member(Known(name), value)
  }

  function Optional(present: bool, name: Name, value: Json): Member {
    if present then Required(name, value) else Absent
  }

  function TextsJson(values: seq<Text>): Json {
    Arr(seq(|values|, i requires 0 <= i < |values| => TextJson(values[i])))
  }

  function KindWord(kind: ScalarType): Word {
    match kind
    case StringScalar => Known(StringWord)
    case EnumScalar => Known(EnumWord)
    case DateScalar => Known(DateWord)
    case DatetimeScalar => Known(DatetimeWord)
    case IntegerScalar => Known(IntegerWord)
    case NumberScalar => Known(NumberWord)
    case BooleanScalar => Known(BooleanWord)
    case UnsupportedScalar(name) => Given(name)
  }

  const TRUE_BYTES: seq<Byte> := [0x74, 0x72, 0x75, 0x65]
  const FALSE_BYTES: seq<Byte> := [0x66, 0x61, 0x6C, 0x73, 0x65]
  const VERSION_BYTES: seq<Byte> := [0x31]

  /** Integers beyond the safe range, numbers with no finite decimal and unknown kinds have no value. */
  function ScalarMember(v: ScalarValue): Member {
    match v.kind
    case IntegerScalar =>
      if -MAX_SAFE_INTEGER <= v.integer <= MAX_SAFE_INTEGER then Required(IntegerValueName,
          TextJson(Decimal(v.integer)))
      else BrokenMember
    case NumberScalar => if v.number.Finite? then Required(NumberValueName, TextJson(v.number.decimal))
      else BrokenMember
    case BooleanScalar => Required(BooleanValueName, Literal(if v.boolean then TRUE_BYTES else FALSE_BYTES))
    case UnsupportedScalar(_) => BrokenMember
    case _ => Required(StringValueName, TextJson(v.text))
  }

  function ScalarJson(v: ScalarValue): Json {
    Obj([Required(KindName, Str(KindWord(v.kind))), ScalarMember(v)])
  }

  /** The keys of a map in some order: the map itself has none. */
  ghost predicate Enumerates(keys: set<Text>, order: seq<Text>) {
    (forall k :: k in order <==> k in keys) && forall i, j :: 0 <= i < j < |order| ==> order[i] != order[j]
  }

  /** An object with one member for each key of `order`. */
  ghost function Entries(value: Text -> Json, order: seq<Text>): Json {
    Obj(seq(|order|, i requires 0 <= i < |order| => Member(Given(order[i]), value(order[i]))))
  }

  ghost function ArgumentOf(values: map<Text, ScalarValue>): Text -> Json {
    k => if k in values then ScalarJson(values[k]) else Broken
  }

  function DetailJson(value: Text): Json {
    Obj([Required(KindName, Str(Known(StringWord))), Required(StringValueName, TextJson(value))])
  }

  ghost function DetailOf(values: map<Text, Text>): Text -> Json {
    k => if k in values then DetailJson(values[k]) else Broken
  }

  lemma SomeOrder(keys: set<Text>) returns (order: seq<Text>)
    ensures Enumerates(keys, order)
    decreases |keys|
  {
    if keys == {} {
      order := [];
    } else {
      var k :| k in keys;
      var rest := SomeOrder(keys - {k});
      order := [k] + rest;
    }
  }

  ghost function Order(keys: set<Text>): (order: seq<Text>)
    ensures Enumerates(keys, order)
  {
    assert exists order :: Enumerates(keys, order) by {
      var order := SomeOrder(keys);
    }
    var order :| Enumerates(keys, order);
    order
  }

  function PathJson(v: Path): Json {
    Obj([Required(EntityAddressesName, TextsJson(v.entities)), Required(RelationAddressesName, TextsJson(v.relations))])
  }

  function PathsJson(values: seq<Path>): Json {
    Arr(seq(|values|, i requires 0 <= i < |values| => PathJson(values[i])))
  }

  function CycleRefJson(v: CycleRef): Json {
    Obj([Required(FromEntityAddressName, TextJson(v.from)), Required(KindName, TextJson(v.kind)),
         Required(OrientationName, TextJson(v.orientation)), Required(RelationAddressName, TextJson(v.relation)),
         Required(RetainedPathName, PathJson(v.retained)), Required(ToEntityAddressName, TextJson(v.to))])
  }

  function CycleRefsJson(values: seq<CycleRef>): Json {
    Arr(seq(|values|, i requires 0 <= i < |values| => CycleRefJson(values[i])))
  }

  function StateReadJson(v: StateRead): Json {
    Obj([Required(FieldPathName, TextJson(v.fieldPath)), Required(SubjectAddressName, TextJson(v.subject))])
  }

  function StateReadsJson(values: seq<StateRead>): Json {
    Arr(seq(|values|, i requires 0 <= i < |values| => StateReadJson(values[i])))
  }

  function OriginJson(v: Origin): Json {
    Obj([Required(KindName, TextJson(v.kind)), Optional(v.pack != [], PackAddressName, TextJson(v.pack))])
  }

  function RangeJson(v: SourceRange): Json {
    if v.start < 0 || v.end < 0 then Broken
    else Obj([Required(EndByteName, TextJson(Decimal(v.end))), Required(ModulePathName, TextJson(v.modulePath)),
              Required(OriginName, OriginJson(v.origin)), Required(StartByteName, TextJson(Decimal(v.start)))])
  }

  function OptionalRange(range: Option<SourceRange>): Member {
    match range
    case None => Absent
    case Some(v) => Required(RangeName, RangeJson(v))
  }

  function RelatedJson(v: Related): Json {
    Obj([Optional(v.message != [], MessageName, TextJson(v.message)),
         Optional(v.owner != [], OwnerAddressName, TextJson(v.owner)),
         OptionalRange(v.range), Required(RelationName, TextJson(v.relation)),
         Optional(v.subject != [], SubjectAddressName, TextJson(v.subject))])
  }

  function RelatedListJson(values: seq<Related>): Json {
    Arr(seq(|values|, i requires 0 <= i < |values| => RelatedJson(values[i])))
  }

  ghost function DiagnosticJson(v: Diagnostic): Json {
    Obj([Required(ArgumentsName, Group(Entries(DetailOf(v.arguments), Order(v.arguments.Keys)))),
         Required(CodeName, TextJson(v.code)), Required(MessageKeyName, TextJson(v.messageKey)),
         Optional(v.message != [], MessageName, TextJson(v.message)),
         Optional(v.owner != [], OwnerAddressName, TextJson(v.owner)),
         Required(ProtocolVersionName, Literal(VERSION_BYTES)), OptionalRange(v.range),
         Required(RelatedName, RelatedListJson(v.related)), Required(SeverityName, TextJson(v.severity)),
         Optional(v.subject != [], SubjectAddressName, TextJson(v.subject))])
  }

  ghost function DiagnosticsJson(values: seq<Diagnostic>): Json {
    Arr(seq(|values|, i requires 0 <= i < |values| => DiagnosticJson(values[i])))
  }

  function StateInputJson(v: StateInput): Json {
    var snapshot := v.kind == Spelled(Known(SnapshotWord));
    Obj([Required(KindName, TextJson(v.kind)), Optional(snapshot, SnapshotHashName, TextJson(v.snapshotHash)),
         Optional(snapshot, StateVersionName, TextJson(v.stateVersion)),
         Optional(snapshot, CapturedAtName, TextJson(v.capturedAt)),
         Optional(snapshot, DefinitionHashName, TextJson(v.definitionHash))])
  }

  ghost function ResultJson(v: QueryResult): Json {
    Obj([Required(ArgumentsName, Group(Entries(ArgumentOf(v.arguments), Order(v.arguments.Keys)))),
         Required(CycleRefsName, CycleRefsJson(v.cycles)), Required(DiagnosticsName, DiagnosticsJson(v.diagnostics)),
         Required(InducedRelationAddressesName, TextsJson(v.induced)),
         Required(PathRelationAddressesName, TextsJson(v.pathRelations)),
         Required(PathsName, PathsJson(v.paths)), Required(PrimaryEntityAddressesName, TextsJson(v.primary)),
         Required(QueryAddressName, TextJson(v.query)), Required(ReachedEntityAddressesName, TextsJson(v.reached)),
         Required(SeedEntityAddressesName, TextsJson(v.seeds)),
         Required(SelectedRelationAddressesName, TextsJson(v.selected)),
         Required(StateInputName, StateInputJson(v.stateInput)), Required(StatePolicyName, TextJson(v.statePolicy)),
         Required(StateReadsName, StateReadsJson(v.stateReads)),
         Required(SupportEntityAddressesName, TextsJson(v.support)),
         Required(TraversedEntityAddressesName, TextsJson(v.traversed))])
  }

  function GenerationJson(v: Generation): Json {
    Obj([Required(DocumentHandleName, Obj([Required(EndpointInstanceIdName, TextJson(v.endpoint)),
                                           Required(ValueName, TextJson(v.handle))])),
                                           Required(ValueName, TextJson(Decimal(v.value)))])
  }

  /** The protocol payload, with the byte count it is going to carry left to the caller. */
  ghost function PayloadJson(v: QueryExecution, returnedBytes: nat): Json {
    Obj([Required(DocumentGenerationName, GenerationJson(v.generation)), Required(ResultName, ResultJson(v.result)),
         Required(ReturnedBytesName, TextJson(Decimal(returnedBytes))),
         Required(ReturnedItemsName, TextJson(Decimal(v.returnedItems)))])
  }

  // ----- Counting members and reordering map entries ------------------------------------------

  lemma {:induction false} AllPresent(members: seq<Member>, from: nat)
    requires from <= |members| && forall i :: from <= i < |members| ==> !members[i].Absent?
    ensures Present(members, from) == |members| - from
    decreases |members| - from
  {
    if from < |members| {
      AllPresent(members, from + 1);
    }
  }

  function One(m: Member): nat {
    if m.Absent? then 0 else 1
  }

  lemma PresentOfFive(m: seq<Member>)
    requires |m| == 5
    ensures Present(m, 0) == One(m[0]) + One(m[1]) + One(m[2]) + One(m[3]) + One(m[4])
  {
    assert Present(m, 4) == One(m[4]) + Present(m, 5);
    assert Present(m, 3) == One(m[3]) + Present(m, 4);
    assert Present(m, 2) == One(m[2]) + Present(m, 3);
    assert Present(m, 1) == One(m[1]) + Present(m, 2);
  }

  lemma PresentOfTen(m: seq<Member>)
    requires |m| == 10
    ensures Present(m, 0) == One(m[0]) + One(m[1]) + One(m[2]) + One(m[3]) + One(m[4])
                           + One(m[5]) + One(m[6]) + One(m[7]) + One(m[8]) + One(m[9])
  {
    assert Present(m, 9) == One(m[9]) + Present(m, 10);
    assert Present(m, 8) == One(m[8]) + Present(m, 9);
    assert Present(m, 7) == One(m[7]) + Present(m, 8);
    assert Present(m, 6) == One(m[6]) + Present(m, 7);
    assert Present(m, 5) == One(m[5]) + Present(m, 6);
    assert Present(m, 4) == One(m[4]) + Present(m, 5);
    assert Present(m, 3) == One(m[3]) + Present(m, 4);
    assert Present(m, 2) == One(m[2]) + Present(m, 3);
    assert Present(m, 1) == One(m[1]) + Present(m, 2);
  }

  /** The sizes of the entries `value` gives to the keys of `order`. */
  function EntriesSize(value: Text -> Json, order: seq<Text>): nat {
    if order == [] then 0
    else MemberSize(Member(Given(order[0]), value(order[0]))) + EntriesSize(value, order[1..])
  }

  lemma {:induction false} EntriesSizeWithout(value: Text -> Json, order: seq<Text>, at: nat)
    requires at < |order|
    ensures EntriesSize(value, order) ==
              MemberSize(Member(Given(order[at]), value(order[at]))) + EntriesSize(value, order[..at] + order[at + 1..])
    decreases |order|
  {
    if at == 0 {
      assert order[..0] + order[1..] == order[1..];
    } else {
      EntriesSizeWithout(value, order[1..], at - 1);
      assert (order[..at] + order[at + 1..])[1..] == order[1..][..at - 1] + order[1..][at..];
    }
  }

  /** The order in which a map is walked does not change what its entries add up to. */
  lemma {:induction false} EntriesSizeIgnoresOrder(value: Text -> Json, keys: set<Text>, a: seq<Text>, b: seq<Text>)
    requires Enumerates(keys, a) && Enumerates(keys, b)
    ensures EntriesSize(value, a) == EntriesSize(value, b) && |a| == |b|
    decreases |a|
  {
    if a == [] {
      assert forall i :: 0 <= i < |b| ==> b[i] in b;
    } else {
      var k := a[0];
      assert k in a && k in b;
      var at :| 0 <= at < |b| && b[at] == k;
      var rest := b[..at] + b[at + 1..];
      EntriesSizeWithout(value, b, at);
      EnumeratesWithout(keys, b, at);
      assert a == a[..0] + [k] + a[1..] && a[1..] == a[..0] + a[1..];
      EnumeratesWithout(keys, a, 0);
      EntriesSizeIgnoresOrder(value, keys - {k}, a[1..], rest);
    }
  }

  lemma EnumeratesWithout(keys: set<Text>, order: seq<Text>, at: nat)
    requires Enumerates(keys, order) && at < |order|
    ensures Enumerates(keys - {order[at]}, order[..at] + order[at + 1..])
  {
    var rest := order[..at] + order[at + 1..];
    forall k ensures k in rest <==> k in keys && k != order[at] {
      if k in keys && k != order[at] {
        var i :| 0 <= i < |order| && order[i] == k;
        assert rest[if i < at then i else i - 1] == k;
      }
    }
  }

  lemma {:induction false} EntriesSized(value: Text -> Json, order: seq<Text>, from: nat)
    requires from <= |order|
    ensures MembersSize(Entries(value, order), from) == EntriesSize(value, order[from..])
    decreases |order| - from
  {
    if from < |order| {
      EntriesSized(value, order, from + 1);
    }
  }

  /** A walk in another order measures the same, or fails the same. */
  lemma WalkOrderIsImmaterial(value: Text -> Json, keys: set<Text>, a: seq<Text>, b: seq<Text>)
    requires Enumerates(keys, a) && Enumerates(keys, b)
    ensures Counts(Entries(value, a)) == Counts(Entries(value, b))
  {
    EntriesSizeIgnoresOrder(value, keys, a, b);
    EntriesSized(value, a, 0);
    EntriesSized(value, b, 0);
    assert a[0..] == a && b[0..] == b;
    AllPresent(Entries(value, a).members, 0);
    AllPresent(Entries(value, b).members, 0);
    ValidAnyOrder(value, keys, a);
    ValidAnyOrder(value, keys, b);
  }

  lemma ValidAnyOrder(value: Text -> Json, keys: set<Text>, order: seq<Text>)
    requires Enumerates(keys, order)
    ensures Valid(Entries(value, order)) <==> forall k :: k in keys ==> WellFormed(k) && Valid(value(k))
  {
    var members := Entries(value, order).members;
    if Valid(Entries(value, order)) {
      forall k | k in keys ensures WellFormed(k) && Valid(value(k)) {
        assert k in order;
        var i :| 0 <= i < |order| && order[i] == k;
        assert ValidMember(members[i]);
      }
    } else {
      var i :| 0 <= i < |members| && !ValidMember(members[i]);
      assert order[i] in order;
    }
  }

  // ----- Walking the result -------------------------------------------------------------------

  /** Go ranges over a map in no particular order. */
  method RangeOrder(keys: set<Text>) returns (order: seq<Text>)
    ensures Enumerates(keys, order) && |order| == |keys|
  {
    order := [];
    var pending := keys;
    while pending != {}
      invariant pending <= keys && |order| + |pending| == |keys|
      invariant Enumerates(keys - pending, order)
      decreases |pending|
    {
      var k :| k in pending;
      pending := pending - {k};
      order := order + [k];
    }
  }

  /** Measuring a group apart fails only where charging it at once fails. */
  lemma GroupVerdict(inner: Json, other: Json, tally: Tally)
    requires tally == Run(Counting(0), 0, TapeOf(other, End)) && Counts(other) == Counts(inner)
    ensures tally.Failed? ==> tally.fault == Unmeasurable && (Valid(inner) ==> Size(inner) > MAX_INT64)
    ensures tally.Counting? ==> Valid(inner) && tally.size == Size(inner)
  {
    TapeWeighsSize(other, End);
    RunCountsIffFits(0, 0, TapeOf(other, End));
  }

  lemma NoMoreMembers(j: Json, k: Tape)
    requires j.Obj?
    ensures MembersTape(j, |j.members|, k) == k
  {
  }

  lemma ResultHead(v: QueryResult)
    ensures var j := ResultJson(v);
            && j.Obj? && |j.members| == 16
            && j.members[0] == Required(ArgumentsName, Group(Entries(ArgumentOf(v.arguments), Order(v.arguments.Keys))))
            && j.members[1] == Required(CycleRefsName, CycleRefsJson(v.cycles))
            && j.members[2] == Required(DiagnosticsName, DiagnosticsJson(v.diagnostics))
            && j.members[3] == Required(InducedRelationAddressesName, TextsJson(v.induced))
            && j.members[4] == Required(PathRelationAddressesName, TextsJson(v.pathRelations))
            && j.members[5] == Required(PathsName, PathsJson(v.paths))
            && j.members[6] == Required(PrimaryEntityAddressesName, TextsJson(v.primary))
            && j.members[7] == Required(QueryAddressName, TextJson(v.query))
  {
    hide Spelled, Enumerates, TextJson, Required, TextsJson, PathsJson, CycleRefsJson, DiagnosticsJson, StateInputJson,
         StateReadsJson, Entries, ArgumentOf;
  }

  lemma ResultTail(v: QueryResult)
    ensures var j := ResultJson(v);
            && j.Obj? && |j.members| == 16
            && j.members[8] == Required(ReachedEntityAddressesName, TextsJson(v.reached))
            && j.members[9] == Required(SeedEntityAddressesName, TextsJson(v.seeds))
            && j.members[10] == Required(SelectedRelationAddressesName, TextsJson(v.selected))
            && j.members[11] == Required(StateInputName, StateInputJson(v.stateInput))
            && j.members[12] == Required(StatePolicyName, TextJson(v.statePolicy))
            && j.members[13] == Required(StateReadsName, StateReadsJson(v.stateReads))
            && j.members[14] == Required(SupportEntityAddressesName, TextsJson(v.support))
            && j.members[15] == Required(TraversedEntityAddressesName, TextsJson(v.traversed))
  {
    hide Spelled, Enumerates, TextJson, Required, TextsJson, PathsJson, CycleRefsJson, DiagnosticsJson, StateInputJson,
         StateReadsJson, Entries, ArgumentOf;
  }

  class QuerySizer {
    const counter: Counter

    constructor (counter: Counter)
      ensures this.counter == counter
    {
      this.counter := counter;
    }

    method Container(items: nat, ghost rest: Tape) returns (outcome: Outcome)
      requires counter.At(Then(Amount(ContainerSize(items)), rest))
      modifies counter
      ensures counter.Reported(outcome, rest)
    {
      hide Run, Spelled;
      var amount := 2;
      if items > 1 {
        amount := amount + (items - 1);
      }
      outcome := counter.Add(amount, Amount(ContainerSize(items)), rest);
    }

    method Object(fields: nat, ghost j: Json, ghost k: Tape) returns (outcome: Outcome)
      requires j.Obj? && fields == Present(j.members, 0) && counter.At(TapeOf(j, k))
      modifies counter
      ensures counter.Reported(outcome, MembersTape(j, 0, k))
    {
      hide Run, Spelled;
      outcome := Container(fields, MembersTape(j, 0, k));
    }

    method Array(items: nat, ghost j: Json, ghost k: Tape) returns (outcome: Outcome)
      requires j.Arr? && items == |j.items| && counter.At(TapeOf(j, k))
      modifies counter
      ensures counter.Reported(outcome, ItemsTape(j, 0, k))
    {
      hide Run, Spelled;
      outcome := Container(items, ItemsTape(j, 0, k));
    }

    method Field(word: Word, ghost j: Json, ghost i: nat, ghost k: Tape) returns (outcome: Outcome)
      requires j.Obj? && i < |j.members| && j.members[i].Member? && j.members[i].word == word
      requires counter.At(MembersTape(j, i, k))
      modifies counter
      ensures counter.Reported(outcome, TapeOf(j.members[i].value, MembersTape(j, i + 1, k)))
    {
      hide Run, Spelled;
      ghost var rest := TapeOf(j.members[i].value, MembersTape(j, i + 1, k));
      :- counter.String(word, Then(Amount(1), rest));
      outcome := counter.Add(1, Amount(1), rest);
    }

    method TextField(name: Name, value: Text, ghost j: Json, ghost i: nat, ghost k: Tape) returns (outcome: Outcome)
      requires j.Obj? && i < |j.members| && j.members[i] == Required(name, TextJson(value))
      requires counter.At(MembersTape(j, i, k))
      modifies counter
      ensures counter.Reported(outcome, MembersTape(j, i + 1, k))
    {
      hide Run, Spelled;
      :- Field(Known(name), j, i, k);
      outcome := counter.String(Given(value), MembersTape(j, i + 1, k));
    }

    /** A member that is left out when its value is missing. */
    method OptionalTextField(present: bool, name: Name, value: Text, ghost j: Json, ghost i: nat, ghost k: Tape)
      returns (outcome: Outcome)
      requires j.Obj? && i < |j.members| && j.members[i] == Optional(present, name, TextJson(value))
      requires counter.At(MembersTape(j, i, k))
      modifies counter
      ensures counter.Reported(outcome, MembersTape(j, i + 1, k))
    {
      hide Run, Spelled;
      if present {
        outcome := TextField(name, value, j, i, k);
      } else {
        outcome := Done;
      }
    }

    method Strings(values: seq<Text>, ghost k: Tape) returns (outcome: Outcome)
      requires counter.At(TapeOf(TextsJson(values), k))
      modifies counter
      ensures counter.Reported(outcome, k)
    {
      hide Run, Spelled;
      ghost var j := TextsJson(values);
      :- Array(|values|, j, k);
      for i := 0 to |values|
        invariant counter.At(ItemsTape(j, i, k))
      {
        :- counter.String(Given(values[i]), ItemsTape(j, i + 1, k));
      }
      return Done;
    }

    method StringsField(name: Name, values: seq<Text>, ghost j: Json, ghost i: nat, ghost k: Tape)
      returns (outcome: Outcome)
      requires j.Obj? && i < |j.members| && j.members[i] == Required(name, TextsJson(values))
      requires counter.At(MembersTape(j, i, k))
      modifies counter
      ensures counter.Reported(outcome, MembersTape(j, i + 1, k))
    {
      hide Run, Spelled;
      :- Field(Known(name), j, i, k);
      outcome := Strings(values, MembersTape(j, i + 1, k));
    }

    method ScalarOf(v: ScalarValue, ghost k: Tape) returns (outcome: Outcome)
      requires counter.At(TapeOf(ScalarJson(v), k))
      modifies counter
      ensures counter.Reported(outcome, k)
    {
      hide Run, Spelled;
      ghost var j := ScalarJson(v);
      AllPresent(j.members, 0);
      :- Object(2, j, k);
      :- Field(Known(KindName), j, 0, k);
      :- counter.String(KindWord(v.kind), MembersTape(j, 1, k));
      assert MembersTape(j, 2, k) == k;
      match v.kind {
        case IntegerScalar =>
          if v.integer < -MAX_SAFE_INTEGER || v.integer > MAX_SAFE_INTEGER {
            outcome := counter.Refuse(k);
            return;
          }
          outcome := TextField(IntegerValueName, Decimal(v.integer), j, 1, k);
        case NumberScalar =>
          if v.number.NaN? || v.number.Infinite? || v.number.NegativeZero? {
            outcome := counter.Refuse(k);
            return;
          }
          outcome := TextField(NumberValueName, v.number.decimal, j, 1, k);
        case BooleanScalar =>
          :- Field(Known(BooleanValueName), j, 1, k);
          if v.boolean {
            outcome := counter.Add(4, Amount(4), k);
          } else {
            outcome := counter.Add(5, Amount(5), k);
          }
        case UnsupportedScalar(_) =>
          outcome := counter.Refuse(k);
        case _ =>
          outcome := TextField(StringValueName, v.text, j, 1, k);
      }
    }

    /** Charges a group measured on its own counter, once and whole. */
    method AddMeasured(measured: Counter, inside: Outcome, ghost j: Json, ghost listed: Json, ghost k: Tape)
      returns (outcome: Outcome)
      requires counter.At(TapeOf(Group(listed), k)) && Counts(j) == Counts(listed)
      requires measured.limit == 0 && measured.plan == TapeOf(j, End) && measured.Reported(inside, End)
      modifies counter
      ensures counter.Reported(outcome, k)
    {
      GroupVerdict(listed, j, measured.Verdict());
      if inside.Stop? {
        FailureIsFinal(Unmeasurable, counter.limit, k);
        return inside;
      }
      outcome := counter.Add(measured.size, Bulk(listed), k);
    }

    method Arguments(values: map<Text, ScalarValue>, ghost k: Tape) returns (outcome: Outcome)
      requires counter.At(TapeOf(Group(Entries(ArgumentOf(values), Order(values.Keys))), k))
      modifies counter
      ensures counter.Reported(outcome, k)
    {
      hide Run, Spelled;
      var cancelled: bool := *;
      if cancelled {
        return Stop(Aborted);
      }
      var order := RangeOrder(values.Keys);
      ghost var j := Entries(ArgumentOf(values), order);
      WalkOrderIsImmaterial(ArgumentOf(values), values.Keys, order, Order(values.Keys));
      var measured := new Counter(0, TapeOf(j, End));
      var sizer := new QuerySizer(measured);
      var inside := sizer.WalkArguments(values, order);
      outcome := AddMeasured(measured, inside, j, Entries(ArgumentOf(values), Order(values.Keys)), k);
    }

    method WalkArguments(values: map<Text, ScalarValue>, order: seq<Text>) returns (outcome: Outcome)
      requires Enumerates(values.Keys, order) && |order| == |values|
      requires counter.At(TapeOf(Entries(ArgumentOf(values), order), End))
      modifies counter
      ensures counter.Reported(outcome, End)
    {
      hide Run, Spelled;
      ghost var j := Entries(ArgumentOf(values), order);
      AllPresent(j.members, 0);
      :- Object(|values|, j, End);
      for i := 0 to |order|
        invariant counter.At(MembersTape(j, i, End))
      {
        assert order[i] in order;
        :- Field(Given(order[i]), j, i, End);
        :- ScalarOf(values[order[i]], MembersTape(j, i + 1, End));
      }
      return Done;
    }

    method Details(values: map<Text, Text>, ghost k: Tape) returns (outcome: Outcome)
      requires counter.At(TapeOf(Group(Entries(DetailOf(values), Order(values.Keys))), k))
      modifies counter
      ensures counter.Reported(outcome, k)
    {
      hide Run, Spelled;
      var cancelled: bool := *;
      if cancelled {
        return Stop(Aborted);
      }
      var order := RangeOrder(values.Keys);
      ghost var j := Entries(DetailOf(values), order);
      WalkOrderIsImmaterial(DetailOf(values), values.Keys, order, Order(values.Keys));
      var measured := new Counter(0, TapeOf(j, End));
      var sizer := new QuerySizer(measured);
      var inside := sizer.WalkDetails(values, order);
      outcome := AddMeasured(measured, inside, j, Entries(DetailOf(values), Order(values.Keys)), k);
    }

    method WalkDetails(values: map<Text, Text>, order: seq<Text>) returns (outcome: Outcome)
      requires Enumerates(values.Keys, order) && |order| == |values|
      requires counter.At(TapeOf(Entries(DetailOf(values), order), End))
      modifies counter
      ensures counter.Reported(outcome, End)
    {
      hide Run, Spelled;
      ghost var j := Entries(DetailOf(values), order);
      AllPresent(j.members, 0);
      :- Object(|values|, j, End);
      for i := 0 to |order|
        invariant counter.At(MembersTape(j, i, End))
      {
        assert order[i] in order;
        :- Field(Given(order[i]), j, i, End);
        :- DetailText(values[order[i]], MembersTape(j, i + 1, End));
      }
      return Done;
    }

    method DetailText(value: Text, ghost k: Tape) returns (outcome: Outcome)
      requires counter.At(TapeOf(DetailJson(value), k))
      modifies counter
      ensures counter.Reported(outcome, k)
    {
      hide Run, Spelled;
      ghost var j := DetailJson(value);
      AllPresent(j.members, 0);
      :- Object(2, j, k);
      :- Field(Known(KindName), j, 0, k);
      :- counter.String(Known(StringWord), MembersTape(j, 1, k));
      outcome := TextField(StringValueName, value, j, 1, k);
    }

    method PathOf(v: Path, ghost k: Tape) returns (outcome: Outcome)
      requires counter.At(TapeOf(PathJson(v), k))
      modifies counter
      ensures counter.Reported(outcome, k)
    {
      hide Run, Spelled;
      ghost var j := PathJson(v);
      AllPresent(j.members, 0);
      :- Object(2, j, k);
      :- StringsField(EntityAddressesName, v.entities, j, 0, k);
      outcome := StringsField(RelationAddressesName, v.relations, j, 1, k);
    }

    method Paths(values: seq<Path>, ghost k: Tape) returns (outcome: Outcome)
      requires counter.At(TapeOf(PathsJson(values), k))
      modifies counter
      ensures counter.Reported(outcome, k)
    {
      hide Run, Spelled;
      ghost var j := PathsJson(values);
      :- Array(|values|, j, k);
      for i := 0 to |values|
        invariant counter.At(ItemsTape(j, i, k))
      {
        :- PathOf(values[i], ItemsTape(j, i + 1, k));
      }
      return Done;
    }

    method CycleRefs(values: seq<CycleRef>, ghost k: Tape) returns (outcome: Outcome)
      requires counter.At(TapeOf(CycleRefsJson(values), k))
      modifies counter
      ensures counter.Reported(outcome, k)
    {
      hide Run, Spelled;
      ghost var list := CycleRefsJson(values);
      :- Array(|values|, list, k);
      for i := 0 to |values|
        invariant counter.At(ItemsTape(list, i, k))
      {
        :- CycleRefOf(values[i], ItemsTape(list, i + 1, k));
      }
      return Done;
    }

    method CycleRefOf(v: CycleRef, ghost k: Tape) returns (outcome: Outcome)
      requires counter.At(TapeOf(CycleRefJson(v), k))
      modifies counter
      ensures counter.Reported(outcome, k)
    {
      hide Run, Spelled, TapeOf, MembersTape;
      ghost var j := CycleRefJson(v);
      AllPresent(j.members, 0);
      NoMoreMembers(j, k);
      :- Object(6, j, k);
      :- TextField(FromEntityAddressName, v.from, j, 0, k);
      :- TextField(KindName, v.kind, j, 1, k);
      :- TextField(OrientationName, v.orientation, j, 2, k);
      :- TextField(RelationAddressName, v.relation, j, 3, k);
      :- Field(Known(RetainedPathName), j, 4, k);
      :- PathOf(v.retained, MembersTape(j, 5, k));
      outcome := TextField(ToEntityAddressName, v.to, j, 5, k);
    }

    method StateReads(values: seq<StateRead>, ghost k: Tape) returns (outcome: Outcome)
      requires counter.At(TapeOf(StateReadsJson(values), k))
      modifies counter
      ensures counter.Reported(outcome, k)
    {
      hide Run, Spelled;
      ghost var list := StateReadsJson(values);
      :- Array(|values|, list, k);
      for i := 0 to |values|
        invariant counter.At(ItemsTape(list, i, k))
      {
        ghost var j, rest := StateReadJson(values[i]), ItemsTape(list, i + 1, k);
        AllPresent(j.members, 0);
        :- Object(2, j, rest);
        :- TextField(FieldPathName, values[i].fieldPath, j, 0, rest);
        :- TextField(SubjectAddressName, values[i].subject, j, 1, rest);
      }
      return Done;
    }

    method OriginOf(v: Origin, ghost k: Tape) returns (outcome: Outcome)
      requires counter.At(TapeOf(OriginJson(v), k))
      modifies counter
      ensures counter.Reported(outcome, k)
    {
      hide Run, Spelled;
      ghost var j := OriginJson(v);
      var fields := 1;
      if v.pack != [] {
        fields := fields + 1;
      }
      assert Present(j.members, 0) == One(j.members[0]) + Present(j.members, 1);
      :- Object(fields, j, k);
      :- TextField(KindName, v.kind, j, 0, k);
      outcome := OptionalTextField(v.pack != [], PackAddressName, v.pack, j, 1, k);
    }

    method RangeOf(v: SourceRange, ghost k: Tape) returns (outcome: Outcome)
      requires counter.At(TapeOf(RangeJson(v), k))
      modifies counter
      ensures counter.Reported(outcome, k)
    {
      hide Run, Spelled;
      if v.start < 0 || v.end < 0 {
        outcome := counter.Refuse(k);
        return;
      }
      ghost var j := RangeJson(v);
      AllPresent(j.members, 0);
      :- Object(4, j, k);
      :- TextField(EndByteName, Decimal(v.end), j, 0, k);
      :- TextField(ModulePathName, v.modulePath, j, 1, k);
      :- Field(Known(OriginName), j, 2, k);
      :- OriginOf(v.origin, MembersTape(j, 3, k));
      outcome := TextField(StartByteName, Decimal(v.start), j, 3, k);
    }

    method OptionalRangeField(range: Option<SourceRange>, ghost j: Json, ghost i: nat, ghost k: Tape)
      returns (outcome: Outcome)
      requires j.Obj? && i < |j.members| && j.members[i] == OptionalRange(range)
      requires counter.At(MembersTape(j, i, k))
      modifies counter
      ensures counter.Reported(outcome, MembersTape(j, i + 1, k))
    {
      hide Run, Spelled;
      if range.Some? {
        :- Field(Known(RangeName), j, i, k);
        outcome := RangeOf(range.value, MembersTape(j, i + 1, k));
      } else {
        outcome := Done;
      }
    }

    method RelatedOf(v: Related, ghost k: Tape) returns (outcome: Outcome)
      requires counter.At(TapeOf(RelatedJson(v), k))
      modifies counter
      ensures counter.Reported(outcome, k)
    {
      hide Run, Spelled, TapeOf, MembersTape;
      ghost var j := RelatedJson(v);
      var fields := 1;
      if v.message != [] { fields := fields + 1; }
      if v.owner != [] { fields := fields + 1; }
      if v.range.Some? { fields := fields + 1; }
      if v.subject != [] { fields := fields + 1; }
      PresentOfFive(j.members);
      NoMoreMembers(j, k);
      :- Object(fields, j, k);
      :- OptionalTextField(v.message != [], MessageName, v.message, j, 0, k);
      :- OptionalTextField(v.owner != [], OwnerAddressName, v.owner, j, 1, k);
      :- OptionalRangeField(v.range, j, 2, k);
      :- TextField(RelationName, v.relation, j, 3, k);
      outcome := OptionalTextField(v.subject != [], SubjectAddressName, v.subject, j, 4, k);
    }

    method RelatedList(values: seq<Related>, ghost k: Tape) returns (outcome: Outcome)
      requires counter.At(TapeOf(RelatedListJson(values), k))
      modifies counter
      ensures counter.Reported(outcome, k)
    {
      hide Run, Spelled;
      ghost var list := RelatedListJson(values);
      :- Array(|values|, list, k);
      for i := 0 to |values|
        invariant counter.At(ItemsTape(list, i, k))
      {
        :- RelatedOf(values[i], ItemsTape(list, i + 1, k));
      }
      return Done;
    }

    method DiagnosticOf(v: Diagnostic, ghost k: Tape) returns (outcome: Outcome)
      requires counter.At(TapeOf(DiagnosticJson(v), k))
      modifies counter
      ensures counter.Reported(outcome, k)
    {
      hide Run, Spelled, MembersTape, RelatedListJson, RangeJson, Entries, DetailOf;
      ghost var j := DiagnosticJson(v);
      var fields := 6;
      if v.message != [] { fields := fields + 1; }
      if v.range.Some? { fields := fields + 1; }
      if v.subject != [] { fields := fields + 1; }
      if v.owner != [] { fields := fields + 1; }
      PresentOfTen(j.members);
      NoMoreMembers(j, k);
      :- Object(fields, j, k);
      :- Field(Known(ArgumentsName), j, 0, k);
      :- Details(v.arguments, MembersTape(j, 1, k));
      :- TextField(CodeName, v.code, j, 1, k);
      :- TextField(MessageKeyName, v.messageKey, j, 2, k);
      :- OptionalTextField(v.message != [], MessageName, v.message, j, 3, k);
      :- OptionalTextField(v.owner != [], OwnerAddressName, v.owner, j, 4, k);
      :- Field(Known(ProtocolVersionName), j, 5, k);
      :- counter.Add(1, Amount(1), MembersTape(j, 6, k));
      :- OptionalRangeField(v.range, j, 6, k);
      :- Field(Known(RelatedName), j, 7, k);
      :- RelatedList(v.related, MembersTape(j, 8, k));
      :- TextField(SeverityName, v.severity, j, 8, k);
      outcome := OptionalTextField(v.subject != [], SubjectAddressName, v.subject, j, 9, k);
    }

    method Diagnostics(values: seq<Diagnostic>, ghost k: Tape) returns (outcome: Outcome)
      requires counter.At(TapeOf(DiagnosticsJson(values), k))
      modifies counter
      ensures counter.Reported(outcome, k)
    {
      hide Run, Spelled;
      ghost var list := DiagnosticsJson(values);
      :- Array(|values|, list, k);
      for i := 0 to |values|
        invariant counter.At(ItemsTape(list, i, k))
      {
        :- DiagnosticOf(values[i], ItemsTape(list, i + 1, k));
      }
      return Done;
    }

    method StateInputOf(v: StateInput, ghost k: Tape) returns (outcome: Outcome)
      requires counter.At(TapeOf(StateInputJson(v), k))
      modifies counter
      ensures counter.Reported(outcome, k)
    {
      hide Run, Spelled, TapeOf, MembersTape;
      ghost var j := StateInputJson(v);
      var snapshot := v.kind == Spelled(Known(SnapshotWord));
      PresentOfFive(j.members);
      NoMoreMembers(j, k);
      :- Object(if snapshot then 5 else 1, j, k);
      :- TextField(KindName, v.kind, j, 0, k);
      :- OptionalTextField(snapshot, SnapshotHashName, v.snapshotHash, j, 1, k);
      :- OptionalTextField(snapshot, StateVersionName, v.stateVersion, j, 2, k);
      :- OptionalTextField(snapshot, CapturedAtName, v.capturedAt, j, 3, k);
      outcome := OptionalTextField(snapshot, DefinitionHashName, v.definitionHash, j, 4, k);
    }

    method ResultOf(v: QueryResult, ghost k: Tape) returns (outcome: Outcome)
      requires counter.At(TapeOf(ResultJson(v), k))
      modifies counter
      ensures counter.Reported(outcome, k)
    {
      hide Run, Spelled, TapeOf, MembersTape, ResultJson;
      ghost var j := ResultJson(v);
      ResultHead(v);
      ResultTail(v);
      assert forall i :: 0 <= i < 16 ==> j.members[i].Member?;
      AllPresent(j.members, 0);
      NoMoreMembers(j, k);
      :- Object(16, j, k);
      :- Field(Known(ArgumentsName), j, 0, k);
      :- Arguments(v.arguments, MembersTape(j, 1, k));
      :- Field(Known(CycleRefsName), j, 1, k);
      :- CycleRefs(v.cycles, MembersTape(j, 2, k));
      :- Field(Known(DiagnosticsName), j, 2, k);
      :- Diagnostics(v.diagnostics, MembersTape(j, 3, k));
      :- StringsField(InducedRelationAddressesName, v.induced, j, 3, k);
      :- StringsField(PathRelationAddressesName, v.pathRelations, j, 4, k);
      :- Field(Known(PathsName), j, 5, k);
      :- Paths(v.paths, MembersTape(j, 6, k));
      :- StringsField(PrimaryEntityAddressesName, v.primary, j, 6, k);
      :- TextField(QueryAddressName, v.query, j, 7, k);
      :- StringsField(ReachedEntityAddressesName, v.reached, j, 8, k);
      :- StringsField(SeedEntityAddressesName, v.seeds, j, 9, k);
      :- StringsField(SelectedRelationAddressesName, v.selected, j, 10, k);
      :- Field(Known(StateInputName), j, 11, k);
      :- StateInputOf(v.stateInput, MembersTape(j, 12, k));
      :- TextField(StatePolicyName, v.statePolicy, j, 12, k);
      :- Field(Known(StateReadsName), j, 13, k);
      :- StateReads(v.stateReads, MembersTape(j, 14, k));
      :- StringsField(SupportEntityAddressesName, v.support, j, 14, k);
      outcome := StringsField(TraversedEntityAddressesName, v.traversed, j, 15, k);
    }

    method GenerationOf(v: Generation, ghost k: Tape) returns (outcome: Outcome)
      requires counter.At(TapeOf(GenerationJson(v), k))
      modifies counter
      ensures counter.Reported(outcome, k)
    {
      hide Run, Spelled;
      ghost var j := GenerationJson(v);
      ghost var handle, rest := j.members[0].value, MembersTape(j, 1, k);
      AllPresent(j.members, 0);
      AllPresent(handle.members, 0);
      :- Object(2, j, k);
      :- Field(Known(DocumentHandleName), j, 0, k);
      :- Object(2, handle, rest);
      :- TextField(EndpointInstanceIdName, v.endpoint, handle, 0, rest);
      :- TextField(ValueName, v.handle, handle, 1, rest);
      outcome := TextField(ValueName, Decimal(v.value), j, 1, k);
    }

    method ExecuteResult(v: QueryExecution, ghost k: Tape) returns (outcome: Outcome)
      requires counter.At(TapeOf(PayloadJson(v, 0), k))
      modifies counter
      ensures counter.Reported(outcome, k)
    {
      hide Run, Spelled, TapeOf, MembersTape;
      ghost var j := PayloadJson(v, 0);
      AllPresent(j.members, 0);
      NoMoreMembers(j, k);
      :- Object(4, j, k);
      :- Field(Known(DocumentGenerationName), j, 0, k);
      :- GenerationOf(v.generation, MembersTape(j, 1, k));
      :- Field(Known(ResultName), j, 1, k);
      :- ResultOf(v.result, MembersTape(j, 2, k));
      :- TextField(ReturnedBytesName, Decimal(0), j, 2, k);
      outcome := TextField(ReturnedItemsName, Decimal(v.returnedItems), j, 3, k);
    }
  }

  // ----- The measurement and what it means ----------------------------------------------------

  datatype Measured = Bytes(size: nat) | LimitExceeded(observed: nat) | Cancelled | OutputInvariant | ItemInvariant

  function ItemCount(v: QueryResult): nat {
    |v.seeds| + |v.reached| + |v.traversed| + |v.pathRelations| + |v.induced| + |v.primary| + |v.selected| + |v.support|
    + |v.paths| + |v.cycles| + |v.stateReads| + |v.diagnostics|
  }

  function FaultResult(fault: Fault): Measured {
    match fault
    case Aborted => Cancelled
    case OverLimit(observed) => LimitExceeded(observed)
    case Unmeasurable => OutputInvariant
  }

  /** The outcome of a measurement that nobody cancels. */
  ghost function Measurement(v: QueryExecution, limit: int): Measured {
    if v.returnedItems != ItemCount(v.result) then ItemInvariant
    else if limit < 0 then OutputInvariant
    else match Run(Counting(0), limit, TapeOf(PayloadJson(v, 0), End))
         case Counting(size) => Bytes(size)
         case Failed(fault) => FaultResult(fault)
  }

  method MeasureDocumentQueryLogicalBytes(v: QueryExecution, limit: int) returns (measured: Measured)
    ensures measured == Measurement(v, limit) ||
            (measured == Cancelled && limit >= 0 && v.returnedItems == ItemCount(v.result))
  {
    if v.returnedItems != ItemCount(v.result) {
      return ItemInvariant;
    }
    if limit < 0 {
      return OutputInvariant;
    }
    var counter := new Counter(limit, TapeOf(PayloadJson(v, 0), End));
    var sizer := new QuerySizer(counter);
    var outcome := sizer.ExecuteResult(v, End);
    if outcome.Stop? {
      return FaultResult(outcome.fault);
    }
    return Bytes(counter.size);
  }

  /**
   * The measured size is the length of the payload's print, whatever canonical order its members
   * are put in, and a result over the limit is refused exactly when that length exceeds the limit.
   */
  lemma MeasurementIsPrintedLength(v: QueryExecution, limit: nat, less: (Text, Text) -> bool)
    requires v.returnedItems == ItemCount(v.result)
    ensures var j := PayloadJson(v, 0);
            var m := Measurement(v, limit);
            if Valid(j) then
              var length := |Print(Arranged(less, j))|;
              && length == |Print(j)|
              && (m.Bytes? <==> Fits(limit, length))
              && (m.Bytes? ==> m.size == length)
              && (length <= MAX_INT64 && limit > 0 ==> (m.LimitExceeded? <==> length > limit))
              && (m.LimitExceeded? ==> limit < m.observed <= length)
            else !m.Bytes? && !m.Cancelled?
  {
    hide Size, Print, Valid, TapeOf, Arranged, PayloadJson;
    var j := PayloadJson(v, 0);
    TapeWeighsSize(j, End);
    RunCountsIffFits(0, limit, TapeOf(j, End));
    ArrangedKeepsSize(less, j);
    if Valid(j) {
      PrintHasSize(j);
      PrintHasSize(Arranged(less, j));
    }
  }

  lemma FilledMember(n: nat)
    ensures var a, b := Required(ReturnedBytesName, TextJson(Decimal(0))),
            Required(ReturnedBytesName, TextJson(Decimal(n)));
            && (ValidMember(a) <==> ValidMember(b)) && !a.Absent? && !b.Absent?
            && MemberSize(b) == MemberSize(a) + |Decimal(n)| - 1
  {
    DecimalSize(n);
    DecimalSize(0);
  }

  lemma PayloadGrowsByDigits(v: QueryExecution, returnedBytes: nat)
    ensures var a, b := PayloadJson(v, 0), PayloadJson(v, returnedBytes);
            && (Valid(a) <==> Valid(b))
            && Size(b) == Size(a) + |Decimal(returnedBytes)| - 1
  {
    hide Spelled, ResultJson, GenerationJson, Decimal, ValidMember, MemberSize, TextJson;
    var a, b := PayloadJson(v, 0), PayloadJson(v, returnedBytes);
    FilledMember(returnedBytes);
    AllPresent(a.members, 0);
    AllPresent(b.members, 0);
    SplitPayload(a);
    SplitPayload(b);
  }

  lemma SplitPayload(j: Json)
    requires j.Obj? && |j.members| == 4
    ensures MembersSize(j, 0) == MemberSize(j.members[0]) + MemberSize(j.members[1]) + MemberSize(j.members[2]) +
            MemberSize(j.members[3])
    ensures Valid(j) <==>
              ValidMember(j.members[0]) && ValidMember(j.members[1]) && ValidMember(j.members[2]) &&
                ValidMember(j.members[3])
  {
    assert MembersSize(j, 3) == MemberSize(j.members[3]) + MembersSize(j, 4);
    assert MembersSize(j, 2) == MemberSize(j.members[2]) + MembersSize(j, 3);
    assert MembersSize(j, 1) == MemberSize(j.members[1]) + MembersSize(j, 2);
  }

  lemma {:induction false} DigitsWellFormed(n: nat)
    ensures |Digits(n)| > 0 && forall i :: 0 <= i < |Digits(n)| ==>
              Digits(n)[i].Scalar? && 0x30 <= Digits(n)[i].code <= 0x39
    decreases n
  {
    if n >= 10 {
      DigitsWellFormed(n / 10);
    }
  }

  lemma {:induction false} PlainSize(t: Text, from: nat)
    requires from <= |t| && forall i :: 0 <= i < |t| ==> t[i].Scalar? && 0x30 <= t[i].code <= 0x39
    ensures SymbolsSize(t, from) == |t| - from
    decreases |t| - from
  {
    if from < |t| {
      PlainSize(t, from + 1);
    }
  }

  lemma DecimalSize(n: nat)
    ensures WellFormed(Decimal(n)) && TextSize(Given(Decimal(n))) == |Decimal(n)| + 2
  {
    DigitsWellFormed(n);
    PlainSize(Decimal(n), 0);
  }

  lemma PayloadIsLong(v: QueryExecution)
    ensures Size(PayloadJson(v, 0)) >= 10
  {
    hide Spelled, ResultJson, GenerationJson, Decimal, ValidMember, TextJson, SymbolsSize;
    var j := PayloadJson(v, 0);
    AllPresent(j.members, 0);
    SplitPayload(j);
  }

  /**
   * The measured payload carries "0" as its byte count. Once the count is filled in, the payload is
   * strictly longer than what was measured, by one byte for each further digit of the count.
   */
  lemma FilledPayloadLength(v: QueryExecution, limit: nat)
    requires Measurement(v, limit).Bytes? && Valid(PayloadJson(v, 0))
    ensures var size := Measurement(v, limit).size;
            |Print(PayloadJson(v, size))| == size + |Decimal(size)| - 1 > size
  {
    var size := Measurement(v, limit).size;
    MeasurementIsPrintedLength(v, limit, (a, b) => false);
    PayloadGrowsByDigits(v, size);
    PrintHasSize(PayloadJson(v, 0));
    PrintHasSize(PayloadJson(v, size));
    PayloadIsLong(v);
    DigitsWellFormed(size / 10);
  }
}
