/**
 * JSON trees, their printed bytes, and the bounded byte counter that measures them. A `Tape` is
 * the list of amounts a measurement charges, in order; `Run` says what a counter makes of it.
 */
module CanonicalJson {
  import opened Options

  const MAX_INT64 := 0x7FFF_FFFF_FFFF_FFFF

  type Byte = b: nat | b < 256
  type Code = c: nat | c < 0xD800 || 0xE000 <= c < 0x110000

  /** A string as UTF-8 decoding sees it: Unicode scalar values, and bytes that decode to none. */
  datatype Symbol = Scalar(code: Code) | Malformed
  type Text = seq<Symbol>

  function Ascii(s: string): Text {
    seq(|s|, i requires 0 <= i < |s| => Scalar(s[i] as int))
  }

  function Digits(n: nat): Text {
    (if n < 10 then [] else Digits(n / 10)) + [Scalar(0x30 + n % 10)]
  }

  function Decimal(n: int): Text {
    if n < 0 then [Scalar(0x2D)] + Digits(-n) else Digits(n)
  }

  /** The member names and fixed words of the query protocol. */
  datatype Name =
    | DocumentGenerationName | ResultName | ReturnedBytesName | ReturnedItemsName | DocumentHandleName | ValueName
    | EndpointInstanceIdName | ArgumentsName | CycleRefsName | DiagnosticsName | InducedRelationAddressesName
    | PathRelationAddressesName | PathsName | PrimaryEntityAddressesName | QueryAddressName | ReachedEntityAddressesName
    | SeedEntityAddressesName | SelectedRelationAddressesName | StateInputName | StatePolicyName | StateReadsName
    | SupportEntityAddressesName | TraversedEntityAddressesName | KindName | SnapshotHashName | StateVersionName
    | CapturedAtName | DefinitionHashName | StringValueName | IntegerValueName | NumberValueName | BooleanValueName
    | EntityAddressesName | RelationAddressesName | FromEntityAddressName | OrientationName | RelationAddressName
    | RetainedPathName | ToEntityAddressName | FieldPathName | SubjectAddressName | CodeName | MessageKeyName
    | MessageName | OwnerAddressName | ProtocolVersionName | RangeName | RelatedName | SeverityName | RelationName
    | EndByteName | ModulePathName | OriginName | StartByteName | PackAddressName
    | StringWord | EnumWord | DateWord | DatetimeWord | IntegerWord | NumberWord | BooleanWord | SnapshotWord

  function Spelling(name: Name): string {
    match name
    case DocumentGenerationName => "document_generation"
    case ResultName => "result"
    case ReturnedBytesName => "returned_bytes"
    case ReturnedItemsName => "returned_items"
    case DocumentHandleName => "document_handle"
    case ValueName => "value"
    case EndpointInstanceIdName => "endpoint_instance_id"
    case ArgumentsName => "arguments"
    case CycleRefsName => "cycle_refs"
    case DiagnosticsName => "diagnostics"
    case InducedRelationAddressesName => "induced_relation_addresses"
    case PathRelationAddressesName => "path_relation_addresses"
    case PathsName => "paths"
    case PrimaryEntityAddressesName => "primary_entity_addresses"
    case QueryAddressName => "query_address"
    case ReachedEntityAddressesName => "reached_entity_addresses"
    case SeedEntityAddressesName => "seed_entity_addresses"
    case SelectedRelationAddressesName => "selected_relation_addresses"
    case StateInputName => "state_input"
    case StatePolicyName => "state_policy"
    case StateReadsName => "state_reads"
    case SupportEntityAddressesName => "support_entity_addresses"
    case TraversedEntityAddressesName => "traversed_entity_addresses"
    case KindName => "kind"
    case SnapshotHashName => "snapshot_hash"
    case StateVersionName => "state_version"
    case CapturedAtName => "captured_at"
    case DefinitionHashName => "definition_hash"
    case StringValueName => "string_value"
    case IntegerValueName => "integer_value"
    case NumberValueName => "number_value"
    case BooleanValueName => "boolean_value"
    case EntityAddressesName => "entity_addresses"
    case RelationAddressesName => "relation_addresses"
    case FromEntityAddressName => "from_entity_address"
    case OrientationName => "orientation"
    case RelationAddressName => "relation_address"
    case RetainedPathName => "retained_path"
    case ToEntityAddressName => "to_entity_address"
    case FieldPathName => "field_path"
    case SubjectAddressName => "subject_address"
    case CodeName => "code"
    case MessageKeyName => "message_key"
    case MessageName => "message"
    case OwnerAddressName => "owner_address"
    case ProtocolVersionName => "protocol_version"
    case RangeName => "range"
    case RelatedName => "related"
    case SeverityName => "severity"
    case RelationName => "relation"
    case EndByteName => "end_byte"
    case ModulePathName => "module_path"
    case OriginName => "origin"
    case StartByteName => "start_byte"
    case PackAddressName => "pack_address"
    case StringWord => "string"
    case EnumWord => "enum"
    case DateWord => "date"
    case DatetimeWord => "datetime"
    case IntegerWord => "integer"
    case NumberWord => "number"
    case BooleanWord => "boolean"
    case SnapshotWord => "snapshot"
  }

  datatype Word = Known(name: Name) | Given(text: Text)

  function Spelled(word: Word): Text {
    match word
    case Known(name) => Ascii(Spelling(name))
    case Given(text) => text
  }

  /** `Broken` and `BrokenMember` stand where the protocol has no value to print. */
  datatype Json =
    | Str(word: Word)
    | Literal(bytes: seq<Byte>)
    | Arr(items: seq<Json>)
    | Obj(members: seq<Member>)
    | Group(inner: Json)
    | Broken

  datatype Member = Member(word: Word, value: Json) | Absent | BrokenMember

  // ----- Printing -----------------------------------------------------------------------------

  function Utf8(c: Code): seq<Byte> {
    if c < 0x80 then [c]
    else if c < 0x800 then [0xC0 + c / 0x40, 0x80 + c % 0x40]
    else if c < 0x10000 then [0xE0 + c / 0x1000, 0x80 + c / 0x40 % 0x40, 0x80 + c % 0x40]
    else [0xF0 + c / 0x40000, 0x80 + c / 0x1000 % 0x40, 0x80 + c / 0x40 % 0x40, 0x80 + c % 0x40]
  }

  function Hex(d: nat): Byte
    requires d < 16
  {
    if d < 10 then 0x30 + d else 0x57 + d
  }

  function HexEscape(c: Code): seq<Byte>
    requires c < 0x10000
  {
    [0x5C, 0x75, Hex(c / 0x1000), Hex(c / 0x100 % 16), Hex(c / 16 % 16), Hex(c % 16)]
  }

  function PrintSymbol(s: Symbol): seq<Byte> {
    match s
    case Malformed => []
    case Scalar(c) =>
      if c == 0x22 || c == 0x5C then [0x5C, c]
      else if c == 0x08 then [0x5C, 0x62]
      else if c == 0x0C then [0x5C, 0x66]
      else if c == 0x0A then [0x5C, 0x6E]
      else if c == 0x0D then [0x5C, 0x72]
      else if c == 0x09 then [0x5C, 0x74]
      else if c == 0x2028 || c == 0x2029 || c < 0x20 then HexEscape(c)
      else Utf8(c)
  }

  function PrintSymbols(t: Text, from: nat): seq<Byte>
    requires from <= |t|
    decreases |t| - from
  {
    if from == |t| then [] else PrintSymbol(t[from]) + PrintSymbols(t, from + 1)
  }

  function PrintText(word: Word): seq<Byte> {
    [0x22] + PrintSymbols(Spelled(word), 0) + [0x22]
  }

  function Comma(needed: bool): seq<Byte> {
    if needed then [0x2C] else []
  }

  function Print(j: Json): seq<Byte>
    decreases j, 1
  {
    match j
    case Str(word) => PrintText(word)
    case Literal(bytes) => bytes
    case Arr(_) => [0x5B] + PrintItems(j, 0) + [0x5D]
    case Obj(_) => [0x7B] + PrintMembers(j, 0, false) + [0x7D]
    case Group(inner) => Print(inner)
    case Broken => []
  }

  function PrintItems(j: Json, from: nat): seq<Byte>
    requires j.Arr? && from <= |j.items|
    decreases j, 0, |j.items| - from
  {
    if from == |j.items| then [] else Comma(from > 0) + Print(j.items[from]) + PrintItems(j, from + 1)
  }

  function PrintMembers(j: Json, from: nat, comma: bool): seq<Byte>
    requires j.Obj? && from <= |j.members|
    decreases j, 0, |j.members| - from
  {
    if from == |j.members| then []
    else match j.members[from]
         case Absent => PrintMembers(j, from + 1, comma)
         case BrokenMember => PrintMembers(j, from + 1, true)
         case Member(word, value) =>
           Comma(comma) + PrintText(word) + [0x3A] + Print(value) + PrintMembers(j, from + 1, true)
  }

  // ----- Sizes --------------------------------------------------------------------------------

  function Utf8Length(c: Code): nat {
    if c < 0x80 then 1 else if c < 0x800 then 2 else if c < 0x10000 then 3 else 4
  }

  /** What the counter charges for one decoded symbol. */
  function EncodedLength(c: Code): nat {
    if c == 0x22 || c == 0x5C || c == 0x08 || c == 0x0C || c == 0x0A || c == 0x0D || c == 0x09 then 2
    else if c == 0x2028 || c == 0x2029 then 6
    else if c < 0x20 then 6
    else Utf8Length(c)
  }

  predicate WellFormed(t: Text) {
    Malformed !in t
  }

  function SymbolsSize(t: Text, from: nat): nat
    requires from <= |t|
    decreases |t| - from
  {
    if from == |t| then 0 else (if t[from].Scalar? then EncodedLength(t[from].code) else 0) + SymbolsSize(t, from + 1)
  }

  function TextSize(word: Word): nat {
    2 + SymbolsSize(Spelled(word), 0)
  }

  function ContainerSize(items: nat): nat {
    if items > 1 then 2 + (items - 1) else 2
  }

  predicate Valid(j: Json) {
    match j
    case Str(word) => WellFormed(Spelled(word))
    case Literal(_) => true
    case Arr(items) => forall i :: 0 <= i < |items| ==> Valid(items[i])
    case Obj(members) => forall i :: 0 <= i < |members| ==> ValidMember(members[i])
    case Group(inner) => Valid(inner)
    case Broken => false
  }

  predicate ValidMember(m: Member) {
    match m
    case Member(word, value) => WellFormed(Spelled(word)) && Valid(value)
    case Absent => true
    case BrokenMember => false
  }

  /** How many members print. */
  function Present(members: seq<Member>, from: nat): nat
    requires from <= |members|
    decreases |members| - from
  {
    if from == |members| then 0 else (if members[from].Absent? then 0 else 1) + Present(members, from + 1)
  }

  function Size(j: Json): nat
    decreases j, 1
  {
    match j
    case Str(word) => TextSize(word)
    case Literal(bytes) => |bytes|
    case Arr(items) => ContainerSize(|items|) + ItemsSize(j, 0)
    case Obj(members) => ContainerSize(Present(members, 0)) + MembersSize(j, 0)
    case Group(inner) => Size(inner)
    case Broken => 0
  }

  function ItemsSize(j: Json, from: nat): nat
    requires j.Arr? && from <= |j.items|
    decreases j, 0, |j.items| - from
  {
    if from == |j.items| then 0 else Size(j.items[from]) + ItemsSize(j, from + 1)
  }

  function MemberSize(m: Member): nat
    decreases m, 1
  {
    if m.Member? then TextSize(m.word) + 1 + Size(m.value) else 0
  }

  function MembersSize(j: Json, from: nat): nat
    requires j.Obj? && from <= |j.members|
    decreases j, 0, |j.members| - from
  {
    if from == |j.members| then 0 else MemberSize(j.members[from]) + MembersSize(j, from + 1)
  }

  lemma {:induction false} SymbolsPrintTheirSize(t: Text, from: nat)
    requires from <= |t|
    ensures |PrintSymbols(t, from)| == SymbolsSize(t, from)
    decreases |t| - from
  {
    if from < |t| {
      SymbolsPrintTheirSize(t, from + 1);
    }
  }

  /** The charged size of a tree is the length of its print. */
  lemma {:induction false} PrintHasSize(j: Json)
    requires Valid(j)
    ensures |Print(j)| == Size(j)
    decreases j, 1
  {
    match j {
      case Str(word) => SymbolsPrintTheirSize(Spelled(word), 0);
      case Literal(_) =>
      case Arr(items) => ItemsPrintTheirSize(j, 0);
      case Obj(members) => MembersPrintTheirSize(j, 0, false);
      case Group(inner) => PrintHasSize(inner);
    }
  }

  lemma {:induction false} ItemsPrintTheirSize(j: Json, from: nat)
    requires j.Arr? && Valid(j) && from <= |j.items|
    ensures |PrintItems(j, from)| ==
              ItemsSize(j, from) + if from == 0 && |j.items| > 0 then |j.items| - 1 else |j.items| - from
    decreases j, 0, |j.items| - from
  {
    if from < |j.items| {
      PrintHasSize(j.items[from]);
      ItemsPrintTheirSize(j, from + 1);
    }
  }

  lemma {:induction false} MembersPrintTheirSize(j: Json, from: nat, comma: bool)
    requires j.Obj? && Valid(j) && from <= |j.members|
    ensures var n := Present(j.members, from);
            |PrintMembers(j, from, comma)| == MembersSize(j, from) + if comma || n == 0 then n else n - 1
    decreases j, 0, |j.members| - from
  {
    if from < |j.members| {
      var m := j.members[from];
      assert ValidMember(m);
      MembersPrintTheirSize(j, from + 1, comma || !m.Absent?);
      if m.Member? {
        PrintHasSize(m.value);
        SymbolsPrintTheirSize(Spelled(m.word), 0);
      }
    }
  }

  // ----- Any canonical member order -----------------------------------------------------------

  predicate Before(less: (Text, Text) -> bool, m: Member, n: Member) {
    m.Member? && n.Member? && less(Spelled(m.word), Spelled(n.word))
  }

  function Inserted(less: (Text, Text) -> bool, m: Member, members: seq<Member>): seq<Member> {
    if members == [] || Before(less, m, members[0]) then [m] + members
    else [members[0]] + Inserted(less, m, members[1..])
  }

  /** The tree with the members of every inner put in the order of `less`. */
  function Arranged(less: (Text, Text) -> bool, j: Json): Json
    decreases j, 1
  {
    match j
    case Arr(items) => Arr(seq(|items|, i requires 0 <= i < |items| => Arranged(less, items[i])))
    case Obj(members) => Obj(ArrangedMembers(less, j, 0))
    case Group(inner) => Group(Arranged(less, inner))
    case _ => j
  }

  function ArrangedMembers(less: (Text, Text) -> bool, j: Json, from: nat): seq<Member>
    requires j.Obj? && from <= |j.members|
    decreases j, 0, |j.members| - from
  {
    if from == |j.members| then []
    else
      var m := j.members[from];
      var moved := if m.Member? then Member(m.word, Arranged(less, m.value)) else m;
      Inserted(less, moved, ArrangedMembers(less, j, from + 1))
  }

  lemma MembersSizeShifts(j: Json, k: Json, from: nat, at: nat)
    requires j.Obj? && k.Obj? && from <= |j.members| && at <= |k.members| && j.members[from..] == k.members[at..]
    ensures MembersSize(j, from) == MembersSize(k, at) && Present(j.members, from) == Present(k.members, at)
    decreases |j.members| - from
  {
    if from < |j.members| {
      assert j.members[from..][0] == j.members[from] && k.members[at..][0] == k.members[at];
      assert j.members[from..][1..] == j.members[from + 1..] && k.members[at..][1..] == k.members[at + 1..];
      MembersSizeShifts(j, k, from + 1, at + 1);
    }
  }

  lemma {:induction false} InsertedKeepsSize(less: (Text, Text) -> bool, m: Member, members: seq<Member>)
    ensures var n := Inserted(less, m, members);
            && MembersSize(Obj(n), 0) == MemberSize(m) + MembersSize(Obj(members), 0)
            && Present(n, 0) == (if m.Absent? then 0 else 1) + Present(members, 0)
            && ((forall i :: 0 <= i < |n| ==> ValidMember(n[i])) <==>
                ValidMember(m) && forall i :: 0 <= i < |members| ==> ValidMember(members[i]))
    decreases |members|
  {
    var n := Inserted(less, m, members);
    assert n[0..] == n;
    MembersSizeShifts(Obj(n), Obj(n[1..]), 1, 0);
    if members == [] || Before(less, m, members[0]) {
      assert n[1..] == members && n == [m] + members;
    } else {
      InsertedKeepsSize(less, m, members[1..]);
      MembersSizeShifts(Obj(members), Obj(members[1..]), 1, 0);
      assert n[1..] == Inserted(less, m, members[1..]) && members == [members[0]] + members[1..];
      assert n == [members[0]] + n[1..];
    }
  }

  /** Whatever the member order, the size is the same, so every canonical print has one length. */
  lemma {:induction false} ArrangedKeepsSize(less: (Text, Text) -> bool, j: Json)
    ensures Size(Arranged(less, j)) == Size(j) && (Valid(Arranged(less, j)) <==> Valid(j))
    decreases j, 1
  {
    match j {
      case Arr(items) => ArrangedItemsKeepSize(less, j, 0);
      case Obj(members) => ArrangedMembersKeepSize(less, j, 0);
      case Group(inner) => ArrangedKeepsSize(less, inner);
      case _ =>
    }
  }

  lemma {:induction false} ArrangedItemsKeepSize(less: (Text, Text) -> bool, j: Json, from: nat)
    requires j.Arr? && from <= |j.items|
    ensures ItemsSize(Arranged(less, j), from) == ItemsSize(j, from)
    ensures forall i :: from <= i < |j.items| ==> (Valid(Arranged(less, j).items[i]) <==> Valid(j.items[i]))
    decreases j, 0, |j.items| - from
  {
    if from < |j.items| {
      ArrangedKeepsSize(less, j.items[from]);
      ArrangedItemsKeepSize(less, j, from + 1);
    }
  }

  lemma {:induction false} ArrangedMembersKeepSize(less: (Text, Text) -> bool, j: Json, from: nat)
    requires j.Obj? && from <= |j.members|
    ensures var n := ArrangedMembers(less, j, from);
            && MembersSize(Obj(n), 0) == MembersSize(j, from) && Present(n, 0) == Present(j.members, from)
            && ((forall i :: 0 <= i < |n| ==> ValidMember(n[i])) <==>
                forall i :: from <= i < |j.members| ==> ValidMember(j.members[i]))
    decreases j, 0, |j.members| - from
  {
    if from < |j.members| {
      var m := j.members[from];
      if m.Member? {
        ArrangedKeepsSize(less, m.value);
      }
      var moved := if m.Member? then Member(m.word, Arranged(less, m.value)) else m;
      ArrangedMembersKeepSize(less, j, from + 1);
      InsertedKeepsSize(less, moved, ArrangedMembers(less, j, from + 1));
      assert ValidMember(moved) <==> ValidMember(m);
    }
  }

  // ----- What a measurement charges -----------------------------------------------------------

  datatype Token = Quoted(word: Word) | Amount(amount: nat) | Refused | Bulk(inner: Json)
  datatype Tape = End | Then(token: Token, next: Tape)

  /** Charges `j`, then whatever `k` charges. A group is measured apart and charged at once. */
  function TapeOf(j: Json, k: Tape): Tape
    decreases j, 1
  {
    match j
    case Str(word) => Then(Quoted(word), k)
    case Literal(bytes) => Then(Amount(|bytes|), k)
    case Arr(items) => Then(Amount(ContainerSize(|items|)), ItemsTape(j, 0, k))
    case Obj(members) => Then(Amount(ContainerSize(Present(members, 0))), MembersTape(j, 0, k))
    case Group(inner) => Then(Bulk(inner), k)
    case Broken => Then(Refused, k)
  }

  function ItemsTape(j: Json, from: nat, k: Tape): Tape
    requires j.Arr? && from <= |j.items|
    decreases j, 0, |j.items| - from
  {
    if from == |j.items| then k else TapeOf(j.items[from], ItemsTape(j, from + 1, k))
  }

  function MembersTape(j: Json, from: nat, k: Tape): Tape
    requires j.Obj? && from <= |j.members|
    decreases j, 0, |j.members| - from
  {
    if from == |j.members| then k
    else match j.members[from]
         case Absent => MembersTape(j, from + 1, k)
         case BrokenMember => Then(Refused, MembersTape(j, from + 1, k))
         case Member(word, value) =>
           Then(Quoted(word), Then(Amount(1), TapeOf(value, MembersTape(j, from + 1, k))))
  }

  function Weight(token: Token): Option<nat> {
    match token
    case Quoted(word) => if WellFormed(Spelled(word)) then Some(TextSize(word)) else None
    case Amount(amount) => Some(amount)
    case Refused => None
    case Bulk(inner) => if Valid(inner) then Some(Size(inner)) else None
  }

  function Plus(a: Option<nat>, b: Option<nat>): Option<nat> {
    if a.Some? && b.Some? then Some(a.value + b.value) else None
  }

  function Weigh(tape: Tape): Option<nat> {
    match tape
    case End => Some(0)
    case Then(token, next) => Plus(Weight(token), Weigh(next))
  }

  function Counts(j: Json): Option<nat> {
    if Valid(j) then Some(Size(j)) else None
  }

  /** The tape of a tree weighs its size, and cannot be weighed exactly when the tree is invalid. */
  lemma {:induction false} TapeWeighsSize(j: Json, k: Tape)
    ensures Weigh(TapeOf(j, k)) == Plus(Counts(j), Weigh(k))
    decreases j, 1
  {
    match j {
      case Arr(items) => ItemsTapeWeighs(j, 0, k);
      case Obj(members) => MembersTapeWeighs(j, 0, k);
      case _ =>
    }
  }

  lemma {:induction false} ItemsTapeWeighs(j: Json, from: nat, k: Tape)
    requires j.Arr? && from <= |j.items|
    ensures var valid := forall i :: from <= i < |j.items| ==> Valid(j.items[i]);
            Weigh(ItemsTape(j, from, k)) == Plus(if valid then Some(ItemsSize(j, from)) else None, Weigh(k))
    decreases j, 0, |j.items| - from
  {
    if from < |j.items| {
      ItemsTapeWeighs(j, from + 1, k);
      TapeWeighsSize(j.items[from], ItemsTape(j, from + 1, k));
    }
  }

  lemma {:induction false} MembersTapeWeighs(j: Json, from: nat, k: Tape)
    requires j.Obj? && from <= |j.members|
    ensures var valid := forall i :: from <= i < |j.members| ==> ValidMember(j.members[i]);
            Weigh(MembersTape(j, from, k)) == Plus(if valid then Some(MembersSize(j, from)) else None, Weigh(k))
    decreases j, 0, |j.members| - from
  {
    if from < |j.members| {
      MembersTapeWeighs(j, from + 1, k);
      var m := j.members[from];
      if m.Member? {
        TapeWeighsSize(m.value, MembersTape(j, from + 1, k));
      }
    }
  }

  datatype Fault = Aborted | OverLimit(observed: nat) | Unmeasurable

  datatype Tally = Counting(size: nat) | Failed(fault: Fault)

  function Advance(t: Tally, limit: nat, token: Token): Tally {
    match t
    case Failed(_) => t
    case Counting(size) =>
      var w := Weight(token);
      if w.None? || size + w.value > MAX_INT64 then Failed(Unmeasurable)
      else if limit > 0 && size + w.value > limit then Failed(OverLimit(size + w.value))
      else Counting(size + w.value)
  }

  function Run(t: Tally, limit: nat, tape: Tape): Tally
    decreases tape
  {
    match tape
    case End => t
    case Then(token, next) => Run(Advance(t, limit, token), limit, next)
  }

  predicate Fits(limit: nat, size: nat) {
    size <= MAX_INT64 && (limit == 0 || size <= limit)
  }

  lemma {:induction false} FailureIsFinal(fault: Fault, limit: nat, tape: Tape)
    ensures Run(Failed(fault), limit, tape) == Failed(fault)
    decreases tape
  {
    if tape.Then? {
      FailureIsFinal(fault, limit, tape.next);
    }
  }

  /** Running a tape succeeds exactly when it weighs something that fits. */
  lemma {:induction false} RunCountsIffFits(size: nat, limit: nat, tape: Tape)
    requires Fits(limit, size)
    ensures var w := Weigh(tape);
            var t := Run(Counting(size), limit, tape);
            && (t.Counting? <==> w.Some? && Fits(limit, size + w.value))
            && (t.Counting? ==> t.size == size + w.value)
            && (t.Failed? ==> t.fault.Unmeasurable? || (t.fault.OverLimit? && limit > 0 && t.fault.observed > limit))
            && (t.Failed? && w.Some? && t.fault.OverLimit? ==> t.fault.observed <= size + w.value)
            && (t.Failed? && w.Some? && t.fault.Unmeasurable? ==> size + w.value > MAX_INT64)
    decreases tape
  {
    if tape.Then? {
      var next := Advance(Counting(size), limit, tape.token);
      if next.Counting? {
        RunCountsIffFits(next.size, limit, tape.next);
      } else {
        FailureIsFinal(next.fault, limit, tape.next);
      }
    }
  }

  // ----- The counter --------------------------------------------------------------------------

  datatype Outcome = Done | Stop(fault: Fault) {
    predicate IsFailure() { Stop? }
    function PropagateFailure(): Outcome { this }
  }

  /**
   * `plan` is everything the caller is going to charge and `todo` what is left of it; both exist
   * only to say that the counter's verdict is the one `Run` gives on the whole plan.
   */
  class Counter {
    const limit: nat
    var size: nat
    ghost const plan: Tape
    ghost var todo: Tape

    ghost function Verdict(): Tally {
      Run(Counting(0), limit, plan)
    }

    ghost predicate At(rest: Tape)
      reads this
    {
      todo == rest && Fits(limit, size) && Run(Counting(size), limit, todo) == Verdict()
    }

    /** A charge went through and left `rest` to do, or it failed for the reason the verdict gives. */
    ghost predicate Reported(outcome: Outcome, rest: Tape)
      reads this
    {
      match outcome
      case Done => At(rest)
      case Stop(Aborted) => true
      case Stop(fault) => Verdict() == Failed(fault)
    }

    constructor (limit: nat, ghost plan: Tape)
      ensures this.limit == limit && this.plan == plan && At(plan) && size == 0
    {
      this.limit, this.plan, this.size, this.todo := limit, plan, 0, plan;
    }

    method Add(amount: nat, ghost token: Token, ghost rest: Tape) returns (outcome: Outcome)
      requires At(Then(token, rest)) && Weight(token) == Some(amount)
      modifies this
      ensures Reported(outcome, rest)
    {
      var cancelled: bool := *;
      if cancelled {
        return Stop(Aborted);
      }
      if amount > MAX_INT64 - size {
        FailureIsFinal(Unmeasurable, limit, rest);
        return Stop(Unmeasurable);
      }
      var observed := size + amount;
      if limit > 0 && observed > limit {
        FailureIsFinal(OverLimit(observed), limit, rest);
        return Stop(OverLimit(observed));
      }
      size, todo := observed, rest;
      return Done;
    }

    method Refuse(ghost rest: Tape) returns (outcome: Outcome)
      requires At(Then(Refused, rest))
      ensures Reported(outcome, rest) && outcome.Stop?
    {
      FailureIsFinal(Unmeasurable, limit, rest);
      return Stop(Unmeasurable);
    }

    method Encode(value: Text) returns (outcome: Outcome, amount: nat)
      ensures outcome.Done? ==> WellFormed(value) && amount == 2 + SymbolsSize(value, 0)
      ensures outcome == Stop(Unmeasurable) ==> !WellFormed(value) || 2 + SymbolsSize(value, 0) > MAX_INT64
      ensures outcome.Done? || outcome == Stop(Unmeasurable) || outcome == Stop(Aborted)
    {
      var offset := 0;
      amount := 2;
      while offset < |value|
        invariant 0 <= offset <= |value| && amount + SymbolsSize(value, offset) == 2 + SymbolsSize(value, 0)
        invariant Malformed !in value[..offset] && amount <= MAX_INT64
      {
        var cancelled: bool := *;
        if cancelled {
          return Stop(Aborted), amount;
        }
        if value[offset].Malformed? {
          return Stop(Unmeasurable), amount;
        }
        var encoded := EncodedLength(value[offset].code);
        if encoded > MAX_INT64 - amount {
          return Stop(Unmeasurable), amount;
        }
        amount := amount + encoded;
        assert value[..offset + 1] == value[..offset] + [value[offset]];
        offset := offset + 1;
      }
      return Done, amount;
    }

    method String(word: Word, ghost rest: Tape) returns (outcome: Outcome)
      requires At(Then(Quoted(word), rest))
      modifies this
      ensures Reported(outcome, rest)
    {
      hide Spelling, Ascii;
      var amount;
      outcome, amount := Encode(Spelled(word));
      if outcome.Stop? {
        FailureIsFinal(Unmeasurable, limit, rest);
        return;
      }
      outcome := Add(amount, Quoted(word), rest);
    }
  }
}
