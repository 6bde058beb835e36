/**
 * What a collected list is in terms of the view tree alone: the items standing at the ends of the
 * chains of nested collections, each once, whatever order siblings come in.
 */
module ExportTree {
  import opened Options
  import opened TextOrder
  import opened ExportCollection

  /** One hop goes from an object to an item of one of its collections. */
  datatype Hop = Hop(collection: Collection, index: nat)
  type Chain = seq<Hop>

  predicate HasItem(owner: Value, hop: Hop) {
    && owner.Object? && hop.collection.field in owner.fields && owner.fields[hop.collection.field].List?
    && hop.index < |owner.fields[hop.collection.field].items|
    && owner.fields[hop.collection.field].items[hop.index].Object?
  }

  function ItemOf(owner: Value, hop: Hop): Value
    requires HasItem(owner, hop)
  {
    owner.fields[hop.collection.field].items[hop.index]
  }

  predicate Leads(owner: Value, cs: seq<Collection>, chain: Chain)
    decreases |chain|
  {
    && chain != [] && chain[0].collection in cs && HasItem(owner, chain[0])
    && (|chain| > 1 ==> Leads(ItemOf(owner, chain[0]), Nested(chain[0].collection.nesting), chain[1..]))
  }

  function Landing(owner: Value, cs: seq<Collection>, chain: Chain): Value
    requires Leads(owner, cs, chain)
    decreases |chain|
  {
    var item := ItemOf(owner, chain[0]);
    if |chain| == 1 then item else Landing(item, Nested(chain[0].collection.nesting), chain[1..])
  }

  /** The source declared nearest the end of the chain, its own end included. */
  function Nearest(owner: Value, cs: seq<Collection>, chain: Chain): Option<Value>
    requires Leads(owner, cs, chain)
    decreases |chain|
  {
    var item := ItemOf(owner, chain[0]);
    var deeper := if |chain| == 1 then None else Nearest(item, Nested(chain[0].collection.nesting), chain[1..]);
    if deeper.Some? then deeper else if "source" in item.fields then Some(item.fields["source"]) else None
  }

  /** `x` is the item at the end of the chain. */
  predicate StandsAt(decode: Value -> Option<SourceRefs>, owner: Value, cs: seq<Collection>, outer: SourceRefs,
                     chain: Chain, x: ExportItem)
    requires Leads(owner, cs, chain)
  {
    && KeyOf(Landing(owner, cs, chain)) == Some(x.key)
    && x.role == chain[|chain| - 1].collection.role
    && match Nearest(owner, cs, chain)
       case None => x.source == outer
       case Some(declared) => decode(declared) == Some(x.source)
  }

  // ----- Every chain is collected, and every collected item has its chain ---------------------

  lemma {:induction false} FieldIsWithin(decode: Value -> Option<SourceRefs>, owner: Value, cs: seq<Collection>,
                                         outer: SourceRefs, c: Collection)
    requires owner.Object? && Flatten(decode, owner, cs, outer).Some? && c in cs
    ensures FlattenField(decode, owner, c, outer).Some?
    ensures forall x :: x in FlattenField(decode, owner, c, outer).value ==>
              x in Flatten(decode, owner, cs, outer).value
    decreases |cs|
  {
    if c != cs[0] {
      FieldIsWithin(decode, owner, cs[1..], outer, c);
    }
  }

  lemma {:induction false} ItemIsWithin(decode: Value -> Option<SourceRefs>, list: Value, from: nat, c: Collection,
                                        outer: SourceRefs, i: nat)
    requires list.List? && from <= i < |list.items| && FlattenList(decode, list, from, c, outer).Some?
    ensures FlattenItem(decode, list.items[i], c, outer).Some?
    ensures forall x :: x in FlattenItem(decode, list.items[i], c, outer).value ==>
              x in FlattenList(decode, list, from, c, outer).value
    decreases i - from
  {
    if from < i {
      ItemIsWithin(decode, list, from + 1, c, outer, i);
    }
  }

  /** The part of the gathered list that belongs to the first hop. */
  lemma HopIsWithin(decode: Value -> Option<SourceRefs>, owner: Value, cs: seq<Collection>, outer: SourceRefs, hop: Hop)
    requires owner.Object? && Flatten(decode, owner, cs, outer).Some? && hop.collection in cs && HasItem(owner, hop)
    ensures var part := FlattenItem(decode, ItemOf(owner, hop), hop.collection, outer);
            part.Some? && forall x :: x in part.value ==> x in Flatten(decode, owner, cs, outer).value
  {
    FieldIsWithin(decode, owner, cs, outer, hop.collection);
    ItemIsWithin(decode, owner.fields[hop.collection.field], 0, hop.collection, outer, hop.index);
  }

  lemma {:induction false} ChainIsCollected(decode: Value -> Option<SourceRefs>, owner: Value, cs: seq<Collection>,
                                            outer: SourceRefs, chain: Chain) returns (x: ExportItem)
    requires Leads(owner, cs, chain) && Flatten(decode, owner, cs, outer).Some?
    ensures StandsAt(decode, owner, cs, outer, chain, x) && x in Flatten(decode, owner, cs, outer).value
    decreases |chain|
  {
    var hop := chain[0];
    var item := ItemOf(owner, hop);
    HopIsWithin(decode, owner, cs, outer, hop);
    var source := SourceOf(decode, item, outer).value;
    var self := ExportItem(KeyOf(item).value, hop.collection.role, source);
    var part := FlattenItem(decode, item, hop.collection, outer).value;
    if |chain| == 1 {
      x := self;
      assert part[0] == self;
    } else {
      x := ChainIsCollected(decode, item, Nested(hop.collection.nesting), source, chain[1..]);
      assert x in [self] + Flatten(decode, item, Nested(hop.collection.nesting), source).value;
    }
  }

  lemma {:induction false} ListItemOf(decode: Value -> Option<SourceRefs>, list: Value, from: nat, c: Collection,
                                      outer: SourceRefs, x: ExportItem) returns (i: nat)
    requires list.List? && from <= |list.items| && FlattenList(decode, list, from, c, outer).Some?
    requires x in FlattenList(decode, list, from, c, outer).value
    ensures from <= i < |list.items| && FlattenItem(decode, list.items[i], c, outer).Some?
    ensures x in FlattenItem(decode, list.items[i], c, outer).value
    decreases |list.items| - from
  {
    if x in FlattenItem(decode, list.items[from], c, outer).value {
      i := from;
    } else {
      i := ListItemOf(decode, list, from + 1, c, outer, x);
    }
  }

  lemma {:induction false} CollectedHasChain(decode: Value -> Option<SourceRefs>, owner: Value, cs: seq<Collection>,
                                             outer: SourceRefs, x: ExportItem) returns (chain: Chain)
    requires owner.Object? && Flatten(decode, owner, cs, outer).Some? && x in Flatten(decode, owner, cs, outer).value
    ensures Leads(owner, cs, chain) && StandsAt(decode, owner, cs, outer, chain, x)
    decreases owner, |cs|
  {
    var c := cs[0];
    if x in FlattenField(decode, owner, c, outer).value {
      var list := owner.fields[c.field];
      var i := ListItemOf(decode, list, 0, c, outer, x);
      var item := list.items[i];
      var source := SourceOf(decode, item, outer).value;
      var self := ExportItem(KeyOf(item).value, c.role, source);
      if x == self {
        chain := [Hop(c, i)];
      } else {
        var rest := CollectedHasChain(decode, item, Nested(c.nesting), source, x);
        chain := [Hop(c, i)] + rest;
        assert chain[1..] == rest;
      }
    } else {
      chain := CollectedHasChain(decode, owner, cs[1..], outer, x);
    }
  }

  /** The gathered items are exactly those at the ends of the chains. */
  lemma GatheredAreTheChainItems(decode: Value -> Option<SourceRefs>, owner: Value, cs: seq<Collection>,
                                 outer: SourceRefs)
    requires owner.Object? && Flatten(decode, owner, cs, outer).Some?
    ensures forall x :: x in Flatten(decode, owner, cs, outer).value <==>
              exists chain :: Leads(owner, cs, chain) && StandsAt(decode, owner, cs, outer, chain, x)
    ensures forall chain :: Leads(owner, cs, chain) ==>
              exists x :: x in Flatten(decode, owner, cs, outer).value && StandsAt(decode, owner, cs, outer, chain, x)
  {
    var found := Flatten(decode, owner, cs, outer).value;
    forall x | x in found
      ensures exists chain :: Leads(owner, cs, chain) && StandsAt(decode, owner, cs, outer, chain, x) {
      var chain := CollectedHasChain(decode, owner, cs, outer, x);
    }
    forall chain | Leads(owner, cs, chain)
      ensures exists x :: x in found && StandsAt(decode, owner, cs, outer, chain, x)
    {
      var x := ChainIsCollected(decode, owner, cs, outer, chain);
    }
    forall x, chain | Leads(owner, cs, chain) && StandsAt(decode, owner, cs, outer, chain, x) ensures x in found {
      var y := ChainIsCollected(decode, owner, cs, outer, chain);
      assert y == x;
    }
  }

  // ----- Two chains never end at one key ------------------------------------------------------

  ghost predicate NoRepeat(cs: seq<Collection>) {
    forall i, j :: 0 <= i < j < |cs| ==> cs[i] != cs[j]
  }

  ghost predicate Apart(a: seq<ExportItem>, b: seq<ExportItem>) {
    forall x, y :: x in a && y in b ==> x.key != y.key
  }

  lemma {:induction false} FieldsAreApart(decode: Value -> Option<SourceRefs>, owner: Value, cs: seq<Collection>,
                                          outer: SourceRefs, c: Collection, d: Collection)
    requires owner.Object? && Flatten(decode, owner, cs, outer).Some? &&
             Distinct(Flatten(decode, owner, cs, outer).value)
    requires c in cs && d in cs && c != d
    ensures FlattenField(decode, owner, c, outer).Some? && FlattenField(decode, owner, d, outer).Some?
    ensures Apart(FlattenField(decode, owner, c, outer).value, FlattenField(decode, owner, d, outer).value)
    decreases |cs|
  {
    FieldIsWithin(decode, owner, cs, outer, c);
    FieldIsWithin(decode, owner, cs, outer, d);
    var head, tail := FlattenField(decode, owner, cs[0], outer).value, Flatten(decode, owner, cs[1..], outer).value;
    DistinctPrefix(head, tail);
    if c == cs[0] {
      FieldIsWithin(decode, owner, cs[1..], outer, d);
    } else if d == cs[0] {
      FieldIsWithin(decode, owner, cs[1..], outer, c);
    } else {
      FieldsAreApart(decode, owner, cs[1..], outer, c, d);
    }
  }

  lemma {:induction false} ItemsAreApart(decode: Value -> Option<SourceRefs>, list: Value, from: nat, c: Collection,
                                         outer: SourceRefs, i: nat, j: nat)
    requires list.List? && from <= i < j < |list.items| && FlattenList(decode, list, from, c, outer).Some?
    requires Distinct(FlattenList(decode, list, from, c, outer).value)
    ensures FlattenItem(decode, list.items[i], c, outer).Some? && FlattenItem(decode, list.items[j], c, outer).Some?
    ensures Apart(FlattenItem(decode, list.items[i], c, outer).value,
                  FlattenItem(decode, list.items[j], c, outer).value)
    decreases i - from
  {
    var head, tail := FlattenItem(decode, list.items[from], c, outer).value,
      FlattenList(decode, list, from + 1, c, outer).value;
    DistinctPrefix(head, tail);
    ItemIsWithin(decode, list, from + 1, c, outer, j);
    if from < i {
      ItemsAreApart(decode, list, from + 1, c, outer, i, j);
    }
  }

  lemma {:induction false} FieldIsDistinct(decode: Value -> Option<SourceRefs>, owner: Value, cs: seq<Collection>,
                                           outer: SourceRefs, c: Collection)
    requires owner.Object? && Flatten(decode, owner, cs, outer).Some? &&
             Distinct(Flatten(decode, owner, cs, outer).value) && c in cs
    ensures FlattenField(decode, owner, c, outer).Some? && Distinct(FlattenField(decode, owner, c, outer).value)
    decreases |cs|
  {
    var head, tail := FlattenField(decode, owner, cs[0], outer).value, Flatten(decode, owner, cs[1..], outer).value;
    DistinctPrefix(head, tail);
    if c != cs[0] {
      FieldIsDistinct(decode, owner, cs[1..], outer, c);
    }
  }

  lemma {:induction false} ItemIsDistinct(decode: Value -> Option<SourceRefs>, list: Value, from: nat, c: Collection,
                                          outer: SourceRefs, i: nat)
    requires list.List? && from <= i < |list.items| && FlattenList(decode, list, from, c, outer).Some?
    requires Distinct(FlattenList(decode, list, from, c, outer).value)
    ensures FlattenItem(decode, list.items[i], c, outer).Some? &&
            Distinct(FlattenItem(decode, list.items[i], c, outer).value)
    decreases i - from
  {
    var head, tail := FlattenItem(decode, list.items[from], c, outer).value,
      FlattenList(decode, list, from + 1, c, outer).value;
    DistinctPrefix(head, tail);
    if from < i {
      ItemIsDistinct(decode, list, from + 1, c, outer, i);
    }
  }

  /** Different hops lead into parts of the list that share no key. */
  lemma HopsAreApart(decode: Value -> Option<SourceRefs>, owner: Value, cs: seq<Collection>, outer: SourceRefs, h: Hop,
                     k: Hop)
    requires owner.Object? && Flatten(decode, owner, cs, outer).Some? &&
             Distinct(Flatten(decode, owner, cs, outer).value)
    requires h.collection in cs && k.collection in cs && HasItem(owner, h) && HasItem(owner, k) && h != k
    ensures var a := FlattenItem(decode, ItemOf(owner, h), h.collection, outer);
            var b := FlattenItem(decode, ItemOf(owner, k), k.collection, outer);
            a.Some? && b.Some? && Apart(a.value, b.value)
  {
    HopIsWithin(decode, owner, cs, outer, h);
    HopIsWithin(decode, owner, cs, outer, k);
    if h.collection == k.collection {
      var list := owner.fields[h.collection.field];
      FieldIsDistinct(decode, owner, cs, outer, h.collection);
      if h.index < k.index {
        ItemsAreApart(decode, list, 0, h.collection, outer, h.index, k.index);
      } else {
        ItemsAreApart(decode, list, 0, h.collection, outer, k.index, h.index);
      }
    } else {
      FieldsAreApart(decode, owner, cs, outer, h.collection, k.collection);
      ItemIsWithin(decode, owner.fields[h.collection.field], 0, h.collection, outer, h.index);
      ItemIsWithin(decode, owner.fields[k.collection.field], 0, k.collection, outer, k.index);
    }
  }

  /**
   * The item at the end of a chain lies in the part of its first hop, and not at its head unless the chain ends
   * there.
   */
  lemma ChainLiesInHop(decode: Value -> Option<SourceRefs>, owner: Value, cs: seq<Collection>, outer: SourceRefs,
                       chain: Chain)
    returns (x: ExportItem)
    requires Leads(owner, cs, chain) && Flatten(decode, owner, cs, outer).Some?
    ensures StandsAt(decode, owner, cs, outer, chain, x)
    ensures var part := FlattenItem(decode, ItemOf(owner, chain[0]), chain[0].collection, outer);
            part.Some? && part.value != [] && x in part.value
            && (if |chain| == 1 then x == part.value[0] else x in part.value[1..])
  {
    var hop := chain[0];
    var item := ItemOf(owner, hop);
    HopIsWithin(decode, owner, cs, outer, hop);
    var source := SourceOf(decode, item, outer).value;
    var self := ExportItem(KeyOf(item).value, hop.collection.role, source);
    var inner := Flatten(decode, item, Nested(hop.collection.nesting), source).value;
    assert ([self] + inner)[1..] == inner;
    if |chain| == 1 {
      x := self;
    } else {
      x := ChainIsCollected(decode, item, Nested(hop.collection.nesting), source, chain[1..]);
    }
  }

  lemma {:induction false} ChainsEndAtDifferentKeys(decode: Value -> Option<SourceRefs>, owner: Value,
                                                    cs: seq<Collection>, outer: SourceRefs, a: Chain, b: Chain)
    requires Leads(owner, cs, a) && Leads(owner, cs, b) && a != b
    requires Flatten(decode, owner, cs, outer).Some? && Distinct(Flatten(decode, owner, cs, outer).value)
    ensures KeyOf(Landing(owner, cs, a)) != KeyOf(Landing(owner, cs, b))
    decreases |a|
  {
    var x := ChainLiesInHop(decode, owner, cs, outer, a);
    var y := ChainLiesInHop(decode, owner, cs, outer, b);
    if a[0] != b[0] {
      HopsAreApart(decode, owner, cs, outer, a[0], b[0]);
    } else {
      var hop := a[0];
      var item := ItemOf(owner, hop);
      FieldIsDistinct(decode, owner, cs, outer, hop.collection);
      ItemIsDistinct(decode, owner.fields[hop.collection.field], 0, hop.collection, outer, hop.index);
      var part := FlattenItem(decode, item, hop.collection, outer).value;
      assert part == [part[0]] + part[1..];
      DistinctPrefix([part[0]], part[1..]);
      if |a| > 1 && |b| > 1 {
        assert a == [hop] + a[1..] && b == [hop] + b[1..];
        ChainsEndAtDifferentKeys(decode, item, Nested(hop.collection.nesting), SourceOf(decode, item, outer).value,
                                 a[1..], b[1..]);
      } else {
        assert |a| == 1 ==> a == [hop];
        assert |b| == 1 ==> b == [hop];
        assert part[0] in [part[0]];
      }
    }
  }

  // ----- And different chains with different keys make a distinct list ------------------------

  ghost predicate KeysDiffer(owner: Value, cs: seq<Collection>) {
    forall a, b :: Leads(owner, cs, a) && Leads(owner, cs, b) && a != b ==>
      KeyOf(Landing(owner, cs, a)) != KeyOf(Landing(owner, cs, b))
  }

  lemma DistinctConcat(a: seq<ExportItem>, b: seq<ExportItem>)
    requires Distinct(a) && Distinct(b) && Apart(a, b)
    ensures Distinct(a + b)
  {
    forall i, j | 0 <= i < j < |a + b| ensures (a + b)[i].key != (a + b)[j].key {
      if i < |a| <= j {
        assert a[i] in a && b[j - |a|] in b;
      }
    }
  }

  lemma ItemHasChain(decode: Value -> Option<SourceRefs>, owner: Value, cs: seq<Collection>, outer: SourceRefs,
                     hop: Hop, x: ExportItem) returns (chain: Chain)
    requires hop.collection in cs && HasItem(owner, hop)
    requires FlattenItem(decode, ItemOf(owner, hop), hop.collection, outer).Some?
    requires x in FlattenItem(decode, ItemOf(owner, hop), hop.collection, outer).value
    ensures Leads(owner, cs, chain) && chain[0] == hop && KeyOf(Landing(owner, cs, chain)) == Some(x.key)
    ensures x in FlattenItem(decode, ItemOf(owner, hop), hop.collection, outer).value[1..] ==> |chain| > 1
  {
    var item := ItemOf(owner, hop);
    var source := SourceOf(decode, item, outer).value;
    var self := ExportItem(KeyOf(item).value, hop.collection.role, source);
    var inner := Flatten(decode, item, Nested(hop.collection.nesting), source).value;
    assert ([self] + inner)[1..] == inner;
    if x in inner {
      var rest := CollectedHasChain(decode, item, Nested(hop.collection.nesting), source, x);
      chain := [hop] + rest;
      assert chain[1..] == rest;
    } else {
      chain := [hop];
    }
  }

  lemma InnerKeysDiffer(owner: Value, cs: seq<Collection>, hop: Hop)
    requires KeysDiffer(owner, cs) && hop.collection in cs && HasItem(owner, hop)
    ensures KeysDiffer(ItemOf(owner, hop), Nested(hop.collection.nesting))
  {
    var item, inner := ItemOf(owner, hop), Nested(hop.collection.nesting);
    forall a, b | Leads(item, inner, a) && Leads(item, inner, b) && a != b
      ensures KeyOf(Landing(item, inner, a)) != KeyOf(Landing(item, inner, b))
    {
      assert ([hop] + a)[1..] == a && ([hop] + b)[1..] == b;
      assert Leads(owner, cs, [hop] + a) && Leads(owner, cs, [hop] + b);
    }
  }

  lemma {:induction false} KeysDifferMakesItemDistinct(decode: Value -> Option<SourceRefs>, owner: Value,
                                                       cs: seq<Collection>, outer: SourceRefs, hop: Hop)
    requires KeysDiffer(owner, cs) && hop.collection in cs && HasItem(owner, hop)
    requires FlattenItem(decode, ItemOf(owner, hop), hop.collection, outer).Some?
    ensures Distinct(FlattenItem(decode, ItemOf(owner, hop), hop.collection, outer).value)
    decreases owner, 0, 0
  {
    var item, inner := ItemOf(owner, hop), Nested(hop.collection.nesting);
    var source := SourceOf(decode, item, outer).value;
    var part := FlattenItem(decode, item, hop.collection, outer).value;
    var rest := Flatten(decode, item, inner, source).value;
    assert part == [part[0]] + rest && part[1..] == rest;
    InnerKeysDiffer(owner, cs, hop);
    NestedHasNoRepeat(hop.collection.nesting);
    KeysDifferMakesDistinct(decode, item, inner, source);
    forall x, y | x in [part[0]] && y in rest ensures x.key != y.key {
      var chain := ItemHasChain(decode, owner, cs, outer, hop, y);
      assert Leads(owner, cs, [hop]) && Leads(owner, cs, chain);
      assert KeyOf(Landing(owner, cs, [hop])) == Some(part[0].key);
    }
    DistinctConcat([part[0]], rest);
  }

  lemma {:induction false} KeysDifferMakesListDistinct(decode: Value -> Option<SourceRefs>, owner: Value,
                                                       cs: seq<Collection>, outer: SourceRefs, c: Collection, from: nat)
    requires KeysDiffer(owner, cs) && c in cs && owner.Object? && c.field in owner.fields && owner.fields[c.field].List?
    requires from <= |owner.fields[c.field].items| && FlattenList(decode, owner.fields[c.field], from, c, outer).Some?
    ensures Distinct(FlattenList(decode, owner.fields[c.field], from, c, outer).value)
    decreases owner, 1, |owner.fields[c.field].items| - from
  {
    var list := owner.fields[c.field];
    if from < |list.items| {
      var hop := Hop(c, from);
      var head, tail := FlattenItem(decode, list.items[from], c, outer).value,
        FlattenList(decode, list, from + 1, c, outer).value;
      KeysDifferMakesItemDistinct(decode, owner, cs, outer, hop);
      KeysDifferMakesListDistinct(decode, owner, cs, outer, c, from + 1);
      forall x, y | x in head && y in tail ensures x.key != y.key {
        var i := ListItemOf(decode, list, from + 1, c, outer, y);
        var a := ItemHasChain(decode, owner, cs, outer, hop, x);
        var b := ItemHasChain(decode, owner, cs, outer, Hop(c, i), y);
      }
      DistinctConcat(head, tail);
    }
  }

  lemma NestedHasNoRepeat(nesting: Nesting)
    ensures NoRepeat(Nested(nesting))
  {
  }

  lemma TailKeysDiffer(owner: Value, cs: seq<Collection>)
    requires cs != [] && KeysDiffer(owner, cs)
    ensures KeysDiffer(owner, cs[1..])
  {
    forall chain | Leads(owner, cs[1..], chain)
      ensures Leads(owner, cs, chain) && Landing(owner, cs, chain) == Landing(owner, cs[1..], chain)
    {
    }
  }

  lemma {:induction false} KeysDifferMakesDistinct(decode: Value -> Option<SourceRefs>, owner: Value,
                                                   cs: seq<Collection>, outer: SourceRefs)
    requires owner.Object? && KeysDiffer(owner, cs) && NoRepeat(cs) && Flatten(decode, owner, cs, outer).Some?
    ensures Distinct(Flatten(decode, owner, cs, outer).value)
    decreases owner, 2, |cs|
  {
    if cs != [] {
      var head, tail := FlattenField(decode, owner, cs[0], outer).value, Flatten(decode, owner, cs[1..], outer).value;
      KeysDifferMakesListDistinct(decode, owner, cs, outer, cs[0], 0);
      TailKeysDiffer(owner, cs);
      KeysDifferMakesDistinct(decode, owner, cs[1..], outer);
      forall x, y | x in head && y in tail ensures x.key != y.key {
        var i := ListItemOf(decode, owner.fields[cs[0].field], 0, cs[0], outer, x);
        var a := ItemHasChain(decode, owner, cs, outer, Hop(cs[0], i), x);
        var b := CollectedHasChain(decode, owner, cs[1..], outer, y);
        assert Leads(owner, cs, b) && Landing(owner, cs, b) == Landing(owner, cs[1..], b);
        assert b[0].collection in cs[1..];
      }
      DistinctConcat(head, tail);
    }
  }

  lemma ShapeHasNoRepeat(shape: Shape)
    ensures NoRepeat(Collections(shape))
  {
  }

  /** Collection succeeds exactly when the walk does and no two chains end at one key, at any depth. */
  lemma CollectedIffKeysDiffer(decode: Value -> Option<SourceRefs>, root: Value)
    ensures Collected(decode, root).Some? <==>
              && ViewOf(decode, root).Some?
              && var view := ViewOf(decode, root).value;
                 ViewItems(decode, view).Some? && KeysDiffer(view.payload, Collections(view.shape))
  {
    hide ShapeOf, Collections;
    if ViewOf(decode, root).Some? && ViewItems(decode, ViewOf(decode, root).value).Some? {
      var view := ViewOf(decode, root).value;
      var cs := Collections(view.shape);
      if Collected(decode, root).Some? {
        forall a, b | Leads(view.payload, cs, a) && Leads(view.payload, cs, b) && a != b
          ensures KeyOf(Landing(view.payload, cs, a)) != KeyOf(Landing(view.payload, cs, b))
        {
          ChainsEndAtDifferentKeys(decode, view.payload, cs, view.source, a, b);
        }
      } else if KeysDiffer(view.payload, cs) {
        ShapeHasNoRepeat(view.shape);
        KeysDifferMakesDistinct(decode, view.payload, cs, view.source);
      }
    }
  }

  /** A collected list is sorted by key, and holds each chain's item once, under its nearest source. */
  lemma CollectedAreTheChainItems(decode: Value -> Option<SourceRefs>, root: Value)
    requires Collected(decode, root).Some?
    ensures var items, view := Collected(decode, root).value, ViewOf(decode, root).value;
            var cs := Collections(view.shape);
            && StrictlyByKey(items)
            && (forall x :: x in items <==>
                  exists chain :: Leads(view.payload, cs, chain) &&
                    StandsAt(decode, view.payload, cs, view.source, chain, x))
            && (forall chain :: Leads(view.payload, cs, chain) ==>
                  exists x :: x in items && StandsAt(decode, view.payload, cs, view.source, chain, x))
  {
    hide ShapeOf, Collections;
    var items, view := Collected(decode, root).value, ViewOf(decode, root).value;
    CollectedIsSorted(decode, root);
    SameElements(items, ViewItems(decode, view).value);
    GatheredAreTheChainItems(decode, view.payload, Collections(view.shape), view.source);
  }

  // ----- The order of siblings ----------------------------------------------------------------

  ghost predicate Permutes(perm: seq<nat>, n: nat) {
    multiset(perm) == multiset(seq(n, i => i)) && |perm| == n && forall i :: i in perm ==> i < n
  }

  /** The collections of `w` are those of `v` with siblings in any order, at every depth. */
  ghost predicate SameCollections(v: Value, w: Value, cs: seq<Collection>)
    decreases v, 1
  {
    && v.Object? && w.Object?
    && forall c :: c in cs ==>
         && (c.field in v.fields <==> c.field in w.fields)
         && (c.field in v.fields ==> SameList(v.fields[c.field], w.fields[c.field], c.nesting))
  }

  ghost predicate SameList(a: Value, b: Value, nesting: Nesting)
    decreases a, 1
  {
    && (a.List? <==> b.List?)
    && (a.List? ==>
          exists perm: seq<nat> :: Permutes(perm, |a.items|) && |b.items| == |a.items| && Matches(a, b, perm, nesting))
  }

  ghost predicate Matches(a: Value, b: Value, perm: seq<nat>, nesting: Nesting)
    requires a.List? && b.List? && Permutes(perm, |a.items|) && |b.items| == |a.items|
    decreases a, 0
  {
    forall i :: 0 <= i < |b.items| ==> perm[i] in perm && SameItem(a.items[perm[i]], b.items[i], nesting)
  }

  function FieldOf(v: Value, name: string): Option<Value> {
    if v.Object? && name in v.fields then Some(v.fields[name]) else None
  }

  ghost predicate SameItem(v: Value, w: Value, nesting: Nesting)
    decreases v, 2
  {
    && (v.Object? <==> w.Object?)
    && FieldOf(v, "key") == FieldOf(w, "key") && FieldOf(v, "source") == FieldOf(w, "source")
    && (v.Object? ==> SameCollections(v, w, Nested(nesting)))
  }

  function Bag(a: Option<seq<ExportItem>>): multiset<ExportItem> {
    if a.Some? then multiset(a.value) else multiset{}
  }

  ghost predicate SameBag(a: Option<seq<ExportItem>>, b: Option<seq<ExportItem>>) {
    (a.Some? <==> b.Some?) && Bag(a) == Bag(b)
  }

  function Added(head: Option<seq<ExportItem>>, tail: Option<multiset<ExportItem>>): Option<multiset<ExportItem>> {
    if head.Some? && tail.Some? then Some(multiset(head.value) + tail.value) else None
  }

  lemma AddedCommutes(a: Option<seq<ExportItem>>, b: Option<seq<ExportItem>>, t: Option<multiset<ExportItem>>)
    ensures Added(a, Added(b, t)) == Added(b, Added(a, t))
  {
    if a.Some? && b.Some? && t.Some? {
      assert multiset(a.value) + (multiset(b.value) + t.value) == multiset(b.value) + (multiset(a.value) + t.value);
    }
  }

  /** The items of a list taken in the order of `perm`. */
  ghost function Taken(decode: Value -> Option<SourceRefs>, list: Value, perm: seq<nat>, c: Collection,
                       outer: SourceRefs)
    : Option<multiset<ExportItem>>
    requires list.List? && forall i :: i in perm ==> i < |list.items|
    decreases |perm|
  {
    if perm == [] then Some(multiset{})
    else
      assert perm[0] in perm && forall i :: i in perm[1..] ==> i in perm;
      Added(FlattenItem(decode, list.items[perm[0]], c, outer), Taken(decode, list, perm[1..], c, outer))
  }

  lemma TakenCons(decode: Value -> Option<SourceRefs>, list: Value, i: nat, rest: seq<nat>, c: Collection,
                  outer: SourceRefs)
    requires list.List? && i < |list.items| && forall k :: k in rest ==> k < |list.items|
    ensures forall k :: k in [i] + rest ==> k < |list.items|
    ensures Taken(decode, list, [i] + rest, c, outer) == Added(FlattenItem(decode, list.items[i], c, outer),
                                                               Taken(decode, list, rest, c, outer))
  {
    hide FlattenItem;
    assert ([i] + rest)[1..] == rest;
  }

  lemma {:induction false} TakenWithout(decode: Value -> Option<SourceRefs>, list: Value, perm: seq<nat>, at: nat,
                                        c: Collection, outer: SourceRefs)
    requires list.List? && (forall i :: i in perm ==> i < |list.items|) && at < |perm|
    ensures var rest := perm[..at] + perm[at + 1..];
            && (forall i :: i in rest ==> i < |list.items|) && perm[at] in perm
            && Taken(decode, list, perm, c, outer) ==
                 Added(FlattenItem(decode, list.items[perm[at]], c, outer), Taken(decode, list, rest, c, outer))
    decreases |perm|
  {
    hide FlattenItem, Added;
    var rest := perm[..at] + perm[at + 1..];
    assert perm[at] in perm && perm[0] in perm;
    assert forall i :: i in rest ==> i in perm;
    assert forall i :: i in perm[1..] ==> i in perm;
    assert perm == [perm[0]] + perm[1..];
    if at == 0 {
      assert rest == perm[1..];
    } else {
      TakenWithout(decode, list, perm[1..], at - 1, c, outer);
      var inner := perm[1..][..at - 1] + perm[1..][at..];
      assert rest == [perm[0]] + inner;
      TakenCons(decode, list, perm[0], inner, c, outer);
      AddedCommutes(FlattenItem(decode, list.items[perm[0]], c, outer),
                    FlattenItem(decode, list.items[perm[at]], c, outer), Taken(decode, list, inner, c, outer));
    }
  }

  lemma {:induction false} TakenIgnoresOrder(decode: Value -> Option<SourceRefs>, list: Value, a: seq<nat>, b: seq<nat>,
                                             c: Collection, outer: SourceRefs)
    requires list.List? && (forall i :: i in a ==> i < |list.items|) && multiset(a) == multiset(b)
    ensures forall i :: i in b ==> i < |list.items|
    ensures Taken(decode, list, a, c, outer) == Taken(decode, list, b, c, outer)
    decreases |a|
  {
    hide FlattenItem, Added, Taken;
    SameElements(a, b);
    assert |multiset(a)| == |a| && |multiset(b)| == |b|;
    if a == [] {
      assert b == [];
    } else {
      assert a[0] in b;
      var at :| 0 <= at < |b| && b[at] == a[0];
      var rest := b[..at] + b[at + 1..];
      WithoutOne(a, 0);
      WithoutOne(b, at);
      assert a[..0] + a[1..] == a[1..] && a == [a[0]] + a[1..];
      assert forall i :: i in a[1..] ==> i in a;
      TakenIgnoresOrder(decode, list, a[1..], rest, c, outer);
      TakenCons(decode, list, a[0], a[1..], c, outer);
      TakenWithout(decode, list, b, at, c, outer);
    }
  }

  function Upto(from: nat, n: nat): seq<nat>
    requires from <= n
  {
    seq(n - from, i => from + i)
  }

  lemma {:induction false} ListIsTaken(decode: Value -> Option<SourceRefs>, list: Value, from: nat, c: Collection,
                                       outer: SourceRefs)
    requires list.List? && from <= |list.items|
    ensures forall i :: i in Upto(from, |list.items|) ==> i < |list.items|
    ensures var found := FlattenList(decode, list, from, c, outer);
            var taken := Taken(decode, list, Upto(from, |list.items|), c, outer);
            (found.Some? <==> taken.Some?) && (found.Some? ==> multiset(found.value) == taken.value)
    decreases |list.items| - from
  {
    if from < |list.items| {
      var order := Upto(from, |list.items|);
      assert order[1..] == Upto(from + 1, |list.items|);
      ListIsTaken(decode, list, from + 1, c, outer);
    }
  }

  lemma {:induction false} MatchedTaken(decode: Value -> Option<SourceRefs>, a: Value, b: Value, perm: seq<nat>,
                                        c: Collection, outer: SourceRefs, from: nat)
    requires a.List? && b.List? && Permutes(perm, |a.items|) && |b.items| == |a.items| && from <= |perm|
    requires forall i | from <= i < |perm| ::
               perm[i] in perm && SameBag(FlattenItem(decode, a.items[perm[i]], c, outer),
                                          FlattenItem(decode, b.items[i], c, outer))
    ensures forall i :: i in perm[from..] ==> i in perm
    ensures forall i :: i in Upto(from, |b.items|) ==> i < |b.items|
    ensures Taken(decode, a, perm[from..], c, outer) == Taken(decode, b, Upto(from, |b.items|), c, outer)
    decreases |perm| - from
  {
    if from < |perm| {
      var order := Upto(from, |b.items|);
      assert order[1..] == Upto(from + 1, |b.items|) && perm[from..][1..] == perm[from + 1..];
      MatchedTaken(decode, a, b, perm, c, outer, from + 1);
    }
  }

  lemma {:induction false} SameItemSameBag(decode: Value -> Option<SourceRefs>, v: Value, w: Value, c: Collection,
                                           outer: SourceRefs)
    requires SameItem(v, w, c.nesting)
    ensures SameBag(FlattenItem(decode, v, c, outer), FlattenItem(decode, w, c, outer))
    decreases v, 2, 0
  {
    assert KeyOf(v) == KeyOf(w) by {
      assert FieldOf(v, "key") == FieldOf(w, "key");
    }
    if KeyOf(v).Some? {
      assert FieldOf(v, "source") == FieldOf(w, "source");
      assert SourceOf(decode, v, outer) == SourceOf(decode, w, outer);
      if SourceOf(decode, v, outer).Some? {
        SameCollectionsSameBag(decode, v, w, Nested(c.nesting), SourceOf(decode, v, outer).value);
      }
    }
  }

  lemma {:induction false} SameListSameBag(decode: Value -> Option<SourceRefs>, a: Value, b: Value, c: Collection,
                                           outer: SourceRefs)
    requires SameList(a, b, c.nesting) && a.List?
    ensures SameBag(FlattenList(decode, a, 0, c, outer), FlattenList(decode, b, 0, c, outer))
    decreases a, 1, 0
  {
    hide FlattenItem, FlattenList, SameBag;
    var perm: seq<nat> :| Permutes(perm, |a.items|) && |b.items| == |a.items| && Matches(a, b, perm, c.nesting);
    forall i | 0 <= i < |perm|
      ensures perm[i] in perm
      ensures SameBag(FlattenItem(decode, a.items[perm[i]], c, outer), FlattenItem(decode, b.items[i], c, outer))
    {
      assert perm[i] in perm;
      SameItemSameBag(decode, a.items[perm[i]], b.items[i], c, outer);
    }
    PermutedListSameBag(decode, a, b, perm, c, outer);
  }

  lemma PermutedListSameBag(decode: Value -> Option<SourceRefs>, a: Value, b: Value, perm: seq<nat>, c: Collection,
                            outer: SourceRefs)
    requires a.List? && b.List? && Permutes(perm, |a.items|) && |b.items| == |a.items|
    requires forall i | 0 <= i < |perm| ::
               perm[i] in perm && SameBag(FlattenItem(decode, a.items[perm[i]], c, outer),
                                          FlattenItem(decode, b.items[i], c, outer))
    ensures SameBag(FlattenList(decode, a, 0, c, outer), FlattenList(decode, b, 0, c, outer))
  {
    hide FlattenItem, FlattenList, Taken;
    MatchedTaken(decode, a, b, perm, c, outer, 0);
    assert perm[0..] == perm && Upto(0, |a.items|) == seq(|a.items|, i => i);
    TakenIgnoresOrder(decode, a, perm, Upto(0, |a.items|), c, outer);
    ListIsTaken(decode, a, 0, c, outer);
    ListIsTaken(decode, b, 0, c, outer);
  }

  lemma {:induction false} SameCollectionsSameBag(decode: Value -> Option<SourceRefs>, v: Value, w: Value,
                                                  cs: seq<Collection>, outer: SourceRefs)
    requires SameCollections(v, w, cs)
    ensures SameBag(Flatten(decode, v, cs, outer), Flatten(decode, w, cs, outer))
    decreases v, 1, |cs|
  {
    if cs != [] {
      var c := cs[0];
      assert c in cs;
      assert SameCollections(v, w, cs[1..]);
      SameCollectionsSameBag(decode, v, w, cs[1..], outer);
      if c.field in v.fields && v.fields[c.field].List? {
        SameListSameBag(decode, v.fields[c.field], w.fields[c.field], c, outer);
      }
    }
  }

  lemma StrictByKeyHeadsAgree(a: seq<ExportItem>, b: seq<ExportItem>)
    requires StrictlyByKey(a) && StrictlyByKey(b) && a != [] && b != [] && a[0] in b && b[0] in a
    ensures a[0] == b[0]
  {
    hide Less;
    var i :| 0 <= i < |b| && b[i] == a[0];
    var j :| 0 <= j < |a| && a[j] == b[0];
    if i > 0 && j > 0 {
      LessIsAsymmetric(b[0].key, a[0].key);
    }
  }

  lemma StrictByKeyTail(a: seq<ExportItem>, x: ExportItem)
    requires StrictlyByKey(a) && a != []
    ensures x in a[1..] <==> x in a && x != a[0]
  {
    LessIsIrreflexive(a[0].key);
    assert a == [a[0]] + a[1..];
  }

  lemma {:induction false} StrictByKeyIsUnique(a: seq<ExportItem>, b: seq<ExportItem>)
    requires StrictlyByKey(a) && StrictlyByKey(b) && forall x :: x in a <==> x in b
    ensures a == b
    decreases |a|
  {
    if a == [] {
      assert forall i :: 0 <= i < |b| ==> b[i] in b;
    } else {
      assert a[0] in a && a[0] in b && b[0] in b;
      StrictByKeyHeadsAgree(a, b);
      forall x ensures x in a[1..] <==> x in b[1..] {
        StrictByKeyTail(a, x);
        StrictByKeyTail(b, x);
      }
      StrictByKeyIsUnique(a[1..], b[1..]);
      assert a == [a[0]] + a[1..] && b == [b[0]] + b[1..];
    }
  }

  /** Views that differ only in the order of siblings, at any depth, collect to the same list. */
  lemma SiblingOrderIsImmaterial(decode: Value -> Option<SourceRefs>, v: Value, w: Value)
    requires ViewOf(decode, v).Some? && ViewOf(decode, w).Some?
    requires var a, b := ViewOf(decode, v).value, ViewOf(decode, w).value;
             a.shape == b.shape && a.source == b.source && SameCollections(a.payload, b.payload, Collections(a.shape))
    ensures Collected(decode, v) == Collected(decode, w)
  {
    hide ShapeOf, Collections;
    var a, b := ViewOf(decode, v).value, ViewOf(decode, w).value;
    SameCollectionsSameBag(decode, a.payload, b.payload, Collections(a.shape), a.source);
    var f, g := ViewItems(decode, a), ViewItems(decode, b);
    if f.Some? && (Distinct(f.value) || Distinct(g.value)) {
      if Distinct(f.value) {
        PermutedItemsStayDistinct(f.value, g.value);
      } else {
        PermutedItemsStayDistinct(g.value, f.value);
      }
      CollectedIsSorted(decode, v);
      CollectedIsSorted(decode, w);
      SameElements(Collected(decode, v).value, Collected(decode, w).value);
      StrictByKeyIsUnique(Collected(decode, v).value, Collected(decode, w).value);
    }
  }

  // ----- The roles a shape can hold -----------------------------------------------------------

  /** Nesting never leads to a role outside `roles`. */
  ghost predicate StaysWithin(cs: seq<Collection>, roles: set<Role>) {
    forall c :: c in cs ==>
      c.role in roles && forall d :: d in Nested(c.nesting) ==>
        d.role in roles && (d.nesting == Flat || d.nesting == c.nesting)
  }

  lemma {:induction false} ChainStaysWithin(owner: Value, cs: seq<Collection>, chain: Chain, roles: set<Role>)
    requires Leads(owner, cs, chain) && StaysWithin(cs, roles)
    ensures chain[|chain| - 1].collection.role in roles
    decreases |chain|
  {
    if |chain| > 1 {
      ChainStaysWithin(ItemOf(owner, chain[0]), Nested(chain[0].collection.nesting), chain[1..], roles);
    }
  }
}
