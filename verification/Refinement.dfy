/**
 From the generated decoders to shapes: what a decoder over a cursor must satisfy to be the decoder of a shape,
 and the lemmas that carry this through fields, nested lists, repeats, and optional groups.
 */
module Refinement {
  import opened Secs2
  import opened Decimal
  import opened Decoding
  import opened Shapes
  import opened Building
  import opened RoundTrip

  /** A cursor a decoder can be handed: NewCursor and every hop refuse a nil item. */
  predicate Sane(c: Cursor) {
    c.Cursor? ==> !c.item.Nil?
  }

  /** The shape's decoder at a cursor, which reports a lost position as unreachable. */
  function DecodeAt(s: Shape, c: Cursor, place: string, lenient: bool): Outcome<Value> {
    if c.Lost? then Refuse(place, Unreachable) else Decode(s, c.item, place, lenient)
  }

  function DecodeRowAt(row: Row, c: Cursor, prefix: string, place: string, lenient: bool): Outcome<Value> {
    if c.Lost? then Refuse(place, Unreachable) else DecodeRow(row, c.item, prefix, place, lenient)
  }

  /** `decode` is the decoder of `s`: the same error, or the value that `pack` lays out as the shape's. */
  ghost predicate Implements<T>(decode: Decoder<T>, s: Shape, lenient: bool, pack: T -> Value) {
    forall c: Cursor, field: string :: Sane(c) ==> DecodeAt(s, c, field, lenient) == decode(c, field).Map(pack)
  }

  // ----- rows -----

  /** A list whose children a decoder goes on to read. */
  predicate Open(c: Cursor) {
    c.Cursor? && c.item.List? && Errors(c.item) == []
  }

  /** The decoder of the slots left from position `k` on. */
  function Rest(slots: Slots, c: Cursor, k: nat, n: nat, prefix: string, place: string, lenient: bool): Outcome<Values>
    requires Open(c) && n <= |c.item.items|
  {
    DecodeSlots(slots, c.item.items, k, n, prefix, place, lenient)
  }

  function Glue(first: Outcome<Value>, rest: Outcome<Values>): Outcome<Values> {
    if first.Err? then Err(first.error)
    else if rest.Err? then Err(rest.error)
    else Ok(And(first.value, rest.value))
  }

  function Whole(full: bool, fields: Outcome<Values>): Outcome<Value> {
    match fields
    case Ok(vs) => Ok(RowV(full, vs))
    case Err(e) => Err(e)
  }

  /** A fixed list opens as requireArity checks it. */
  lemma OpenFixed(row: Row, c: Cursor, prefix: string, place: string, lenient: bool)
    requires row.short == Len(row.slots) && Sane(c)
    ensures var arity := RequireArity(c, place, Len(row.slots), lenient);
            if arity.Err? then DecodeRowAt(row, c, prefix, place, lenient) == Err(arity.error)
            else Open(c) && Len(row.slots) <= |c.item.items| &&
                 DecodeRowAt(row, c, prefix, place, lenient) ==
                   Whole(true, Rest(row.slots, c, 0, Len(row.slots), prefix, place, lenient))
  {
  }

  /** A short-or-full list opens as optionalArity checks it. */
  lemma OpenBounded(row: Row, c: Cursor, prefix: string, place: string, lenient: bool)
    requires row.short < Len(row.slots) && Sane(c)
    ensures var arity := OptionalArity(c, place, row.short, Len(row.slots), lenient);
            if arity.Err? then DecodeRowAt(row, c, prefix, place, lenient) == Err(arity.error)
            else Open(c) && arity.value <= |c.item.items| &&
                 (arity.value == row.short || arity.value == Len(row.slots)) &&
                 DecodeRowAt(row, c, prefix, place, lenient) ==
                   Whole(arity.value == Len(row.slots), Rest(row.slots, c, 0, arity.value, prefix, place, lenient))
  {
  }

  /** One position of an open list: its hop is in range, and its decoder comes before those of the slots after it. */
  lemma Step(slots: Slots, c: Cursor, k: nat, n: nat, prefix: string, place: string, lenient: bool) returns (rest: Slots)
    requires Open(c) && k < n <= |c.item.items| && !slots.End?
    ensures rest == slots.rest
    ensures c.At([k]).Cursor? && Sane(c.At([k]))
    ensures slots.Field? && prefix == "" ==> prefix + slots.name == slots.name
    ensures slots.Field? ==>
              Rest(slots, c, k, n, prefix, place, lenient) ==
                Glue(DecodeAt(slots.shape, c.At([k]), prefix + slots.name, lenient),
                     Rest(rest, c, k + 1, n, prefix, place, lenient))
    ensures slots.Nested? ==>
              Rest(slots, c, k, n, prefix, place, lenient) ==
                Glue(DecodeRowAt(slots.row, c.At([k]), prefix, place + Index(k), lenient),
                     Rest(rest, c, k + 1, n, prefix, place, lenient))
  {
    rest := slots.rest;
    HopReaches(c, k);
  }

  /** A position that holds a leaf. */
  lemma StepLeaf(slots: Slots, c: Cursor, k: nat, n: nat, prefix: string, place: string, lenient: bool) returns (rest: Slots)
    requires Open(c) && k < n <= |c.item.items| && slots.Field? && slots.shape.Leaf?
    ensures rest == slots.rest
    ensures prefix == "" ==> prefix + slots.name == slots.name
    ensures Rest(slots, c, k, n, prefix, place, lenient) ==
              Glue(DecodeLeaf(slots.shape.kind, c.At([k]), prefix + slots.name),
                   Rest(rest, c, k + 1, n, prefix, place, lenient))
  {
    rest := Step(slots, c, k, n, prefix, place, lenient);
  }

  /** No slot is left, or the list ends here: what is left is zero. */
  lemma Finish(slots: Slots, c: Cursor, k: nat, n: nat, prefix: string, place: string, lenient: bool)
    requires Open(c) && n <= |c.item.items| && (slots.End? || k >= n)
    ensures Rest(slots, c, k, n, prefix, place, lenient) == Ok(Zeros(slots))
    ensures slots.End? ==> Zeros(slots) == Nothing
  {
  }

  /** A body decoder starts at the cursor of the body. */
  lemma BodyAt(title: string, row: Row, item: Item, lenient: bool)
    ensures Sane(NewCursor(item))
    ensures DecodeBody(title, row, item, lenient) == DecodeRowAt(row, NewCursor(item), "", title + " body", lenient)
  {
  }

  /** What a body decoder returns: the decoder's error, or no error and a struct that lays out the decoded value. */
  predicate Reports(err: Option<Error>, decoded: Value, spec: Outcome<Value>) {
    match err
    case None => spec == Ok(decoded)
    case Some(e) => spec == Err(e)
  }

  lemma ReportsExactly(err: Option<Error>, decoded: Value, spec: Outcome<Value>)
    ensures Reports(err, decoded, spec) <==>
            (err == None && spec == Ok(decoded)) || (err != None && spec == Err(err.value))
  {
  }

  // ----- combinators -----

  function PackAll<T>(pack: T -> Value, vs: seq<T>): seq<Value> {
    seq(|vs|, i requires 0 <= i < |vs| => pack(vs[i]))
  }

  function PackMany<T>(pack: T -> Value): seq<T> -> Value {
    (vs: seq<T>) => ManyV(PackAll(pack, vs))
  }

  function PackOption<T>(pack: T -> Value): Option<T> -> Value {
    (v: Option<T>) => match v case None => NoneV case Some(x) => SomeV(pack(x))
  }

  /** decodeEach of an element decoder is the decoder of the repeat; every hop it makes is in range. */
  lemma EachImplements<T>(elem: Shape, decode: Decoder<T>, lenient: bool, pack: T -> Value)
    requires Implements(decode, elem, lenient, pack)
    ensures Implements(EachOf(decode), Repeat(elem), lenient, PackMany(pack))
  {
    forall c: Cursor, field: string | Sane(c)
      ensures DecodeAt(Repeat(elem), c, field, lenient) == EachOf(decode)(c, field).Map(PackMany(pack))
    {
      if Open(c) {
        EachFromImplements(elem, decode, lenient, pack, c, field, 0);
      }
    }
  }

  lemma {:induction false} EachFromImplements<T>(elem: Shape, decode: Decoder<T>, lenient: bool, pack: T -> Value,
                                                 c: Cursor, field: string, i: nat)
    requires Implements(decode, elem, lenient, pack) && Open(c) && i <= |c.item.items|
    ensures DecodeElements(elem, c.item.items, i, field, lenient) ==
              EachFrom(c, field, |c.item.items|, i, decode).Map(vs => PackAll(pack, vs))
    decreases |c.item.items| - i
  {
    var n := |c.item.items|;
    if i < n {
      HopReaches(c, i);
      var place := field + Index(i);
      assert DecodeAt(elem, c.At([i]), place, lenient) == decode(c.At([i]), place).Map(pack);
      EachFromImplements(elem, decode, lenient, pack, c, field, i + 1);
      var first, rest := decode(c.At([i]), place), EachFrom(c, field, n, i + 1, decode);
      if first.Ok? && rest.Ok? {
        assert PackAll(pack, [first.value] + rest.value) == [pack(first.value)] + PackAll(pack, rest.value);
      }
    } else {
      assert PackAll(pack, []) == [];
    }
  }

  /** `decode` is the decoder of a group's row, naming its fields after the place it is given. */
  ghost predicate DecodesGroup<T>(decode: (Cursor, string, bool) -> Outcome<T>, row: Row, lenient: bool, pack: T -> Value) {
    forall c: Cursor, field: string :: Sane(c) ==>
      DecodeRowAt(row, c, field + ".", field, lenient) == decode(c, field, lenient).Map(pack)
  }

  /** A repeat of a group, through withConfig. */
  lemma GroupsImplement<T>(name: string, row: Row, decode: (Cursor, string, bool) -> Outcome<T>, lenient: bool, pack: T -> Value)
    requires DecodesGroup(decode, row, lenient, pack)
    ensures Implements(EachOf(WithConfig(lenient, decode)), Repeat(Group(name, row)), lenient, PackMany(pack))
  {
    forall c: Cursor, field: string | Sane(c)
      ensures DecodeAt(Group(name, row), c, field, lenient) == WithConfig(lenient, decode)(c, field).Map(pack)
    {
      assert DecodeAt(Group(name, row), c, field, lenient) == DecodeRowAt(row, c, field + ".", field, lenient);
    }
    EachImplements(Group(name, row), WithConfig(lenient, decode), lenient, pack);
  }

  /** decodeOptionalGroup of a group's decoder is the decoder of the optional group. */
  lemma OptionalGroupImplements<T>(name: string, row: Row, decode: (Cursor, string, bool) -> Outcome<T>, lenient: bool,
                                   pack: T -> Value)
    requires DecodesGroup(decode, row, lenient, pack)
    ensures Implements(OptionalGroupOf(lenient, Len(row.slots), decode), OptionalGroup(name, row), lenient, PackOption(pack))
  {
    forall c: Cursor, field: string | Sane(c)
      ensures DecodeAt(OptionalGroup(name, row), c, field, lenient) ==
                OptionalGroupOf(lenient, Len(row.slots), decode)(c, field).Map(PackOption(pack))
    {
      if Open(c) {
        assert DecodeRowAt(row, c, field + ".", field, lenient) == decode(c, field, lenient).Map(pack);
      }
    }
  }

  /** The packers of the leaf kinds. */
  function PackItem(item: Item): Value { ItemV(item) }
  function PackText(text: string): Value { TextV(text) }

  lemma ScalarsImplement(c: Cursor, field: string, lenient: bool)
    requires Sane(c)
    ensures DecodeAt(Repeat(Leaf(KScalar)), c, field, lenient) == Each(c, field, DecodeScalarItem).Map(PackMany(PackItem))
  {
    assert Implements(DecodeScalarItem, Leaf(KScalar), lenient, PackItem);
    EachImplements(Leaf(KScalar), DecodeScalarItem, lenient, PackItem);
    assert EachOf(DecodeScalarItem)(c, field) == Each(c, field, DecodeScalarItem);
  }

  lemma TextsImplement(c: Cursor, field: string, lenient: bool)
    requires Sane(c)
    ensures DecodeAt(Repeat(Leaf(KText)), c, field, lenient) == Each(c, field, DecodeASCII).Map(PackMany(PackText))
  {
    assert Implements(DecodeASCII, Leaf(KText), lenient, PackText);
    EachImplements(Leaf(KText), DecodeASCII, lenient, PackText);
    assert EachOf(DecodeASCII)(c, field) == Each(c, field, DecodeASCII);
  }

  /** decodeEach of decodeItems: rows of items returned as they arrived. */
  lemma RowsImplement(c: Cursor, field: string, lenient: bool)
    requires Sane(c)
    ensures DecodeAt(Repeat(Items), c, field, lenient) == Each(c, field, DecodeItems).Map(PackMany(PackMany(PackItem)))
  {
    forall c: Cursor, field: string | Sane(c)
      ensures DecodeAt(Items, c, field, lenient) == DecodeItems(c, field).Map(PackMany(PackItem))
    {
      if Open(c) {
        assert ItemValues(c.item.items) == PackAll(PackItem, c.item.items);
      }
    }
    EachImplements(Items, DecodeItems, lenient, PackMany(PackItem));
    assert EachOf(DecodeItems)(c, field) == Each(c, field, DecodeItems);
  }

  function PackByte(b: byte): Value { ByteV(b) }
  function PackBool(flag: bool): Value { BoolV(flag) }
  function PackUint16(n: Uint16): Value { UintV(n) }

  /** decodeOptional of a leaf's decoder is the decoder of the optional leaf. */
  lemma OptionalLeafImplements<T>(kind: Kind, decode: Decoder<T>, pack: T -> Value, c: Cursor, field: string, lenient: bool)
    requires Sane(c) && DecodeLeaf(kind, c, field) == decode(c, field).Map(pack)
    ensures DecodeAt(Optional(kind), c, field, lenient) == DecodeOptional(c, field, kind, decode).Map(PackOption(pack))
  {
  }

  lemma OptionalBoolImplements(c: Cursor, field: string, lenient: bool)
    requires Sane(c)
    ensures DecodeAt(Optional(KBool), c, field, lenient) == DecodeOptional(c, field, KBool, DecodeBool).Map(PackOption(PackBool))
  {
    OptionalLeafImplements(KBool, DecodeBool, PackBool, c, field, lenient);
  }

  lemma OptionalByteImplements(c: Cursor, field: string, lenient: bool)
    requires Sane(c)
    ensures DecodeAt(Optional(KByte), c, field, lenient) == DecodeOptional(c, field, KByte, DecodeByteAs).Map(PackOption(PackByte))
  {
    OptionalLeafImplements(KByte, DecodeByteAs, PackByte, c, field, lenient);
  }

  lemma OptionalUint16Implements(c: Cursor, field: string, lenient: bool)
    requires Sane(c)
    ensures DecodeAt(Optional(KUint(W2)), c, field, lenient) ==
              DecodeOptional(c, field, KUint(W2), DecodeUint16).Map(PackOption(PackUint16))
  {
    OptionalLeafImplements(KUint(W2), DecodeUint16, PackUint16, c, field, lenient);
  }

  /** A decoded open item is not nil. */
  lemma ScalarIsPresent(c: Cursor, field: string)
    requires Sane(c) && DecodeScalarItem(c, field).Ok?
    ensures !DecodeScalarItem(c, field).value.Nil?
  {
  }

  // ----- builders -----

  function BoolItem(flag: bool): Item { BOOLEAN([flag]) }
  function ByteItem(b: byte): Item { B([b]) }
  function Uint16Item(n: Uint16): Item { U(W2, n) }

  /** optionalItem: the item of the value, or the zero-length one for nil. */
  function OptionalItem<T>(v: Option<T>, item: T -> Item, empty: Item): Item {
    match v
    case None => empty
    case Some(x) => item(x)
  }

  lemma OptionalBoolBuilds(v: Option<bool>, place: string)
    ensures Typed(Optional(KBool), PackOption(PackBool)(v))
    ensures Build(Optional(KBool), PackOption(PackBool)(v), place) == OptionalItem(v, BoolItem, BOOLEAN([]))
  {
    assert PackOption(PackBool)(v) == if v.None? then NoneV else SomeV(BoolV(v.value));
  }

  lemma OptionalByteBuilds(v: Option<byte>, place: string)
    ensures Typed(Optional(KByte), PackOption(PackByte)(v))
    ensures Build(Optional(KByte), PackOption(PackByte)(v), place) == OptionalItem(v, ByteItem, B([]))
  {
    assert PackOption(PackByte)(v) == if v.None? then NoneV else SomeV(ByteV(v.value));
  }

  lemma OptionalUint16Builds(v: Option<Uint16>, place: string)
    ensures Typed(Optional(KUint(W2)), PackOption(PackUint16)(v))
    ensures Build(Optional(KUint(W2)), PackOption(PackUint16)(v), place) == OptionalItem(v, Uint16Item, Uints(W2, []))
  {
    assert PackOption(PackUint16)(v) == if v.None? then NoneV else SomeV(UintV(v.value));
  }

  function MapItems<T>(values: seq<T>, item: T -> Item): seq<Item> {
    seq(|values|, i requires 0 <= i < |values| => item(values[i]))
  }

  /** groupItems and valueItems: one item per value, in order. */
  method ItemsOf<T>(values: seq<T>, item: T -> Item) returns (items: array<Item>)
    ensures fresh(items) && items[..] == MapItems(values, item)
  {
    items := new Item[|values|];
    for i := 0 to |values|
      invariant forall j :: 0 <= j < i ==> items[j] == item(values[j])
    {
      items[i] := item(values[i]);
    }
  }

  /** `item` builds the shape's item of the packed value, whatever name the position has. */
  ghost predicate Builds<T(!new)>(item: T -> Item, s: Shape, pack: T -> Value) {
    forall v: T, place: string :: BuildsAt(item, s, pack, v, place)
  }

  predicate BuildsAt<T>(item: T -> Item, s: Shape, pack: T -> Value, v: T, place: string) {
    Typed(s, pack(v)) && Build(s, pack(v), place) == item(v)
  }

  /** A repeat of values built one by one. */
  lemma EachBuilds<T(!new)>(s: Shape, item: T -> Item, pack: T -> Value, values: seq<T>, place: string)
    requires Builds(item, s, pack)
    ensures Typed(Repeat(s), PackMany(pack)(values))
    ensures Build(Repeat(s), PackMany(pack)(values), place) == L(MapItems(values, item))
  {
    var vs := PackAll(pack, values);
    assert forall i :: 0 <= i < |vs| ==> Typed(s, vs[i]) by {
      forall i | 0 <= i < |vs| ensures Typed(s, vs[i]) {
        assert BuildsAt(item, s, pack, values[i], place);
      }
    }
    var built := BuildElements(s, vs, place);
    forall i | 0 <= i < |built| ensures built[i] == item(values[i]) {
      assert BuildsAt(item, s, pack, values[i], place + Index(i));
    }
    assert built == MapItems(values, item);
  }

  /** The items from index `k` on are those the slots left build from the values left. */
  ghost predicate Spelled(slots: Slots, vs: Values, n: nat, owner: string, items: seq<Item>, k: nat) {
    SlotsTyped(slots, vs, n) && k <= |items| && items[k..] == BuildSlots(slots, vs, n, owner)
  }

  lemma SpellEnd(owner: string, items: seq<Item>)
    ensures Spelled(End, Nothing, 0, owner, items, |items|)
  {
  }

  /** A list that ends here leaves the slots after it at zero. */
  lemma SpellZeros(slots: Slots, owner: string, items: seq<Item>)
    ensures Spelled(slots, Zeros(slots), 0, owner, items, |items|)
  {
  }

  lemma SpellLeaf(slots: Slots, vs: Values, n: nat, owner: string, items: seq<Item>, k: nat)
    requires slots.Field? && slots.shape.Leaf? && vs.And? && n > 0 && k < |items|
    requires LeafTyped(slots.shape.kind, vs.value)
    requires items[k] == BuildLeaf(slots.shape.kind, vs.value, owner + slots.name)
    requires Spelled(slots.rest, vs.rest, n - 1, owner, items, k + 1)
    ensures Spelled(slots, vs, n, owner, items, k)
  {
    SpellField(slots, vs, n, owner, items, k);
  }

  lemma SpellField(slots: Slots, vs: Values, n: nat, owner: string, items: seq<Item>, k: nat)
    requires slots.Field? && vs.And? && n > 0 && k < |items|
    requires Typed(slots.shape, vs.value) && items[k] == Build(slots.shape, vs.value, owner + slots.name)
    requires Spelled(slots.rest, vs.rest, n - 1, owner, items, k + 1)
    ensures Spelled(slots, vs, n, owner, items, k)
  {
    assert items[k..] == [items[k]] + items[k + 1..];
  }

  /** A field whose item another builder makes. */
  lemma SpellBuilt<T>(slots: Slots, vs: Values, n: nat, owner: string, items: seq<Item>, k: nat,
                      item: T -> Item, pack: T -> Value, v: T)
    requires slots.Field? && vs.And? && n > 0 && k < |items|
    requires BuildsAt(item, slots.shape, pack, v, owner + slots.name) && vs.value == pack(v) && items[k] == item(v)
    requires Spelled(slots.rest, vs.rest, n - 1, owner, items, k + 1)
    ensures Spelled(slots, vs, n, owner, items, k)
  {
    SpellField(slots, vs, n, owner, items, k);
  }

  lemma SpellNested(slots: Slots, vs: Values, n: nat, owner: string, items: seq<Item>, k: nat)
    requires slots.Nested? && vs.And? && n > 0 && k < |items|
    requires RowTyped(slots.row, vs.value) && items[k] == BuildRow(slots.row, vs.value, owner)
    requires Spelled(slots.rest, vs.rest, n - 1, owner, items, k + 1)
    ensures Spelled(slots, vs, n, owner, items, k)
  {
    assert items[k..] == [items[k]] + items[k + 1..];
  }

  /** A list spelled out in full is the row's. */
  lemma SpellRow(row: Row, v: Value, owner: string, items: seq<Item>)
    requires v.RowV? && (v.full || row.short < Len(row.slots))
    requires Spelled(row.slots, v.fields, Sent(row, v), owner, items, 0)
    ensures RowTyped(row, v) && BuildRow(row, v, owner) == L(items)
  {
    assert items[0..] == items;
  }

  /** A repeat of open items, each nil one named by its index. */
  lemma ScalarsBuild(items: seq<Item>, place: string)
    ensures Typed(Repeat(Leaf(KScalar)), PackMany(PackItem)(items))
    ensures Build(Repeat(Leaf(KScalar)), PackMany(PackItem)(items), place) == L(PresentEach(items, place))
  {
    var vs := PackAll(PackItem, items);
    forall i | 0 <= i < |vs| ensures vs[i] == ItemV(items[i]) && Typed(Leaf(KScalar), vs[i]) {
      assert vs[i] == PackItem(items[i]);
    }
    assert BuildElements(Leaf(KScalar), vs, place) == PresentEach(items, place);
  }

  lemma TextsBuild(texts: seq<string>, place: string)
    ensures Typed(Repeat(Leaf(KText)), PackMany(PackText)(texts))
    ensures Build(Repeat(Leaf(KText)), PackMany(PackText)(texts), place) == L(MapItems(texts, A))
  {
    forall text: string, p: string ensures BuildsAt(A, Leaf(KText), PackText, text, p) {
    }
    EachBuilds(Leaf(KText), A, PackText, texts, place);
  }

  lemma ItemsBuild(items: seq<Item>, place: string)
    ensures Typed(Items, PackMany(PackItem)(items))
    ensures Build(Items, PackMany(PackItem)(items), place) == L(PresentEach(items, place))
  {
    var vs := PackAll(PackItem, items);
    assert forall i :: 0 <= i < |vs| ==> vs[i] == ItemV(items[i]);
    assert RawItems(vs) == items;
  }

  function MapIndexed<T>(values: seq<T>, item: (nat, T) -> Item): seq<Item> {
    seq(|values|, i requires 0 <= i < |values| => item(i, values[i]))
  }

  /** indexedItems: one item per value, in order, made from the value and its index. */
  method IndexedItems<T>(values: seq<T>, item: (nat, T) -> Item) returns (items: array<Item>)
    ensures fresh(items) && items[..] == MapIndexed(values, item)
  {
    items := new Item[|values|];
    for i := 0 to |values|
      invariant forall j :: 0 <= j < i ==> items[j] == item(j, values[j])
    {
      items[i] := item(i, values[i]);
    }
  }

  /** Rows of open items: row `i` names its nil items after `place` and `i`. */
  function RowItems(rows: seq<seq<Item>>, place: string): seq<Item> {
    MapIndexed(rows, (i: nat, row: seq<Item>) => L(PresentEach(row, place + Index(i))))
  }

  lemma RowsBuild(rows: seq<seq<Item>>, place: string)
    ensures Typed(Repeat(Items), PackMany(PackMany(PackItem))(rows))
    ensures Build(Repeat(Items), PackMany(PackMany(PackItem))(rows), place) == L(RowItems(rows, place))
  {
    var vs := PackAll(PackMany(PackItem), rows);
    forall i | 0 <= i < |vs|
      ensures Typed(Items, vs[i]) && Build(Items, vs[i], place + Index(i)) == L(PresentEach(rows[i], place + Index(i)))
    {
      ItemsBuild(rows[i], place + Index(i));
    }
    assert BuildElements(Items, vs, place) == RowItems(rows, place);
  }

  function OptionalGroupItem<T>(item: T -> Item): Option<T> -> Item {
    (v: Option<T>) => match v case None => L([]) case Some(g) => item(g)
  }

  lemma OptionalGroupBuilds<T(!new)>(name: string, row: Row, item: T -> Item, pack: T -> Value)
    requires Builds(item, Group(name, row), pack)
    ensures Builds(OptionalGroupItem(item), OptionalGroup(name, row), PackOption(pack))
  {
    forall v: Option<T>, place: string
      ensures BuildsAt(OptionalGroupItem(item), OptionalGroup(name, row), PackOption(pack), v, place)
    {
      if v.Some? {
        assert BuildsAt(item, Group(name, row), pack, v.value, place);
      }
    }
  }

  // ----- built fields on the wire -----

  function TextItem(text: string): Item { Text(text) }
  function ListItem(items: seq<Item>): Item { List(items) }

  lemma TextOnTheWire(text: string)
    requires Usable(A(text))
    ensures A(text) == Text(text)
  {
  }

  /** A list that is sent is the list of what it was made of. */
  lemma ListOnTheWire(items: seq<Item>)
    requires Errors(L(items)) == [] && forall i :: 0 <= i < |items| ==> !items[i].Nil?
    ensures L(items) == List(items)
    ensures forall i :: 0 <= i < |items| ==> Usable(items[i])
  {
    ListOfPresent(items);
  }

  lemma NestedOnTheWire(items: seq<Item>)
    requires Usable(L(items)) && forall i :: 0 <= i < |items| ==> !items[i].Nil?
    ensures L(items) == List(items)
    ensures forall i :: 0 <= i < |items| ==> Usable(items[i])
  {
    ListOfPresent(items);
  }

  lemma OptionalGroupOnTheWire<T>(v: Option<T>, item: T -> Item)
    requires v.Some? ==> !item(v.value).Nil?
    ensures OptionalGroupItem(item)(v) == if v.None? then List([]) else item(v.value)
    ensures !OptionalGroupItem(item)(v).Nil?
  {
    match v
    case None =>
      var none: seq<Item> := [];
      assert WithoutNil(none) == none;
      assert OptionalGroupItem(item)(v) == L(none);
    case Some(_) =>
  }

  /** A repeat that is sent is the list of its elements' items. */
  lemma RepeatOnTheWire<T>(values: seq<T>, item: T -> Item)
    requires Usable(L(MapItems(values, item))) && forall i :: 0 <= i < |values| ==> !item(values[i]).Nil?
    ensures L(MapItems(values, item)) == List(MapItems(values, item))
    ensures forall i :: 0 <= i < |values| ==> Usable(item(values[i]))
  {
    var items := MapItems(values, item);
    ListOfPresent(items);
    forall i | 0 <= i < |values| ensures Usable(item(values[i])) {
      assert Usable(items[i]);
    }
  }

  lemma TextsOnTheWire(texts: seq<string>)
    requires Usable(L(MapItems(texts, A)))
    ensures L(MapItems(texts, A)) == List(MapItems(texts, TextItem))
  {
    RepeatOnTheWire(texts, A);
    var built, wire := MapItems(texts, A), MapItems(texts, TextItem);
    forall i | 0 <= i < |texts| ensures built[i] == wire[i] {
      assert built[i] == A(texts[i]) && wire[i] == TextItem(texts[i]);
      TextOnTheWire(texts[i]);
    }
    assert built == wire;
  }

  lemma ItemsOnTheWire(items: seq<Item>, place: string)
    requires Usable(L(PresentEach(items, place)))
    ensures L(PresentEach(items, place)) == List(items)
  {
    var built := PresentEach(items, place);
    ListOfPresent(built);
    forall i | 0 <= i < |items| ensures built[i] == items[i] {
      assert Usable(built[i]);
      PresentUsable(items[i], place + Index(i));
    }
    assert built == items;
  }

  lemma RowsOnTheWire(rows: seq<seq<Item>>, place: string)
    requires Usable(L(RowItems(rows, place)))
    ensures L(RowItems(rows, place)) == List(MapItems(rows, ListItem))
  {
    var built := RowItems(rows, place);
    ListOfPresent(built);
    var wire := MapItems(rows, ListItem);
    forall i | 0 <= i < |rows| ensures built[i] == wire[i] {
      assert Usable(built[i]) && built[i] == L(PresentEach(rows[i], place + Index(i))) && wire[i] == ListItem(rows[i]);
      ItemsOnTheWire(rows[i], place + Index(i));
    }
    assert built == wire;
  }

  // ----- layouts lose nothing -----

  ghost predicate Injective<T(!new)>(pack: T -> Value) {
    forall x: T, y: T :: pack(x) == pack(y) ==> x == y
  }

  lemma ManyIsInjective<T(!new)>(pack: T -> Value)
    requires Injective(pack)
    ensures Injective(PackMany(pack))
  {
    forall a: seq<T>, b: seq<T> | PackMany(pack)(a) == PackMany(pack)(b) ensures a == b {
      var u, v := PackAll(pack, a), PackAll(pack, b);
      assert |a| == |u| == |v| == |b|;
      forall i | 0 <= i < |a| ensures a[i] == b[i] {
        assert u[i] == pack(a[i]) && v[i] == pack(b[i]);
      }
    }
  }

  lemma OptionIsInjective<T(!new)>(pack: T -> Value)
    requires Injective(pack)
    ensures Injective(PackOption(pack))
  {
  }
}
