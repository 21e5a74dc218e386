/**
 Body shapes, the values they carry, and the two directions between values and items.
 A shape is what a message's `Body:` line and a group's `Shape:` line declare;
 `Decode` and `Build` give every shape its decoder and its builder.
 */
module Shapes {
  import opened Secs2
  import opened Decimal
  import opened Decoding

  /**
   What one position holds.
   `Items` is a repeat of items returned as they arrived; `Repeat` checks each element against its own shape.
   A `Group` is a named list of fields; an `OptionalGroup` may also be sent as L[0].
   */
  datatype Shape =
    | Leaf(kind: Kind)
    | Optional(kind: Kind)
    | Items
    | Repeat(elem: Shape)
    | Group(name: string, row: Row)
    | OptionalGroup(name: string, row: Row)

  /** A list of declared positions, sent full or with only its first `short` ones; a fixed list has no shorter form. */
  datatype Row = Row(short: nat, slots: Slots)

  /** The positions of a row: a field, or a list nested in the row whose fields belong to the same struct. */
  datatype Slots =
    | End
    | Field(name: string, shape: Shape, rest: Slots)
    | Nested(row: Row, rest: Slots)

  function Len(slots: Slots): nat {
    match slots
    case End => 0
    case Field(_, _, rest) => 1 + Len(rest)
    case Nested(_, rest) => 1 + Len(rest)
  }

  /**
   What a decoder yields and a builder takes, before it is laid out in a struct.
   A pointer field is `NoneV` or `SomeV`; `RowV` says whether its list is in its full form,
   and holds the zero value at every position the short form omits.
   */
  datatype Value =
    | TextV(text: string)
    | BinaryV(bytes: seq<byte>)
    | ByteV(b: byte)
    | BoolV(flag: bool)
    | UintV(n: nat)
    | IntV(i: int)
    | ItemV(item: Item)
    | ManyV(values: seq<Value>)
    | NoneV
    | SomeV(value: Value)
    | RowV(full: bool, fields: Values)

  datatype Values = Nothing | And(value: Value, rest: Values)

  // ----- well-formed shapes -----

  /** A leaf that may be sent zero-length: one whose every value fills the item, so that no value is itself zero-length. */
  predicate MayBeOmitted(kind: Kind) {
    kind.KByte? || kind.KBool? || kind.KUint? || kind.KInt?
  }

  predicate WellFormed(s: Shape) {
    match s
    case Leaf(_) => true
    case Optional(kind) => MayBeOmitted(kind)
    case Items => true
    case Repeat(elem) => WellFormed(elem)
    case Group(_, row) => WellFormedRow(row) && row.short == Len(row.slots)
    case OptionalGroup(_, row) => WellFormedRow(row) && row.short == Len(row.slots) > 0
  }

  predicate WellFormedRow(row: Row) {
    row.short <= Len(row.slots) <= MAX_BYTE_SIZE && WellFormedSlots(row.slots)
  }

  predicate WellFormedSlots(slots: Slots) {
    match slots
    case End => true
    case Field(_, s, rest) => WellFormed(s) && WellFormedSlots(rest)
    case Nested(row, rest) => WellFormedRow(row) && WellFormedSlots(rest)
  }

  // ----- zero values -----

  function ZeroLeaf(kind: Kind): Value {
    match kind
    case KText => TextV("")
    case KBinary => BinaryV([])
    case KByte => ByteV(0)
    case KBool => BoolV(false)
    case KUint(_) => UintV(0)
    case KInt(_) => IntV(0)
    case KScalar => ItemV(Nil(false))
    case KScalarOrEmpty => ItemV(Nil(false))
    case KAny => ItemV(Nil(false))
  }

  function Zero(s: Shape): Value {
    match s
    case Leaf(kind) => ZeroLeaf(kind)
    case Optional(_) => NoneV
    case Items => ManyV([])
    case Repeat(_) => ManyV([])
    case Group(_, row) => RowV(true, Zeros(row.slots))
    case OptionalGroup(_, _) => NoneV
  }

  function Zeros(slots: Slots): Values {
    match slots
    case End => Nothing
    case Field(_, s, rest) => And(Zero(s), Zeros(rest))
    case Nested(row, rest) => And(RowV(true, Zeros(row.slots)), Zeros(rest))
  }

  // ----- decoding -----

  function DecodeLeaf(kind: Kind, c: Cursor, place: string): Outcome<Value> {
    match kind
    case KText => DecodeASCII(c, place).Map(t => TextV(t))
    case KBinary => DecodeBinary(c, place).Map(b => BinaryV(b))
    case KByte => DecodeByteAs(c, place).Map(b => ByteV(b))
    case KBool => DecodeBool(c, place).Map(b => BoolV(b))
    case KUint(w) => DecodeUint(w, c, place).Map(n => UintV(n))
    case KInt(w) => DecodeInt(w, c, place).Map(i => IntV(i))
    case KScalar => DecodeScalarItem(c, place).Map(i => ItemV(i))
    case KScalarOrEmpty => DecodeScalarOrEmptyList(c, place).Map(i => ItemV(i))
    case KAny => DecodeItem(c, place).Map(i => ItemV(i))
  }

  /** How many positions of a row of `full` a list of `got` children fills, or none when no form has that length. */
  function Filled(row: Row, got: nat, lenient: bool): Option<nat> {
    var full := Len(row.slots);
    if got == full || (got > full && lenient) then Some(full)
    else if got == row.short then Some(row.short)
    else None
  }

  function WrongCount(row: Row, got: nat): Reason {
    var full := Len(row.slots);
    if row.short == full then Arity(got, full) else ArityRange(got, row.short, full)
  }

  function Decode(s: Shape, item: Item, place: string, lenient: bool): Outcome<Value>
    decreases s, 0
  {
    var c := NewCursor(item);
    match s
    case Leaf(kind) => DecodeLeaf(kind, c, place)
    case Optional(kind) =>
      var there :- PresentAt(c, place, kind);
      if !there then Ok(NoneV)
      else
        var v :- DecodeLeaf(kind, c, place);
        Ok(SomeV(v))
    case Items =>
      var items :- ListAt(c, place);
      Ok(ManyV(ItemValues(items)))
    case Repeat(elem) =>
      var items :- ListAt(c, place);
      var vs :- DecodeElements(elem, items, 0, place, lenient);
      Ok(ManyV(vs))
    case Group(_, row) => DecodeRow(row, item, place + ".", place, lenient)
    case OptionalGroup(_, row) =>
      var items :- ListAt(c, place);
      var full := Len(row.slots);
      if items == [] then Ok(NoneV)
      else if |items| == full || (|items| > full && lenient) then
        var g :- DecodeRow(row, item, place + ".", place, lenient);
        Ok(SomeV(g))
      else Refuse(place, ArityRange(|items|, 0, full))
  }

  function ItemValues(items: seq<Item>): seq<Value> {
    seq(|items|, i requires 0 <= i < |items| => ItemV(items[i]))
  }

  function DecodeElements(elem: Shape, items: seq<Item>, i: nat, place: string, lenient: bool): (r: Outcome<seq<Value>>)
    requires i <= |items|
    ensures r.Ok? ==> |r.value| == |items| - i
    decreases elem, 1, |items| - i
  {
    if i == |items| then Ok([])
    else
      var v :- Decode(elem, items[i], place + Index(i), lenient);
      var vs :- DecodeElements(elem, items, i + 1, place, lenient);
      Ok([v] + vs)
  }

  /** The list of a row at `place`; its fields are named after `prefix`, its nested lists after `place`. */
  function DecodeRow(row: Row, item: Item, prefix: string, place: string, lenient: bool): Outcome<Value>
    decreases row, 0
  {
    var items :- ListAt(NewCursor(item), place);
    match Filled(row, |items|, lenient)
    case None => Refuse(place, WrongCount(row, |items|))
    case Some(n) =>
      var vs :- DecodeSlots(row.slots, items, 0, n, prefix, place, lenient);
      Ok(RowV(n == Len(row.slots), vs))
  }

  function DecodeSlots(slots: Slots, items: seq<Item>, k: nat, n: nat,
                       prefix: string, place: string, lenient: bool): Outcome<Values>
    requires n <= |items|
    decreases slots, 0
  {
    if k >= n then Ok(Zeros(slots))
    else
      match slots
      case End => Ok(Nothing)
      case Field(name, s, rest) =>
        var v :- Decode(s, items[k], prefix + name, lenient);
        var vs :- DecodeSlots(rest, items, k + 1, n, prefix, place, lenient);
        Ok(And(v, vs))
      case Nested(row, rest) =>
        var v :- DecodeRow(row, items[k], prefix, place + Index(k), lenient);
        var vs :- DecodeSlots(rest, items, k + 1, n, prefix, place, lenient);
        Ok(And(v, vs))
  }

  /** DecodeSxFy of the message `title`, whose whole body is `row`. */
  function DecodeBody(title: string, row: Row, item: Item, lenient: bool): Outcome<Value> {
    DecodeRow(row, item, "", title + " body", lenient)
  }

  // ----- conformance -----

  /** The items each leaf format admits. */
  predicate LeafConforms(kind: Kind, item: Item) {
    match kind
    case KText => item.Text?
    case KBinary => item.Binary?
    case KByte => item.Binary? && |item.bytes| == 1
    case KBool => item.Boolean? && |item.flags| == 1
    case KUint(w) => item.Uints? && |item.uints| == 1 && item.uints[0] < w.Modulus()
    case KInt(w) => item.Ints? && |item.ints| == 1 && -(w.Modulus() / 2) <= item.ints[0] < w.Modulus() / 2
    case KScalar => !item.List?
    case KScalarOrEmpty => item.List? ==> item.items == []
    case KAny => true
  }

  /** The shape language a strict decoder accepts, for a usable item. */
  predicate Conforms(s: Shape, item: Item)
    decreases s, 0
  {
    match s
    case Leaf(kind) => LeafConforms(kind, item)
    case Optional(kind) => LeafConforms(kind, item) || ZeroLength(kind, item)
    case Items => item.List?
    case Repeat(elem) => item.List? && forall i :: 0 <= i < |item.items| ==> Conforms(elem, item.items[i])
    case Group(_, row) => RowConforms(row, item)
    case OptionalGroup(_, row) => item == List([]) || (RowConforms(row, item) && |item.items| == Len(row.slots))
  }

  predicate RowConforms(row: Row, item: Item)
    decreases row, 0
  {
    item.List? && (|item.items| == Len(row.slots) || |item.items| == row.short) && SlotsConform(row.slots, item.items)
  }

  predicate SlotsConform(slots: Slots, items: seq<Item>)
    decreases slots, 0
  {
    items == [] ||
    match slots
    case End => true
    case Field(_, s, rest) => Conforms(s, items[0]) && SlotsConform(rest, items[1..])
    case Nested(row, rest) => RowConforms(row, items[0]) && SlotsConform(rest, items[1..])
  }

  // ----- pruning -----

  /** The item with every fixed or short-or-full list cut to its full length, at every declared depth. */
  function Prune(s: Shape, item: Item): Item
    decreases s, 0
  {
    match s
    case Repeat(elem) => if item.List? then List(PruneElements(elem, item.items)) else item
    case Group(_, row) => PruneRow(row, item)
    case OptionalGroup(_, row) => if item == List([]) then item else PruneRow(row, item)
    case _ => item
  }

  function PruneElements(elem: Shape, items: seq<Item>): (r: seq<Item>)
    ensures |r| == |items|
    decreases elem, 1
  {
    seq(|items|, i requires 0 <= i < |items| => Prune(elem, items[i]))
  }

  function PruneRow(row: Row, item: Item): Item
    decreases row, 0
  {
    if item.List? then List(PruneSlots(row.slots, item.items)) else item
  }

  function PruneSlots(slots: Slots, items: seq<Item>): (r: seq<Item>)
    ensures |r| == if |items| < Len(slots) then |items| else Len(slots)
    decreases slots, 0
  {
    if items == [] then []
    else
      match slots
      case End => []
      case Field(_, s, rest) => [Prune(s, items[0])] + PruneSlots(rest, items[1..])
      case Nested(row, rest) => [PruneRow(row, items[0])] + PruneSlots(rest, items[1..])
  }
}
