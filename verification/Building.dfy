/**
 Builders: the item each value is sent as, nil items replaced in place,
 and the item a decoded body is rebuilt as.
 */
module Building {
  import opened Secs2
  import opened Decimal
  import opened Decoding
  import opened Shapes

  const NIL_AT := "gem: nil item at "

  /** The item sent in place of the nil item at `place`. */
  function NilItem(place: string): Item {
    Fault(NIL_AT + place)
  }

  function Present(item: Item, place: string): (r: Item)
    ensures !r.Nil? && (!item.Nil? ==> r == item)
  {
    if item.Nil? then NilItem(place) else item
  }

  /** What presentEach returns: each nil item replaced, named by its index after `place`. */
  function PresentEach(items: seq<Item>, place: string): seq<Item> {
    seq(|items|, i requires 0 <= i < |items| => Present(items[i], place + Index(i)))
  }

  // ----- values a builder takes -----

  /** The Go type of a leaf: any item, nil included, at an open position. */
  predicate LeafTyped(kind: Kind, v: Value) {
    match kind
    case KText => v.TextV?
    case KBinary => v.BinaryV?
    case KByte => v.ByteV?
    case KBool => v.BoolV?
    case KUint(w) => v.UintV? && v.n < w.Modulus()
    case KInt(w) => v.IntV? && -(w.Modulus() / 2) <= v.i < w.Modulus() / 2
    case _ => v.ItemV?
  }

  predicate Typed(s: Shape, v: Value)
    decreases s, 0
  {
    match s
    case Leaf(kind) => LeafTyped(kind, v)
    case Optional(kind) => v.NoneV? || (v.SomeV? && LeafTyped(kind, v.value))
    case Items => v.ManyV? && forall i :: 0 <= i < |v.values| ==> v.values[i].ItemV?
    case Repeat(elem) => v.ManyV? && forall i :: 0 <= i < |v.values| ==> Typed(elem, v.values[i])
    case Group(_, row) => RowTyped(row, v)
    case OptionalGroup(_, row) => v.NoneV? || (v.SomeV? && RowTyped(row, v.value))
  }

  /** The number of positions a row value sends. */
  function Sent(row: Row, v: Value): nat
    requires v.RowV?
  {
    if v.full then Len(row.slots) else row.short
  }

  predicate RowTyped(row: Row, v: Value)
    decreases row, 0
  {
    v.RowV? && (v.full || row.short < Len(row.slots)) && SlotsTyped(row.slots, v.fields, Sent(row, v))
  }

  predicate SlotsTyped(slots: Slots, vs: Values, n: nat)
    decreases slots, 0
  {
    if n == 0 then vs == Zeros(slots)
    else
      match slots
      case End => vs == Nothing
      case Field(_, s, rest) => vs.And? && Typed(s, vs.value) && SlotsTyped(rest, vs.rest, n - 1)
      case Nested(row, rest) => vs.And? && RowTyped(row, vs.value) && SlotsTyped(rest, vs.rest, n - 1)
  }

  // ----- building -----

  function BuildLeaf(kind: Kind, v: Value, place: string): Item
    requires LeafTyped(kind, v)
  {
    match kind
    case KText => A(v.text)
    case KBinary => B(v.bytes)
    case KByte => B([v.b])
    case KBool => BOOLEAN([v.flag])
    case KUint(w) => U(w, v.n)
    case KInt(w) => I(w, v.i)
    case _ => Present(v.item, place)
  }

  /** The zero-length item that stands for an omitted leaf. */
  function ZeroLengthItem(kind: Kind): Item {
    match kind
    case KText => A("")
    case KBinary => B([])
    case KByte => B([])
    case KBool => BOOLEAN([])
    case KUint(w) => Uints(w, [])
    case KInt(w) => Ints(w, [])
    case _ => L([])
  }

  /** The item of `v`; `place` is the name an error gives it, which a group starts afresh from its own name. */
  function Build(s: Shape, v: Value, place: string): Item
    requires Typed(s, v)
    decreases s, 0
  {
    match s
    case Leaf(kind) => BuildLeaf(kind, v, place)
    case Optional(kind) => if v.NoneV? then ZeroLengthItem(kind) else BuildLeaf(kind, v.value, place)
    case Items => L(PresentEach(RawItems(v.values), place))
    case Repeat(elem) => L(BuildElements(elem, v.values, place))
    case Group(name, row) => BuildRow(row, v, name + ".")
    case OptionalGroup(name, row) => if v.NoneV? then L([]) else BuildRow(row, v.value, name + ".")
  }

  function RawItems(vs: seq<Value>): seq<Item>
    requires forall i :: 0 <= i < |vs| ==> vs[i].ItemV?
  {
    seq(|vs|, i requires 0 <= i < |vs| => vs[i].item)
  }

  function BuildElements(elem: Shape, vs: seq<Value>, place: string): (r: seq<Item>)
    requires forall i :: 0 <= i < |vs| ==> Typed(elem, vs[i])
    ensures |r| == |vs|
    decreases elem, 1
  {
    seq(|vs|, i requires 0 <= i < |vs| => Build(elem, vs[i], place + Index(i)))
  }

  /** The list of a row; its fields are named after `owner` in errors. */
  function BuildRow(row: Row, v: Value, owner: string): Item
    requires RowTyped(row, v)
    decreases row, 0
  {
    L(BuildSlots(row.slots, v.fields, Sent(row, v), owner))
  }

  function BuildSlots(slots: Slots, vs: Values, n: nat, owner: string): (r: seq<Item>)
    requires SlotsTyped(slots, vs, n)
    ensures n <= Len(slots) ==> |r| == n
    decreases slots, 0
  {
    if n == 0 then []
    else
      match slots
      case End => []
      case Field(name, s, rest) => [Build(s, vs.value, owner + name)] + BuildSlots(rest, vs.rest, n - 1, owner)
      case Nested(row, rest) => [BuildRow(row, vs.value, owner)] + BuildSlots(rest, vs.rest, n - 1, owner)
  }

  /** The body SxFy sends for the message `title`. */
  function BuildBody(title: string, row: Row, v: Value): Item
    requires RowTyped(row, v)
  {
    BuildRow(row, v, title + " ")
  }

  // ----- values that can be sent -----

  /**
   A leaf value whose item is error-free: text and bytes within the limit,
   an open item usable, and not a list where the position excludes one.
   */
  predicate LeafFits(kind: Kind, v: Value) {
    LeafTyped(kind, v) &&
    match kind
    case KText => |v.text| <= MAX_BYTE_SIZE
    case KBinary => |v.bytes| <= MAX_BYTE_SIZE
    case KScalar => Usable(v.item) && !v.item.List?
    case KScalarOrEmpty => Usable(v.item) && (v.item.List? ==> v.item.items == [])
    case KAny => Usable(v.item)
    case _ => true
  }

  predicate Fits(s: Shape, v: Value)
    ensures Fits(s, v) ==> Typed(s, v)
    decreases s, 0
  {
    match s
    case Leaf(kind) => LeafFits(kind, v)
    case Optional(kind) => v.NoneV? || (v.SomeV? && LeafFits(kind, v.value))
    case Items =>
      v.ManyV? && |v.values| <= MAX_BYTE_SIZE &&
      forall i :: 0 <= i < |v.values| ==> v.values[i].ItemV? && Usable(v.values[i].item)
    case Repeat(elem) =>
      v.ManyV? && |v.values| <= MAX_BYTE_SIZE && forall i :: 0 <= i < |v.values| ==> Fits(elem, v.values[i])
    case Group(_, row) => RowFits(row, v)
    case OptionalGroup(_, row) => v.NoneV? || (v.SomeV? && RowFits(row, v.value))
  }

  predicate RowFits(row: Row, v: Value)
    ensures RowFits(row, v) ==> RowTyped(row, v)
    decreases row, 0
  {
    v.RowV? && (v.full || row.short < Len(row.slots)) && SlotsFit(row.slots, v.fields, Sent(row, v))
  }

  predicate SlotsFit(slots: Slots, vs: Values, n: nat)
    ensures SlotsFit(slots, vs, n) ==> SlotsTyped(slots, vs, n)
    decreases slots, 0
  {
    if n == 0 then vs == Zeros(slots)
    else
      match slots
      case End => vs == Nothing
      case Field(_, s, rest) => vs.And? && Fits(s, vs.value) && SlotsFit(rest, vs.rest, n - 1)
      case Nested(row, rest) => vs.And? && RowFits(row, vs.value) && SlotsFit(rest, vs.rest, n - 1)
  }

  // ----- normal form -----

  /** A typed number at its declared width; every other item as it is. */
  function NormaliseLeaf(kind: Kind, item: Item): Item {
    match kind
    case KUint(w) => if item.Uints? then Uints(w, item.uints) else item
    case KInt(w) => if item.Ints? then Ints(w, item.ints) else item
    case _ => item
  }

  function Normalise(s: Shape, item: Item): Item
    decreases s, 0
  {
    match s
    case Leaf(kind) => NormaliseLeaf(kind, item)
    case Optional(kind) => NormaliseLeaf(kind, item)
    case Items => item
    case Repeat(elem) => if item.List? then List(NormaliseElements(elem, item.items)) else item
    case Group(_, row) => NormaliseRow(row, item)
    case OptionalGroup(_, row) => NormaliseRow(row, item)
  }

  function NormaliseElements(elem: Shape, items: seq<Item>): seq<Item>
    decreases elem, 1
  {
    seq(|items|, i requires 0 <= i < |items| => Normalise(elem, items[i]))
  }

  function NormaliseRow(row: Row, item: Item): Item
    decreases row, 0
  {
    if item.List? then List(NormaliseSlots(row.slots, item.items)) else item
  }

  function NormaliseSlots(slots: Slots, items: seq<Item>): seq<Item>
    decreases slots, 0
  {
    if items == [] then []
    else
      match slots
      case End => items
      case Field(_, s, rest) => [Normalise(s, items[0])] + NormaliseSlots(rest, items[1..])
      case Nested(row, rest) => [NormaliseRow(row, items[0])] + NormaliseSlots(rest, items[1..])
  }
}
