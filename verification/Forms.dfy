/**
 Omitted values: zero-length leaves, groups sent as L[0], and lists sent short.
 None of these forms can be taken for another.
 */
module Forms {
  import opened Secs2
  import opened Decoding
  import opened Shapes
  import opened Acceptance
  import opened Building
  import opened RoundTrip
  import opened NilRepair

  /** An item that holds no value, whatever its type. */
  predicate HoldsNothing(item: Item) {
    match item
    case List(items) => items == []
    case Text(text) => text == ""
    case Binary(bytes) => bytes == []
    case Boolean(flags) => flags == []
    case Uints(_, ns) => ns == []
    case Ints(_, ns) => ns == []
    case Other(_, payload) => payload == []
    case _ => true
  }

  /** Nil is decoded from the zero-length item of the declared type only; any other empty item is an error. */
  lemma OmittedLeafIsUnambiguous(kind: Kind, item: Item, place: string, lenient: bool)
    requires MayBeOmitted(kind) && Readable(item)
    ensures Decode(Optional(kind), item, place, lenient) == Ok(NoneV) <==> ZeroLength(kind, item)
    ensures HoldsNothing(item) && !ZeroLength(kind, item) ==> Decode(Optional(kind), item, place, lenient).Err?
  {
    LeafAcceptsExactly(kind, item, place);
  }

  /** The items nil is decoded from, told without the decoder: numbers of no value at any width, no byte, no flag. */
  lemma OmittedLeavesAreZeroLength(kind: Kind, item: Item, place: string, lenient: bool)
    requires MayBeOmitted(kind)
    ensures Decode(Optional(kind), item, place, lenient) == Ok(NoneV) <==>
            match kind
            case KByte => item == Binary([])
            case KBool => item == Boolean([])
            case KUint(_) => item.Uints? && |item.uints| == 0
            case KInt(_) => item.Ints? && |item.ints| == 0
            case _ => false
  {
    match kind
    case KUint(_) => assert item.Uints? && |item.uints| == 0 ==> item.uints == [] && Errors(item) == [];
    case KInt(_) => assert item.Ints? && |item.ints| == 0 ==> item.ints == [] && Errors(item) == [];
    case _ =>
  }

  /** A number of no value at any width stands for nil, not only one of the declared width. */
  lemma AnyWidthMayBeOmitted(declared: Width, wire: Width, place: string, lenient: bool)
    ensures Decode(Optional(KUint(declared)), Uints(wire, []), place, lenient) == Ok(NoneV)
    ensures Decode(Optional(KInt(declared)), Ints(wire, []), place, lenient) == Ok(NoneV)
  {
  }

  /** A leaf may be left out exactly when every value of its type fills the item it is sent as. */
  lemma OmittableExactly(kind: Kind)
    ensures MayBeOmitted(kind) <==>
            forall v: Value, place: string :: LeafTyped(kind, v) ==> !HoldsNothing(BuildLeaf(kind, v, place))
    ensures WellFormed(Leaf(kind)) && (WellFormed(Optional(kind)) <==> MayBeOmitted(kind))
  {
    if kind.KText? {
      assert LeafTyped(kind, TextV("")) && HoldsNothing(BuildLeaf(kind, TextV(""), ""));
    } else if kind.KBinary? {
      assert LeafTyped(kind, BinaryV([])) && HoldsNothing(BuildLeaf(kind, BinaryV([]), ""));
    } else if !MayBeOmitted(kind) {
      assert LeafTyped(kind, ItemV(Empty)) && HoldsNothing(BuildLeaf(kind, ItemV(Empty), ""));
    }
  }

  /** The zero value of every field is the one its Go type has. */
  lemma ZerosAreGoZeros(w: Width, elem: Shape, name: string, row: Row, kind: Kind)
    ensures ZeroLeaf(KText) == TextV("") && ZeroLeaf(KBinary) == BinaryV([])
    ensures ZeroLeaf(KByte) == ByteV(0) && ZeroLeaf(KBool) == BoolV(false)
    ensures ZeroLeaf(KUint(w)) == UintV(0) && ZeroLeaf(KInt(w)) == IntV(0)
    ensures ZeroLeaf(KScalar) == ZeroLeaf(KScalarOrEmpty) == ZeroLeaf(KAny) == ItemV(Nil(false))
    ensures Zero(Repeat(elem)) == Zero(Items) == ManyV([])
    ensures Zero(Group(name, row)) == RowV(true, Zeros(row.slots))
    ensures Zero(Optional(kind)) == Zero(OptionalGroup(name, row)) == NoneV
  {
  }

  /** Only nil is sent as the zero-length item, so a pointer to a zero value is sent as that value. */
  lemma OnlyNilIsSentEmpty(kind: Kind, v: Value, place: string)
    requires MayBeOmitted(kind) && Typed(Optional(kind), v)
    ensures ZeroLength(kind, Build(Optional(kind), v, place)) <==> v == NoneV
    ensures HoldsNothing(Build(Optional(kind), v, place)) <==> v == NoneV
  {
  }

  /**
   Text cannot be made optional in this way: a pointer to a string comes back exactly when the string is not empty,
   since the empty string is itself sent as the zero-length item.
   */
  lemma OptionalTextRoundTripsExactly(text: string, owner: string, place: string)
    requires |text| <= MAX_BYTE_SIZE
    ensures var v := SomeV(TextV(text));
            Decode(Optional(KText), Build(Optional(KText), v, owner), place, false) == Ok(v) <==> text != ""
    ensures text == "" ==>
              Decode(Optional(KText), Build(Optional(KText), SomeV(TextV(text)), owner), place, false) == Ok(NoneV)
  {
  }

  /** L[0] and nothing else decodes as a nil group, and only a nil group is sent as L[0], nil fields or not. */
  lemma OmittedGroupIsUnambiguous(name: string, row: Row, item: Item, place: string, lenient: bool)
    requires WellFormed(OptionalGroup(name, row))
    ensures Decode(OptionalGroup(name, row), item, place, lenient) == Ok(NoneV) <==> item == List([])
  {
    if item == List([]) {
      assert Errors(item) == [];
    }
  }

  /** An optional group of any other length is refused for its length, in strict mode when too long as well. */
  lemma OtherGroupLengthsAreRefused(name: string, row: Row, items: seq<Item>, place: string, lenient: bool)
    requires Readable(List(items)) && items != []
    requires |items| < Len(row.slots) || (|items| > Len(row.slots) && !lenient)
    ensures Decode(OptionalGroup(name, row), List(items), place, lenient) ==
              Refuse(place, ArityRange(|items|, 0, Len(row.slots)))
  {
  }

  lemma OnlyNilGroupIsSentEmpty(name: string, row: Row, v: Value, place: string)
    requires WellFormed(OptionalGroup(name, row)) && Typed(OptionalGroup(name, row), v)
    ensures Build(OptionalGroup(name, row), v, place) == List([]) <==> v == NoneV
  {
    PartsKeepTheirPlace(OptionalGroup(name, row), v, place, []);
  }

  // ----- short and full lists -----

  /** A list has as many children as its form declares, so no short form is ever a full one, whatever was supplied. */
  lemma FormsAreDisjoint(row: Row, short: Value, full: Value, owner: string, other: string)
    requires WellFormedRow(row) && RowTyped(row, short) && RowTyped(row, full) && !short.full && full.full
    ensures BuildRow(row, short, owner) != BuildRow(row, full, other)
  {
    RowPartsKeepTheirPlace(row, short, owner, []);
    RowPartsKeepTheirPlace(row, full, other, []);
  }

  /** A list of any other length, too long ones apart, is refused for its length in both modes. */
  lemma OtherLengthsAreRefused(row: Row, items: seq<Item>, prefix: string, place: string, lenient: bool)
    requires WellFormedRow(row) && Readable(List(items))
    requires |items| != row.short && (|items| < Len(row.slots) || (|items| > Len(row.slots) && !lenient))
    ensures DecodeRow(row, List(items), prefix, place, lenient) ==
              Refuse(place, if row.short == Len(row.slots) then Arity(|items|, Len(row.slots))
                            else ArityRange(|items|, row.short, Len(row.slots)))
  {
  }

  /** A short list decodes to the full struct with the zero value in every omitted field, and with its form on record. */
  lemma {:induction false} OmittedFieldsAreZero(slots: Slots, items: seq<Item>, k: nat, n: nat,
                                               prefix: string, place: string, lenient: bool)
    requires n <= |items| && k <= n && DecodeSlots(slots, items, k, n, prefix, place, lenient).Ok?
    ensures Dropped(DecodeSlots(slots, items, k, n, prefix, place, lenient).value, n - k) == Zeros(DroppedSlots(slots, n - k))
    decreases slots
  {
    if k < n && !slots.End? {
      OmittedFieldsAreZero(slots.rest, items, k + 1, n, prefix, place, lenient);
    }
  }

  function Dropped(vs: Values, n: nat): Values {
    if n == 0 || vs.Nothing? then vs else Dropped(vs.rest, n - 1)
  }

  function DroppedSlots(slots: Slots, n: nat): Slots {
    if n == 0 || slots.End? then slots else DroppedSlots(slots.rest, n - 1)
  }
}
