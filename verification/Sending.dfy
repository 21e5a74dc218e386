/**
 Which arguments make a body that can be sent, and which of those its own decoder takes back.
 A builder reports nil items, items in error, and sizes past the limit; it does not look for lists,
 so a list in a scalar position is sent and then refused.
 */
module Sending {
  import opened Secs2
  import opened Decimal
  import opened Decoding
  import opened Shapes
  import opened Building
  import opened RoundTrip
  import opened Places
  import opened NilRepair

  // ----- lists in scalar positions -----

  predicate LeafScalar(kind: Kind, v: Value)
    requires LeafTyped(kind, v)
  {
    match kind
    case KScalar => !v.item.List?
    case KScalarOrEmpty => v.item.List? ==> v.item.items == []
    case _ => true
  }

  /** No list stands where the data item's formats exclude one. */
  predicate Scalars(s: Shape, v: Value)
    requires Typed(s, v)
    decreases s, 0
  {
    match s
    case Leaf(kind) => LeafScalar(kind, v)
    case Optional(kind) => v.NoneV? || LeafScalar(kind, v.value)
    case Items => true
    case Repeat(elem) => forall i :: 0 <= i < |v.values| ==> Scalars(elem, v.values[i])
    case Group(_, row) => RowScalars(row, v)
    case OptionalGroup(_, row) => v.NoneV? || RowScalars(row, v.value)
  }

  predicate RowScalars(row: Row, v: Value)
    requires RowTyped(row, v)
    decreases row, 0
  {
    SlotScalars(row.slots, v.fields, Sent(row, v))
  }

  predicate SlotScalars(slots: Slots, vs: Values, n: nat)
    requires SlotsTyped(slots, vs, n)
    decreases slots, 0
  {
    n == 0 ||
    match slots
    case End => true
    case Field(_, s, rest) => Scalars(s, vs.value) && SlotScalars(rest, vs.rest, n - 1)
    case Nested(row, rest) => RowScalars(row, vs.value) && SlotScalars(rest, vs.rest, n - 1)
  }

  // ----- sizes -----

  predicate LeafWithinLimit(kind: Kind, v: Value)
    requires LeafTyped(kind, v)
  {
    match kind
    case KText => |v.text| <= MAX_BYTE_SIZE
    case KBinary => |v.bytes| <= MAX_BYTE_SIZE
    case _ => true
  }

  /** No text, binary or repeat is past the limit of one item. */
  predicate WithinLimits(s: Shape, v: Value)
    requires Typed(s, v)
    decreases s, 0
  {
    match s
    case Leaf(kind) => LeafWithinLimit(kind, v)
    case Optional(kind) => v.NoneV? || LeafWithinLimit(kind, v.value)
    case Items => |v.values| <= MAX_BYTE_SIZE
    case Repeat(elem) =>
      |v.values| <= MAX_BYTE_SIZE && forall i :: 0 <= i < |v.values| ==> WithinLimits(elem, v.values[i])
    case Group(_, row) => RowWithinLimits(row, v)
    case OptionalGroup(_, row) => v.NoneV? || RowWithinLimits(row, v.value)
  }

  predicate RowWithinLimits(row: Row, v: Value)
    requires RowTyped(row, v)
    decreases row, 0
  {
    SlotsWithinLimits(row.slots, v.fields, Sent(row, v))
  }

  predicate SlotsWithinLimits(slots: Slots, vs: Values, n: nat)
    requires SlotsTyped(slots, vs, n)
    decreases slots, 0
  {
    n == 0 ||
    match slots
    case End => true
    case Field(_, s, rest) => WithinLimits(s, vs.value) && SlotsWithinLimits(rest, vs.rest, n - 1)
    case Nested(row, rest) => RowWithinLimits(row, vs.value) && SlotsWithinLimits(rest, vs.rest, n - 1)
  }

  // ----- no complaint, item by item -----

  lemma ItemFine(item: Item, place: string)
    ensures ItemComplaints(item, place) == [] <==> Usable(item)
  {
  }

  lemma {:induction false} ItemsFine(vs: seq<Value>, i: nat, place: string)
    requires i <= |vs| && forall j :: 0 <= j < |vs| ==> vs[j].ItemV?
    ensures ItemsComplaints(vs, i, place) == [] <==> forall j :: i <= j < |vs| ==> Usable(vs[j].item)
    decreases |vs| - i
  {
    hide ItemComplaints, Usable, Index;
    if i < |vs| {
      ItemFine(vs[i].item, place + Index(i));
      ItemsFine(vs, i + 1, place);
    }
  }

  lemma {:induction false} ElementsFine(elem: Shape, vs: seq<Value>, i: nat, place: string)
    requires i <= |vs| && forall j :: 0 <= j < |vs| ==> Typed(elem, vs[j])
    ensures ElementComplaints(elem, vs, i, place) == [] <==>
            forall j :: i <= j < |vs| ==> Complaints(elem, vs[j], place + Index(j)) == []
    decreases |vs| - i
  {
    hide Complaints, Index;
    if i < |vs| {
      ElementsFine(elem, vs, i + 1, place);
    }
  }

  // ----- values that can be sent -----

  /** A value comes back exactly when there is nothing to complain about and no list stands in a scalar position. */
  lemma {:induction false} FitsExactly(s: Shape, v: Value, place: string)
    requires Typed(s, v)
    ensures Fits(s, v) <==> Complaints(s, v, place) == [] && Scalars(s, v)
    decreases s, 0
  {
    match s
    case Leaf(_) =>
    case Optional(_) =>
    case Items => ItemsFine(v.values, 0, place);
    case Repeat(elem) =>
      ElementsFine(elem, v.values, 0, place);
      forall i | 0 <= i < |v.values|
        ensures Fits(elem, v.values[i]) <==>
                Complaints(elem, v.values[i], place + Index(i)) == [] && Scalars(elem, v.values[i])
      {
        FitsExactly(elem, v.values[i], place + Index(i));
      }
    case Group(name, row) => RowFitsExactly(row, v, name + ".");
    case OptionalGroup(name, row) =>
      if v.SomeV? { RowFitsExactly(row, v.value, name + "."); }
  }

  lemma {:induction false} RowFitsExactly(row: Row, v: Value, owner: string)
    requires RowTyped(row, v)
    ensures RowFits(row, v) <==> RowComplaints(row, v, owner) == [] && RowScalars(row, v)
    decreases row, 0
  {
    SlotsFitExactly(row.slots, v.fields, Sent(row, v), owner);
  }

  lemma {:induction false} SlotsFitExactly(slots: Slots, vs: Values, n: nat, owner: string)
    requires SlotsTyped(slots, vs, n)
    ensures SlotsFit(slots, vs, n) <==> SlotComplaints(slots, vs, n, owner) == [] && SlotScalars(slots, vs, n)
    decreases slots, 0
  {
    if n > 0 {
      match slots
      case End =>
      case Field(name, s, rest) =>
        FitsExactly(s, vs.value, owner + name);
        SlotsFitExactly(rest, vs.rest, n - 1, owner);
      case Nested(row, rest) =>
        RowFitsExactly(row, vs.value, owner);
        SlotsFitExactly(rest, vs.rest, n - 1, owner);
    }
  }

  // ----- no complaint, position by position -----

  /** A supplied item that brings no error along: not nil, not empty, and not in error. */
  predicate Fine(part: Option<Part>) {
    part.Some? && part.value.Supplied? ==>
      !part.value.item.Nil? && !part.value.item.Empty? && Errors(part.value.item) == []
  }

  ghost predicate PartsFine(s: Shape, v: Value, place: string)
    requires Typed(s, v)
  {
    forall path: Path :: Fine(PartAt(s, v, place, path))
  }

  ghost predicate RowPartsFine(row: Row, v: Value, owner: string)
    requires RowTyped(row, v)
  {
    forall path: Path :: Fine(PartInRow(row, v, owner, path))
  }

  ghost predicate SlotPartsFine(slots: Slots, vs: Values, n: nat, owner: string)
    requires SlotsTyped(slots, vs, n)
  {
    forall k: nat, path: Path :: k < n ==> Fine(PartInSlots(slots, vs, n, k, owner, path))
  }

  /** There is nothing to complain about exactly when no limit is passed and the supplied item at every position is fine. */
  lemma {:induction false} ErrorFreeExactly(s: Shape, v: Value, place: string)
    requires WellFormed(s) && Typed(s, v)
    ensures Complaints(s, v, place) == [] <==> WithinLimits(s, v) && PartsFine(s, v, place)
    decreases s, 0
  {
    match s
    case Leaf(kind) => assert Fine(PartAt(s, v, place, [])) <==> Fine(LeafPart(kind, v, place));
    case Optional(_) =>
    case Items => ItemsErrorFreeExactly(v, place);
    case Repeat(elem) => RepeatErrorFreeExactly(elem, v, place);
    case Group(name, row) =>
      RowErrorFreeExactly(row, v, name + ".");
      assert forall path: Path :: PartAt(s, v, place, path) == PartInRow(row, v, name + ".", path);
    case OptionalGroup(name, row) =>
      if v.SomeV? {
        RowErrorFreeExactly(row, v.value, name + ".");
        assert forall path: Path :: PartAt(s, v, place, path) == PartInRow(row, v.value, name + ".", path);
      }
  }

  lemma ItemsErrorFreeExactly(v: Value, place: string)
    requires Typed(Items, v)
    ensures Complaints(Items, v, place) == [] <==> WithinLimits(Items, v) && PartsFine(Items, v, place)
  {
    ItemsFine(v.values, 0, place);
    if |v.values| <= MAX_BYTE_SIZE {
      forall i | 0 <= i < |v.values| ensures Fine(PartAt(Items, v, place, [i])) <==> Usable(v.values[i].item) {
      }
    }
  }

  lemma {:induction false} RepeatErrorFreeExactly(elem: Shape, v: Value, place: string)
    requires WellFormed(elem) && Typed(Repeat(elem), v)
    ensures Complaints(Repeat(elem), v, place) == [] <==>
            WithinLimits(Repeat(elem), v) && PartsFine(Repeat(elem), v, place)
    decreases elem, 1
  {
    hide PartsFine, Index;
    ElementsFine(elem, v.values, 0, place);
    forall i | 0 <= i < |v.values|
      ensures Complaints(elem, v.values[i], place + Index(i)) == [] <==>
              WithinLimits(elem, v.values[i]) && PartsFine(elem, v.values[i], place + Index(i))
    {
      ErrorFreeExactly(elem, v.values[i], place + Index(i));
    }
    if |v.values| <= MAX_BYTE_SIZE {
      ElementPartsFine(elem, v, place);
    }
  }

  /** The parts of a repeat are those of its elements. */
  lemma ElementPartsFine(elem: Shape, v: Value, place: string)
    requires Typed(Repeat(elem), v) && |v.values| <= MAX_BYTE_SIZE
    ensures PartsFine(Repeat(elem), v, place) <==>
            forall i :: 0 <= i < |v.values| ==> PartsFine(elem, v.values[i], place + Index(i))
  {
    hide Index;
    var s := Repeat(elem);
    if PartsFine(s, v, place) {
      forall i, path: Path | 0 <= i < |v.values| ensures Fine(PartAt(elem, v.values[i], place + Index(i), path)) {
        assert ([i] + path)[1..] == path;
        assert Fine(PartAt(s, v, place, [i] + path));
      }
    } else {
      var path: Path :| !Fine(PartAt(s, v, place, path));
      assert !Fine(PartAt(elem, v.values[path[0]], place + Index(path[0]), path[1..]));
    }
  }

  lemma {:induction false} RowErrorFreeExactly(row: Row, v: Value, owner: string)
    requires WellFormedRow(row) && RowTyped(row, v)
    ensures RowComplaints(row, v, owner) == [] <==> RowWithinLimits(row, v) && RowPartsFine(row, v, owner)
    decreases row, 0
  {
    var n := Sent(row, v);
    SlotsErrorFreeExactly(row.slots, v.fields, n, owner);
    if RowPartsFine(row, v, owner) {
      forall k: nat, path: Path | k < n ensures Fine(PartInSlots(row.slots, v.fields, n, k, owner, path)) {
        assert ([k] + path)[1..] == path;
        assert Fine(PartInRow(row, v, owner, [k] + path));
      }
    }
    if SlotPartsFine(row.slots, v.fields, n, owner) {
      forall path: Path ensures Fine(PartInRow(row, v, owner, path)) {
        if path != [] && path[0] < n {
          assert Fine(PartInSlots(row.slots, v.fields, n, path[0], owner, path[1..]));
        }
      }
    }
  }

  lemma {:induction false} SlotsErrorFreeExactly(slots: Slots, vs: Values, n: nat, owner: string)
    requires WellFormedSlots(slots) && SlotsTyped(slots, vs, n)
    ensures SlotComplaints(slots, vs, n, owner) == [] <==>
            SlotsWithinLimits(slots, vs, n) && SlotPartsFine(slots, vs, n, owner)
    decreases slots, 0
  {
    if n > 0 && !slots.End? {
      SlotsErrorFreeExactly(slots.rest, vs.rest, n - 1, owner);
      FirstSlotFine(slots, vs, n, owner);
      if slots.Field? {
        ErrorFreeExactly(slots.shape, vs.value, owner + slots.name);
      } else {
        RowErrorFreeExactly(slots.row, vs.value, owner);
      }
    }
  }

  /** The parts of the slots are those of the first one and those of the slots after it. */
  lemma FirstSlotFine(slots: Slots, vs: Values, n: nat, owner: string)
    requires SlotsTyped(slots, vs, n) && n > 0 && !slots.End?
    ensures SlotPartsFine(slots, vs, n, owner) <==>
            && SlotPartsFine(slots.rest, vs.rest, n - 1, owner)
            && (slots.Field? ==> PartsFine(slots.shape, vs.value, owner + slots.name))
            && (slots.Nested? ==> RowPartsFine(slots.row, vs.value, owner))
  {
    var m := n - 1;
    if SlotPartsFine(slots, vs, n, owner) {
      forall k: nat, path: Path | k < m ensures Fine(PartInSlots(slots.rest, vs.rest, m, k, owner, path)) {
        assert Fine(PartInSlots(slots, vs, n, k + 1, owner, path));
      }
      forall path: Path
        ensures slots.Field? ==> Fine(PartAt(slots.shape, vs.value, owner + slots.name, path))
        ensures slots.Nested? ==> Fine(PartInRow(slots.row, vs.value, owner, path))
      {
        assert Fine(PartInSlots(slots, vs, n, 0, owner, path));
      }
    } else {
      var k: nat, path: Path :| k < n && !Fine(PartInSlots(slots, vs, n, k, owner, path));
      if k > 0 {
        assert !Fine(PartInSlots(slots.rest, vs.rest, m, k - 1, owner, path));
      } else if slots.Field? {
        assert !Fine(PartAt(slots.shape, vs.value, owner + slots.name, path));
      } else {
        assert !Fine(PartInRow(slots.row, vs.value, owner, path));
      }
    }
  }
}
