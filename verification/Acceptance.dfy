/**
 What the two decode modes accept: the strict mode exactly the shape language,
 the lenient mode exactly what the strict mode accepts of the pruned item, with the same result.
 */
module Acceptance {
  import opened Secs2
  import opened Decimal
  import opened Decoding
  import opened Shapes

  // ----- strict acceptance -----

  lemma LeafAcceptsExactly(kind: Kind, item: Item, place: string)
    requires Readable(item)
    ensures DecodeLeaf(kind, NewCursor(item), place).Ok? <==> LeafConforms(kind, item)
  {
    match kind
    case KUint(w) =>
      if item.Uints? && |item.uints| == 1 { NarrowingUintIsExact(w, item.uints[0]); }
    case KInt(w) =>
      if item.Ints? && |item.ints| == 1 { NarrowingIntIsExact(w, item.ints[0]); }
    case _ =>
  }

  lemma {:induction false} AcceptsExactly(s: Shape, item: Item, place: string)
    requires WellFormed(s) && Readable(item)
    ensures Decode(s, item, place, false).Ok? <==> Conforms(s, item)
    decreases s, 0
  {
    match s
    case Leaf(kind) => LeafAcceptsExactly(kind, item, place);
    case Optional(kind) => LeafAcceptsExactly(kind, item, place);
    case Items =>
    case Repeat(elem) =>
      if item.List? {
        ElementsAcceptExactly(elem, item.items, 0, place);
      }
    case Group(_, row) => RowAcceptsExactly(row, item, place + ".", place);
    case OptionalGroup(_, row) => RowAcceptsExactly(row, item, place + ".", place);
  }

  lemma {:induction false} ElementsAcceptExactly(elem: Shape, items: seq<Item>, i: nat, place: string)
    requires WellFormed(elem) && i <= |items| && Errors(List(items)) == []
    ensures DecodeElements(elem, items, i, place, false).Ok? <==> forall j :: i <= j < |items| ==> Conforms(elem, items[j])
    decreases elem, 1, |items| - i
  {
    hide Decode, Conforms, Index;
    if i < |items| {
      ListErrorFree(items);
      AcceptsExactly(elem, items[i], place + Index(i));
      ElementsAcceptExactly(elem, items, i + 1, place);
    }
  }

  lemma {:induction false} RowAcceptsExactly(row: Row, item: Item, prefix: string, place: string)
    requires WellFormedRow(row) && Readable(item)
    ensures DecodeRow(row, item, prefix, place, false).Ok? <==> RowConforms(row, item)
    decreases row, 0
  {
    if item.List? {
      SlotsAcceptExactly(row.slots, item.items, 0, prefix, place);
      assert item.items[0..] == item.items;
    }
  }

  lemma {:induction false} SlotsAcceptExactly(slots: Slots, items: seq<Item>, k: nat, prefix: string, place: string)
    requires WellFormedSlots(slots) && k <= |items| && Errors(List(items)) == []
    ensures DecodeSlots(slots, items, k, |items|, prefix, place, false).Ok? <==> SlotsConform(slots, items[k..])
    decreases slots, 0
  {
    if k < |items| {
      ListErrorFree(items);
      assert items[k..][0] == items[k] && items[k..][1..] == items[k + 1..];
      match slots
      case End =>
      case Field(name, s, rest) =>
        AcceptsExactly(s, items[k], prefix + name);
        SlotsAcceptExactly(rest, items, k + 1, prefix, place);
      case Nested(row, rest) =>
        RowAcceptsExactly(row, items[k], prefix, place + Index(k));
        SlotsAcceptExactly(rest, items, k + 1, prefix, place);
    }
  }

  /** A strict decoder succeeds exactly on the error-free bodies of its shape, whatever it is given. */
  lemma StrictBodyAcceptsExactly(title: string, row: Row, item: Item)
    requires WellFormedRow(row)
    ensures DecodeBody(title, row, item, false).Ok? <==>
            Readable(item) && RowConforms(row, item)
  {
    if Readable(item) {
      RowAcceptsExactly(row, item, "", title + " body");
    }
  }

  // ----- the lenient mode -----

  /** Pruning a usable item leaves a usable item. */
  lemma {:induction false} PruneUsable(s: Shape, item: Item)
    requires Usable(item)
    ensures Usable(Prune(s, item))
    decreases s, 0
  {
    match s
    case Repeat(elem) =>
      if item.List? {
        ListErrorFree(item.items);
        forall i | 0 <= i < |item.items| ensures Usable(Prune(elem, item.items[i])) {
          PruneUsable(elem, item.items[i]);
        }
        ListErrorFree(PruneElements(elem, item.items));
      }
    case Group(_, row) => PruneRowUsable(row, item);
    case OptionalGroup(_, row) => PruneRowUsable(row, item);
    case _ =>
  }

  lemma {:induction false} PruneRowUsable(row: Row, item: Item)
    requires Usable(item)
    ensures Usable(PruneRow(row, item))
    decreases row, 0
  {
    if item.List? {
      PruneSlotsUsable(row.slots, item.items);
    }
  }

  lemma {:induction false} PruneSlotsUsable(slots: Slots, items: seq<Item>)
    requires Errors(List(items)) == []
    ensures Errors(List(PruneSlots(slots, items))) == []
    decreases slots, 0
  {
    if items != [] && !slots.End? {
      ListErrorFree(items);
      ListErrorFree(items[1..]);
      assert Usable(items[0]);
      if slots.Field? {
        PruneUsable(slots.shape, items[0]);
      } else {
        PruneRowUsable(slots.row, items[0]);
      }
      PruneSlotsUsable(slots.rest, items[1..]);
      ListErrorFree(PruneSlots(slots.rest, items[1..]));
      ListErrorFree(PruneSlots(slots, items));
    }
  }

  /**
   AllowTrailing is pruning: for every error-free item, the lenient decoder yields the value,
   or the error at the same place for the same reason, that the strict decoder yields for the pruned item.
   */
  lemma {:induction false} LenientIsStrictAfterPruning(s: Shape, item: Item, place: string)
    requires WellFormed(s) && Usable(item)
    ensures Decode(s, item, place, true) == Decode(s, Prune(s, item), place, false)
    decreases s, 0
  {
    PruneUsable(s, item);
    match s
    case Repeat(elem) =>
      if item.List? {
        ElementsLenient(elem, item.items, PruneElements(elem, item.items), 0, place);
      }
    case Group(_, row) => RowLenient(row, item, place + ".", place);
    case OptionalGroup(_, row) => RowLenient(row, item, place + ".", place);
    case _ =>
  }

  lemma {:induction false} ElementsLenient(elem: Shape, items: seq<Item>, pruned: seq<Item>, i: nat, place: string)
    requires WellFormed(elem) && i <= |items| && Errors(List(items)) == []
    requires pruned == PruneElements(elem, items)
    ensures DecodeElements(elem, items, i, place, true) == DecodeElements(elem, pruned, i, place, false)
    decreases elem, 1, |items| - i
  {
    if i < |items| {
      ListErrorFree(items);
      LenientIsStrictAfterPruning(elem, items[i], place + Index(i));
      ElementsLenient(elem, items, pruned, i + 1, place);
    }
  }

  lemma {:induction false} RowLenient(row: Row, item: Item, prefix: string, place: string)
    requires WellFormedRow(row) && Usable(item)
    ensures DecodeRow(row, item, prefix, place, true) == DecodeRow(row, PruneRow(row, item), prefix, place, false)
    decreases row, 0
  {
    PruneRowUsable(row, item);
    if item.List? {
      var n := Filled(row, |item.items|, true);
      if n.Some? {
        SlotsLenient(row.slots, item.items, PruneSlots(row.slots, item.items), 0, n.value, prefix, place);
      }
    }
  }

  lemma {:induction false} SlotsLenient(slots: Slots, items: seq<Item>, pruned: seq<Item>, k: nat, n: nat,
                                        prefix: string, place: string)
    requires WellFormedSlots(slots) && k <= n <= |items| && n <= |pruned| && Errors(List(items)) == []
    requires pruned[k..] == PruneSlots(slots, items[k..])
    ensures DecodeSlots(slots, items, k, n, prefix, place, true) == DecodeSlots(slots, pruned, k, n, prefix, place, false)
    decreases slots, 0
  {
    if k < n {
      ListErrorFree(items);
      assert items[k..][0] == items[k] && items[k..][1..] == items[k + 1..];
      assert pruned[k..][0] == pruned[k] && pruned[k..][1..] == pruned[k + 1..];
      match slots
      case End =>
      case Field(name, s, rest) =>
        LenientIsStrictAfterPruning(s, items[k], prefix + name);
        SlotsLenient(rest, items, pruned, k + 1, n, prefix, place);
      case Nested(row, rest) =>
        RowLenient(row, items[k], prefix, place + Index(k));
        SlotsLenient(rest, items, pruned, k + 1, n, prefix, place);
    }
  }

  /** A conforming item has nothing to prune. */
  lemma {:induction false} ConformingIsPruned(s: Shape, item: Item)
    requires WellFormed(s) && Conforms(s, item)
    ensures Prune(s, item) == item
    decreases s, 0
  {
    match s
    case Repeat(elem) =>
      forall i | 0 <= i < |item.items| ensures Prune(elem, item.items[i]) == item.items[i] {
        ConformingIsPruned(elem, item.items[i]);
      }
      assert PruneElements(elem, item.items) == item.items;
    case Group(_, row) => ConformingRowIsPruned(row, item);
    case OptionalGroup(_, row) =>
      if item != List([]) { ConformingRowIsPruned(row, item); }
    case _ =>
  }

  lemma {:induction false} ConformingRowIsPruned(row: Row, item: Item)
    requires WellFormedRow(row) && RowConforms(row, item)
    ensures PruneRow(row, item) == item
    decreases row, 0
  {
    ConformingSlotsArePruned(row.slots, item.items);
  }

  lemma {:induction false} ConformingSlotsArePruned(slots: Slots, items: seq<Item>)
    requires WellFormedSlots(slots) && SlotsConform(slots, items) && |items| <= Len(slots)
    ensures PruneSlots(slots, items) == items
    decreases slots, 0
  {
    if items != [] {
      match slots
      case Field(_, s, rest) =>
        ConformingIsPruned(s, items[0]);
        ConformingSlotsArePruned(rest, items[1..]);
      case Nested(row, rest) =>
        ConformingRowIsPruned(row, items[0]);
        ConformingSlotsArePruned(rest, items[1..]);
    }
  }

  // ----- the lenient mode of a body -----

  /** AllowTrailing decodes an error-free body as the strict decoder decodes its pruned form, error for error. */
  lemma LenientBodyIsStrictAfterPruning(title: string, row: Row, item: Item)
    requires WellFormedRow(row) && Readable(item)
    ensures DecodeBody(title, row, item, true) == DecodeBody(title, row, PruneRow(row, item), false)
  {
    if Usable(item) {
      RowLenient(row, item, "", title + " body");
    }
  }

  /** Children appended to a full list are what pruning cuts. */
  lemma {:induction false} AppendedChildrenArePruned(slots: Slots, items: seq<Item>, extra: seq<Item>)
    requires Len(slots) <= |items|
    ensures PruneSlots(slots, items + extra) == PruneSlots(slots, items)
  {
    match slots
    case End =>
    case Field(_, _, rest) =>
      assert (items + extra)[1..] == items[1..] + extra;
      AppendedChildrenArePruned(rest, items[1..], extra);
    case Nested(_, rest) =>
      assert (items + extra)[1..] == items[1..] + extra;
      AppendedChildrenArePruned(rest, items[1..], extra);
  }

  // ----- padding -----

  /** `padded` is `item` with children appended to full lists, at any declared depth. */
  predicate Pads(s: Shape, item: Item, padded: Item)
    decreases s, 0
  {
    match s
    case Repeat(elem) =>
      if !item.List? then padded == item
      else
        && padded.List? && |padded.items| == |item.items|
        && forall i :: 0 <= i < |item.items| ==> Pads(elem, item.items[i], padded.items[i])
    case Group(_, row) => RowPads(row, item, padded)
    case OptionalGroup(_, row) => if item == List([]) then padded == item else RowPads(row, item, padded)
    case _ => padded == item
  }

  predicate RowPads(row: Row, item: Item, padded: Item)
    decreases row, 0
  {
    if !item.List? then padded == item
    else padded.List? && SlotsPad(row.slots, item.items, padded.items)
  }

  /** Only past the last declared position may `padded` hold more. */
  predicate SlotsPad(slots: Slots, items: seq<Item>, padded: seq<Item>)
    decreases slots, 0
  {
    match slots
    case End => items <= padded
    case Field(_, s, rest) =>
      if items == [] then padded == []
      else padded != [] && Pads(s, items[0], padded[0]) && SlotsPad(rest, items[1..], padded[1..])
    case Nested(row, rest) =>
      if items == [] then padded == []
      else padded != [] && RowPads(row, items[0], padded[0]) && SlotsPad(rest, items[1..], padded[1..])
  }

  /** Pruning cuts whatever was appended, at every depth. */
  lemma {:induction false} PaddingIsPruned(s: Shape, item: Item, padded: Item)
    requires Pads(s, item, padded)
    ensures Prune(s, padded) == Prune(s, item)
    decreases s, 0
  {
    match s
    case Repeat(elem) =>
      if item.List? {
        forall i | 0 <= i < |item.items| ensures Prune(elem, padded.items[i]) == Prune(elem, item.items[i]) {
          PaddingIsPruned(elem, item.items[i], padded.items[i]);
        }
        assert PruneElements(elem, padded.items) == PruneElements(elem, item.items);
      }
    case Group(_, row) => RowPaddingIsPruned(row, item, padded);
    case OptionalGroup(_, row) =>
      if item != List([]) {
        RowPaddingIsPruned(row, item, padded);
      }
    case _ =>
  }

  lemma {:induction false} RowPaddingIsPruned(row: Row, item: Item, padded: Item)
    requires RowPads(row, item, padded)
    ensures PruneRow(row, padded) == PruneRow(row, item)
    decreases row, 0
  {
    if item.List? {
      SlotsPaddingIsPruned(row.slots, item.items, padded.items);
    }
  }

  lemma {:induction false} SlotsPaddingIsPruned(slots: Slots, items: seq<Item>, padded: seq<Item>)
    requires SlotsPad(slots, items, padded)
    ensures PruneSlots(slots, padded) == PruneSlots(slots, items)
    decreases slots, 0
  {
    if items != [] {
      match slots
      case End =>
      case Field(_, s, rest) =>
        PaddingIsPruned(s, items[0], padded[0]);
        SlotsPaddingIsPruned(rest, items[1..], padded[1..]);
      case Nested(row, rest) =>
        RowPaddingIsPruned(row, items[0], padded[0]);
        SlotsPaddingIsPruned(rest, items[1..], padded[1..]);
    }
  }

  /** Nothing but padding is cut: every item is its pruned form with children appended. */
  lemma {:induction false} PrunedIsPadded(s: Shape, item: Item)
    requires WellFormed(s)
    ensures Pads(s, Prune(s, item), item)
    decreases s, 0
  {
    match s
    case Repeat(elem) =>
      if item.List? {
        forall i | 0 <= i < |item.items| ensures Pads(elem, Prune(elem, item.items[i]), item.items[i]) {
          PrunedIsPadded(elem, item.items[i]);
        }
      }
    case Group(_, row) => PrunedRowIsPadded(row, item);
    case OptionalGroup(_, row) => PrunedRowIsPadded(row, item);
    case _ =>
  }

  lemma {:induction false} PrunedRowIsPadded(row: Row, item: Item)
    requires WellFormedRow(row)
    ensures RowPads(row, PruneRow(row, item), item)
    decreases row, 0
  {
    if item.List? {
      PrunedSlotsArePadded(row.slots, item.items);
    }
  }

  lemma {:induction false} PrunedSlotsArePadded(slots: Slots, items: seq<Item>)
    requires WellFormedSlots(slots)
    ensures SlotsPad(slots, PruneSlots(slots, items), items)
    decreases slots, 0
  {
    if items != [] {
      match slots
      case End =>
      case Field(_, s, rest) =>
        PrunedIsPadded(s, items[0]);
        PrunedSlotsArePadded(rest, items[1..]);
      case Nested(row, rest) =>
        PrunedRowIsPadded(row, items[0]);
        PrunedSlotsArePadded(rest, items[1..]);
    }
  }

  // ----- every hop is in range -----

  /** No position inside an item that is there is ever reported as unreachable, in either mode and whatever the item. */
  lemma {:induction false} EveryHopReaches(s: Shape, item: Item, place: string, lenient: bool)
    requires !item.Nil?
    ensures var r := Decode(s, item, place, lenient); r.Err? ==> r.error.reason != Unreachable
    decreases s, 0
  {
    match s
    case Repeat(elem) =>
      if item.List? && Errors(item) == [] {
        EveryElementIsReached(elem, item.items, 0, place, lenient);
      }
    case Group(_, row) => EveryRowHopReaches(row, item, place + ".", place, lenient);
    case OptionalGroup(_, row) => EveryRowHopReaches(row, item, place + ".", place, lenient);
    case _ =>
  }

  lemma {:induction false} EveryElementIsReached(elem: Shape, items: seq<Item>, i: nat, place: string, lenient: bool)
    requires i <= |items| && Errors(List(items)) == []
    ensures var r := DecodeElements(elem, items, i, place, lenient); r.Err? ==> r.error.reason != Unreachable
    decreases elem, 1, |items| - i
  {
    hide Decode, Index;
    if i < |items| {
      ListErrorFree(items);
      EveryHopReaches(elem, items[i], place + Index(i), lenient);
      EveryElementIsReached(elem, items, i + 1, place, lenient);
    }
  }

  lemma {:induction false} EveryRowHopReaches(row: Row, item: Item, prefix: string, place: string, lenient: bool)
    requires !item.Nil?
    ensures var r := DecodeRow(row, item, prefix, place, lenient); r.Err? ==> r.error.reason != Unreachable
    decreases row, 0
  {
    if item.List? && Errors(item) == [] && Filled(row, |item.items|, lenient).Some? {
      EverySlotIsReached(row.slots, item.items, 0, Filled(row, |item.items|, lenient).value, prefix, place, lenient);
    }
  }

  lemma {:induction false} EverySlotIsReached(slots: Slots, items: seq<Item>, k: nat, n: nat,
                                             prefix: string, place: string, lenient: bool)
    requires n <= |items| && Errors(List(items)) == []
    ensures var r := DecodeSlots(slots, items, k, n, prefix, place, lenient); r.Err? ==> r.error.reason != Unreachable
    decreases slots, 0
  {
    hide Decode, DecodeRow, Index;
    if k < n && !slots.End? {
      ListErrorFree(items);
      if slots.Field? {
        EveryHopReaches(slots.shape, items[k], prefix + slots.name, lenient);
      } else {
        EveryRowHopReaches(slots.row, items[k], prefix, place + Index(k), lenient);
      }
      EverySlotIsReached(slots.rest, items, k + 1, n, prefix, place, lenient);
    }
  }
}
