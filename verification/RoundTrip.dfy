/**
 Builders and strict decoders undo each other:
 decoding what was built returns the value, and building what was decoded returns the normal form of the item.
 */
module RoundTrip {
  import opened Secs2
  import opened Decimal
  import opened Decoding
  import opened Shapes
  import opened Acceptance
  import opened Building

  // ----- decode after build -----

  lemma LeafRoundTrip(kind: Kind, v: Value, owner: string, place: string)
    requires LeafFits(kind, v)
    ensures Usable(BuildLeaf(kind, v, owner))
    ensures DecodeLeaf(kind, NewCursor(BuildLeaf(kind, v, owner)), place) == Ok(v)
  {
    match kind
    case KUint(w) => NarrowingUintIsExact(w, v.n);
    case KInt(w) => NarrowingIntIsExact(w, v.i);
    case _ =>
  }

  /** A list of usable items holds each of them and carries no error. */
  lemma UsableList(items: seq<Item>)
    requires |items| <= MAX_BYTE_SIZE && forall i :: 0 <= i < |items| ==> Usable(items[i])
    ensures L(items) == List(items) && Errors(L(items)) == []
  {
    WithoutNilIsIdentity(items);
    ListErrorFree(items);
  }

  /** Strict decoding of a built item returns the value it was built from, at every depth. */
  lemma {:induction false} DecodeOfBuild(s: Shape, v: Value, owner: string, place: string)
    requires WellFormed(s) && Fits(s, v)
    ensures Usable(Build(s, v, owner))
    ensures Decode(s, Build(s, v, owner), place, false) == Ok(v)
    decreases s, 0
  {
    match s
    case Leaf(kind) => LeafRoundTrip(kind, v, owner, place);
    case Optional(kind) =>
      if v.SomeV? {
        LeafRoundTrip(kind, v.value, owner, place);
      }
    case Items =>
      var items := RawItems(v.values);
      assert PresentEach(items, owner) == items;
      UsableList(items);
      assert ItemValues(items) == v.values;
    case Repeat(elem) =>
      var items := BuildElements(elem, v.values, owner);
      ElementsRoundTrip(elem, v.values, items, 0, owner, place);
      UsableList(items);
      assert v.values[0..] == v.values;
    case Group(name, row) => RowRoundTrip(row, v, name + ".", place + ".", place);
    case OptionalGroup(name, row) =>
      if v.SomeV? {
        RowRoundTrip(row, v.value, name + ".", place + ".", place);
      }
  }

  lemma {:induction false} ElementsRoundTrip(elem: Shape, vs: seq<Value>, items: seq<Item>, i: nat, owner: string, place: string)
    requires WellFormed(elem) && i <= |vs| == |items|
    requires forall j :: 0 <= j < |vs| ==> Fits(elem, vs[j]) && items[j] == Build(elem, vs[j], owner + Index(j))
    ensures forall j :: i <= j < |items| ==> Usable(items[j])
    ensures DecodeElements(elem, items, i, place, false) == Ok(vs[i..])
    decreases elem, 1, |vs| - i
  {
    hide Decode, Build, Fits, Index, Errors;
    if i < |vs| {
      DecodeOfBuild(elem, vs[i], owner + Index(i), place + Index(i));
      ElementsRoundTrip(elem, vs, items, i + 1, owner, place);
      assert [vs[i]] + vs[i + 1..] == vs[i..];
    } else {
      assert vs[i..] == [];
    }
  }

  lemma {:induction false} RowRoundTrip(row: Row, v: Value, owner: string, prefix: string, place: string)
    requires WellFormedRow(row) && RowFits(row, v)
    ensures Usable(BuildRow(row, v, owner)) && BuildRow(row, v, owner).List?
    ensures |BuildRow(row, v, owner).items| == Sent(row, v)
    ensures DecodeRow(row, BuildRow(row, v, owner), prefix, place, false) == Ok(v)
    decreases row, 0
  {
    var n := Sent(row, v);
    var items := BuildSlots(row.slots, v.fields, n, owner);
    assert items[0..] == items;
    SlotsRoundTrip(row.slots, v.fields, items, 0, n, owner, prefix, place);
    UsableList(items);
  }

  lemma {:induction false} SlotsRoundTrip(slots: Slots, vs: Values, items: seq<Item>, k: nat, n: nat,
                                          owner: string, prefix: string, place: string)
    requires WellFormedSlots(slots) && k <= n && n - k <= Len(slots) && n == |items| && SlotsFit(slots, vs, n - k)
    requires items[k..] == BuildSlots(slots, vs, n - k, owner)
    ensures forall j :: k <= j < n ==> Usable(items[j])
    ensures DecodeSlots(slots, items, k, n, prefix, place, false) == Ok(vs)
    decreases slots, 0
  {
    if k < n {
      assert items[k..][0] == items[k] && items[k..][1..] == items[k + 1..];
      match slots
      case Field(name, s, rest) =>
        DecodeOfBuild(s, vs.value, owner + name, prefix + name);
        SlotsRoundTrip(rest, vs.rest, items, k + 1, n, owner, prefix, place);
      case Nested(row, rest) =>
        RowRoundTrip(row, vs.value, owner, prefix, place + Index(k));
        SlotsRoundTrip(rest, vs.rest, items, k + 1, n, owner, prefix, place);
    }
  }

  // ----- only values that can be sent survive the round trip -----

  /** A builder never drops a position: no item it builds is nil. */
  lemma BuiltIsPresent(s: Shape, v: Value, owner: string)
    requires Typed(s, v)
    ensures !Build(s, v, owner).Nil?
  {
  }

  lemma {:induction false} SlotsArePresent(slots: Slots, vs: Values, n: nat, owner: string)
    requires SlotsTyped(slots, vs, n)
    ensures forall k :: 0 <= k < |BuildSlots(slots, vs, n, owner)| ==> !BuildSlots(slots, vs, n, owner)[k].Nil?
    decreases slots
  {
    if n > 0 {
      match slots
      case End =>
      case Field(name, s, rest) =>
        BuiltIsPresent(s, vs.value, owner + name);
        SlotsArePresent(rest, vs.rest, n - 1, owner);
      case Nested(row, rest) =>
        SlotsArePresent(rest, vs.rest, n - 1, owner);
    }
  }

  /** The children a usable list was made of, none of them nil, are what it holds. */
  lemma ListOfPresent(items: seq<Item>)
    requires (forall i :: 0 <= i < |items| ==> !items[i].Nil?) && Usable(L(items))
    ensures |items| <= MAX_BYTE_SIZE && L(items) == List(items)
    ensures forall i :: 0 <= i < |items| ==> Usable(items[i])
  {
    WithoutNilIsIdentity(items);
    ListErrorFree(items);
  }

  lemma PresentUsable(item: Item, place: string)
    requires Usable(Present(item, place))
    ensures Present(item, place) == item
  {
    assert Errors(NilItem(place)) == [NIL_AT + place];
  }

  lemma {:induction false} ConformingBuildFits(s: Shape, v: Value, owner: string)
    requires WellFormed(s) && Typed(s, v)
    requires Usable(Build(s, v, owner)) && Conforms(s, Build(s, v, owner))
    ensures Fits(s, v)
    decreases s, 0
  {
    match s
    case Leaf(kind) =>
      if v.ItemV? { PresentUsable(v.item, owner); }
    case Optional(kind) =>
    case Items =>
      var items := RawItems(v.values);
      var built := PresentEach(items, owner);
      ListOfPresent(built);
      forall i | 0 <= i < |v.values| ensures Usable(v.values[i].item) {
        assert Usable(built[i]);
        PresentUsable(items[i], owner + Index(i));
      }
    case Repeat(elem) =>
      var built := BuildElements(elem, v.values, owner);
      forall i | 0 <= i < |built| ensures !built[i].Nil? {
        BuiltIsPresent(elem, v.values[i], owner + Index(i));
      }
      ListOfPresent(built);
      forall i | 0 <= i < |v.values| ensures Fits(elem, v.values[i]) {
        assert Usable(built[i]) && Conforms(elem, built[i]);
        ConformingBuildFits(elem, v.values[i], owner + Index(i));
      }
    case Group(name, row) => ConformingRowFits(row, v, name + ".");
    case OptionalGroup(name, row) =>
      if v.SomeV? {
        assert Usable(BuildRow(row, v.value, name + "."));
        SlotsArePresent(row.slots, v.value.fields, Sent(row, v.value), name + ".");
        ListOfPresent(BuildSlots(row.slots, v.value.fields, Sent(row, v.value), name + "."));
        ConformingRowFits(row, v.value, name + ".");
      }
  }

  lemma {:induction false} ConformingRowFits(row: Row, v: Value, owner: string)
    requires WellFormedRow(row) && RowTyped(row, v)
    requires Usable(BuildRow(row, v, owner)) && RowConforms(row, BuildRow(row, v, owner))
    ensures RowFits(row, v)
    decreases row, 0
  {
    SlotsArePresent(row.slots, v.fields, Sent(row, v), owner);
    ListOfPresent(BuildSlots(row.slots, v.fields, Sent(row, v), owner));
    ConformingSlotsFit(row.slots, v.fields, Sent(row, v), owner);
  }

  lemma {:induction false} ConformingSlotsFit(slots: Slots, vs: Values, n: nat, owner: string)
    requires WellFormedSlots(slots) && SlotsTyped(slots, vs, n) && n <= Len(slots)
    requires SlotsConform(slots, BuildSlots(slots, vs, n, owner))
    requires forall k :: 0 <= k < n ==> Usable(BuildSlots(slots, vs, n, owner)[k])
    ensures SlotsFit(slots, vs, n)
    decreases slots, 0
  {
    if n > 0 {
      var built := BuildSlots(slots, vs, n, owner);
      assert forall k :: 0 <= k < n - 1 ==> built[1..][k] == built[k + 1];
      assert Usable(built[0]);
      match slots
      case Field(name, s, rest) =>
        ConformingBuildFits(s, vs.value, owner + name);
        assert built[1..] == BuildSlots(rest, vs.rest, n - 1, owner);
        ConformingSlotsFit(rest, vs.rest, n - 1, owner);
      case Nested(row, rest) =>
        ConformingRowFits(row, vs.value, owner);
        assert built[1..] == BuildSlots(rest, vs.rest, n - 1, owner);
        ConformingSlotsFit(rest, vs.rest, n - 1, owner);
    }
  }

  // ----- build after decode -----

  lemma LeafRebuild(kind: Kind, item: Item, owner: string, place: string)
    requires Clean(item) && DecodeLeaf(kind, NewCursor(item), place).Ok?
    ensures var v := DecodeLeaf(kind, NewCursor(item), place).value;
            LeafFits(kind, v) && BuildLeaf(kind, v, owner) == NormaliseLeaf(kind, item)
  {
    CleanIsUsable(item);
    LeafAcceptsExactly(kind, item, place);
    match kind
    case KByte => assert item.bytes == [item.bytes[0]];
    case KBool => assert item.flags == [item.flags[0]];
    case KUint(w) => assert item.uints == [item.uints[0]];
    case KInt(w) => assert item.ints == [item.ints[0]];
    case _ =>
  }

  /**
   Building from a decoded value returns the decoded item with each typed number at its declared width,
   and every open item exactly as it arrived.
   */
  lemma {:induction false} BuildOfDecode(s: Shape, item: Item, owner: string, place: string)
    requires WellFormed(s) && Clean(item) && Decode(s, item, place, false).Ok?
    ensures var v := Decode(s, item, place, false).value;
            Fits(s, v) && Build(s, v, owner) == Normalise(s, item)
    decreases s, 0
  {
    CleanIsUsable(item);
    match s
    case Leaf(kind) => LeafRebuild(kind, item, owner, place);
    case Optional(kind) =>
      if !ZeroLength(kind, item) {
        LeafRebuild(kind, item, owner, place);
      }
    case Items =>
      var vs := ItemValues(item.items);
      assert RawItems(vs) == item.items;
      assert PresentEach(item.items, owner) == item.items;
      ListErrorFree(item.items);
      UsableList(item.items);
    case Repeat(elem) =>
      var vs := DecodeElements(elem, item.items, 0, place, false).value;
      ElementsRebuild(elem, item.items, 0, owner, place);
      assert BuildElements(elem, vs, owner) == NormaliseElements(elem, item.items);
      ElementsRoundTrip(elem, vs, BuildElements(elem, vs, owner), 0, owner, place);
      UsableList(BuildElements(elem, vs, owner));
    case Group(name, row) => RowRebuild(row, item, name + ".", place + ".", place);
    case OptionalGroup(name, row) =>
      if item.items != [] {
        RowRebuild(row, item, name + ".", place + ".", place);
      } else {
        assert NormaliseSlots(row.slots, item.items) == [];
      }
  }

  lemma {:induction false} ElementsRebuild(elem: Shape, items: seq<Item>, i: nat, owner: string, place: string)
    requires WellFormed(elem) && i <= |items| && Clean(List(items))
    requires DecodeElements(elem, items, i, place, false).Ok?
    ensures var vs := DecodeElements(elem, items, i, place, false).value;
            forall j :: 0 <= j < |vs| ==>
              Fits(elem, vs[j]) && Build(elem, vs[j], owner + Index(i + j)) == Normalise(elem, items[i + j])
    decreases elem, 1, |items| - i
  {
    hide Decode, Build, Normalise, Fits, Index;
    if i < |items| {
      BuildOfDecode(elem, items[i], owner + Index(i), place + Index(i));
      ElementsRebuild(elem, items, i + 1, owner, place);
      var vs := DecodeElements(elem, items, i, place, false).value;
      var rest := DecodeElements(elem, items, i + 1, place, false).value;
      forall j | 0 <= j < |vs|
        ensures Fits(elem, vs[j]) && Build(elem, vs[j], owner + Index(i + j)) == Normalise(elem, items[i + j])
      {
        if j > 0 {
          assert vs[j] == rest[j - 1];
          assert i + j == (i + 1) + (j - 1);
        }
      }
    }
  }

  lemma {:induction false} RowRebuild(row: Row, item: Item, owner: string, prefix: string, place: string)
    requires WellFormedRow(row) && Clean(item) && DecodeRow(row, item, prefix, place, false).Ok?
    ensures var v := DecodeRow(row, item, prefix, place, false).value;
            RowFits(row, v) && BuildRow(row, v, owner) == NormaliseRow(row, item)
    decreases row, 0
  {
    CleanIsUsable(item);
    var v := DecodeRow(row, item, prefix, place, false).value;
    SlotsRebuild(row.slots, item.items, 0, owner, prefix, place);
    assert item.items[0..] == item.items;
    RowRoundTrip(row, v, owner, prefix, place);
    var built := BuildSlots(row.slots, v.fields, Sent(row, v), owner);
    assert built[0..] == built;
    SlotsRoundTrip(row.slots, v.fields, built, 0, Sent(row, v), owner, prefix, place);
    UsableList(built);
  }

  lemma {:induction false} SlotsRebuild(slots: Slots, items: seq<Item>, k: nat, owner: string, prefix: string, place: string)
    requires WellFormedSlots(slots) && k <= |items| && |items| - k <= Len(slots) && Clean(List(items))
    requires DecodeSlots(slots, items, k, |items|, prefix, place, false).Ok?
    ensures var vs := DecodeSlots(slots, items, k, |items|, prefix, place, false).value;
            SlotsFit(slots, vs, |items| - k) &&
            BuildSlots(slots, vs, |items| - k, owner) == NormaliseSlots(slots, items[k..])
    decreases slots, 0
  {
    hide Decode, DecodeRow, Build, BuildRow, Normalise, NormaliseRow, Fits, RowFits, Index;
    if k < |items| {
      assert items[k..][0] == items[k] && items[k..][1..] == items[k + 1..];
      match slots
      case Field(name, s, rest) =>
        BuildOfDecode(s, items[k], owner + name, prefix + name);
        SlotsRebuild(rest, items, k + 1, owner, prefix, place);
      case Nested(row, rest) =>
        RowRebuild(row, items[k], owner, prefix, place + Index(k));
        SlotsRebuild(rest, items, k + 1, owner, prefix, place);
    }
  }

  // ----- bodies -----

  /** Every body built from values that can be sent is error-free and decodes strictly to exactly those values. */
  lemma BodyRoundTrip(title: string, row: Row, v: Value)
    requires WellFormedRow(row) && RowFits(row, v)
    ensures Errors(BuildBody(title, row, v)) == []
    ensures DecodeBody(title, row, BuildBody(title, row, v), false) == Ok(v)
  {
    RowRoundTrip(row, v, title + " ", "", title + " body");
  }

  /** Of all arguments a builder takes, exactly those that can be sent come back from the strict decoder. */
  lemma BodyRoundTripExactly(title: string, row: Row, v: Value)
    requires WellFormedRow(row) && RowTyped(row, v)
    ensures DecodeBody(title, row, BuildBody(title, row, v), false) == Ok(v) <==> RowFits(row, v)
    ensures DecodeBody(title, row, BuildBody(title, row, v), false).Ok? <==> RowFits(row, v)
  {
    var item := BuildBody(title, row, v);
    if RowFits(row, v) {
      BodyRoundTrip(title, row, v);
    } else if DecodeBody(title, row, item, false).Ok? {
      StrictBodyAcceptsExactly(title, row, item);
      ConformingRowFits(row, v, title + " ");
      assert false;
    }
  }

  /** Rebuilding a strictly decoded body normalises it, and the normal form decodes to the same value. */
  lemma BodyRebuild(title: string, row: Row, item: Item)
    requires WellFormedRow(row) && Clean(item) && DecodeBody(title, row, item, false).Ok?
    ensures var v := DecodeBody(title, row, item, false).value;
            && RowFits(row, v)
            && BuildBody(title, row, v) == NormaliseRow(row, item)
            && DecodeBody(title, row, NormaliseRow(row, item), false) == Ok(v)
  {
    RowRebuild(row, item, title + " ", "", title + " body");
    BodyRoundTrip(title, row, DecodeBody(title, row, item, false).value);
  }

  lemma {:induction false} PruneClean(s: Shape, item: Item)
    requires WellFormed(s) && Clean(item)
    ensures Clean(Prune(s, item))
    decreases s, 0
  {
    match s
    case Repeat(elem) =>
      if item.List? {
        forall i | 0 <= i < |item.items| ensures Clean(Prune(elem, item.items[i])) {
          PruneClean(elem, item.items[i]);
        }
      }
    case Group(_, row) => PruneRowClean(row, item);
    case OptionalGroup(_, row) => PruneRowClean(row, item);
    case _ =>
  }

  lemma {:induction false} PruneRowClean(row: Row, item: Item)
    requires WellFormedRow(row) && Clean(item)
    ensures Clean(PruneRow(row, item))
    decreases row, 0
  {
    if item.List? {
      PruneSlotsClean(row.slots, item.items);
    }
  }

  lemma {:induction false} PruneSlotsClean(slots: Slots, items: seq<Item>)
    requires WellFormedSlots(slots) && Clean(List(items))
    ensures Clean(List(PruneSlots(slots, items)))
    decreases slots, 0
  {
    if items != [] && !slots.End? {
      assert Clean(items[0]);
      assert Clean(List(items[1..]));
      if slots.Field? {
        PruneClean(slots.shape, items[0]);
      } else {
        PruneRowClean(slots.row, items[0]);
      }
      PruneSlotsClean(slots.rest, items[1..]);
    }
  }

  /** What a decoder keeps of a body: all of it, or with AllowTrailing its pruned form. */
  function Kept(row: Row, item: Item, lenient: bool): Item {
    if lenient then PruneRow(row, item) else item
  }

  /**
   In either mode a body decodes exactly when what is kept of it conforms;
   building it again then normalises what is kept, and decodes strictly to the same value.
   */
  lemma BodyRebuildExactly(title: string, row: Row, item: Item, lenient: bool)
    requires WellFormedRow(row) && Clean(item)
    ensures DecodeBody(title, row, item, lenient).Ok? <==> RowConforms(row, Kept(row, item, lenient))
    ensures DecodeBody(title, row, item, lenient).Ok? ==>
              var v := DecodeBody(title, row, item, lenient).value;
              && RowFits(row, v)
              && BuildBody(title, row, v) == NormaliseRow(row, Kept(row, item, lenient))
              && DecodeBody(title, row, BuildBody(title, row, v), false) == Ok(v)
  {
    var kept := Kept(row, item, lenient);
    CleanIsUsable(item);
    PruneRowClean(row, item);
    CleanIsUsable(kept);
    if lenient {
      LenientBodyIsStrictAfterPruning(title, row, item);
    }
    StrictBodyAcceptsExactly(title, row, kept);
    if DecodeBody(title, row, kept, false).Ok? {
      BodyRebuild(title, row, kept);
    }
  }

  /** A body whose short form is L[0] is in that form only when it is L[0], which is already normal. */
  lemma OnlyEmptyIsShort(title: string, row: Row, item: Item, lenient: bool)
    requires row.short == 0
    ensures DecodeBody(title, row, item, lenient).Ok? && !DecodeBody(title, row, item, lenient).value.full ==>
              item == List([]) && NormaliseRow(row, Kept(row, item, lenient)) == L([])
  {
    assert WithoutNil([]) == [];
  }
}
