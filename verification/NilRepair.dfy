/**
 Nil items in a builder's arguments: each is replaced by an error at its own position,
 no sibling moves, and the body carries exactly the errors its arguments call for.
 */
module NilRepair {
  import opened Secs2
  import opened Decimal
  import opened Decoding
  import opened Shapes
  import opened Building
  import opened RoundTrip
  import opened Places

  // ----- the loops of gem/decode.go -----

  /** nilItem appends one bracketed index after another to the name. */
  method NilItemAt(place: string, at: seq<nat>) returns (item: Item)
    ensures item == NilItem(place + Indices(at))
  {
    var buf := place;
    assert place + Indices(at[0..]) == place + Indices(at) by { assert at[0..] == at; }
    for i := 0 to |at|
      invariant buf + Indices(at[i..]) == place + Indices(at)
    {
      var longer := buf + "[";
      longer := longer + Itoa(at[i]);
      longer := longer + "]";
      assert at[i..][1..] == at[i + 1..];
      assert longer + Indices(at[i + 1..]) == buf + (Index(at[i]) + Indices(at[i + 1..]));
      buf := longer;
    }
    assert at[|at|..] == [];
    assert buf + "" == buf;
    item := Fault(NIL_AT + buf);
  }

  /**
   presentEach copies the slice only once it meets a nil item:
   it returns the caller's own slice when there is none and a fresh one otherwise, and writes to neither argument.
   */
  method PresentEachOf(items: array<Item>, place: string, at: array<nat>) returns (out: array<Item>)
    ensures out[..] == PresentEach(items[..], place + Indices(at[..]))
    ensures (forall i :: 0 <= i < items.Length ==> !items[i].Nil?) ==> out == items
    ensures (exists i :: 0 <= i < items.Length && items[i].Nil?) ==> fresh(out)
  {
    hide Indices, Index, NilItem;
    ghost var name := place + Indices(at[..]);
    var copy: array?<Item> := null;
    for i := 0 to items.Length
      invariant copy == null ==> forall j :: 0 <= j < i ==> !items[j].Nil?
      invariant copy != null ==> fresh(copy) && copy.Length == items.Length
      invariant copy != null ==> exists j :: 0 <= j < i && items[j].Nil?
      invariant copy != null ==> forall j :: 0 <= j < i ==> copy[j] == Present(items[j], name + Index(j))
      invariant copy != null ==> forall j :: i <= j < items.Length ==> copy[j] == items[j]
    {
      if items[i].Nil? {
        if copy == null {
          copy := new Item[items.Length](j requires 0 <= j < items.Length reads items => items[j]);
        }
        var replacement := NilItemAt(place, at[..] + [i]);
        IndicesSnoc(at[..], i);
        assert place + (Indices(at[..]) + Index(i)) == name + Index(i);
        copy[i] := replacement;
      }
    }
    if copy == null {
      out := items;
    } else {
      out := copy;
    }
  }

  // ----- the errors of a built body -----

  function LeafComplaints(kind: Kind, v: Value, place: string): seq<string>
    requires LeafTyped(kind, v)
  {
    match kind
    case KText => if |v.text| > MAX_BYTE_SIZE then [TEXT_TOO_LONG] else []
    case KBinary => if |v.bytes| > MAX_BYTE_SIZE then [LIST_TOO_LONG] else []
    case KByte => []
    case KBool => []
    case KUint(_) => []
    case KInt(_) => []
    case _ => ItemComplaints(v.item, place)
  }

  /** A supplied item's complaint: that it is nil, and where, or else the errors it brings along. */
  function ItemComplaints(item: Item, place: string): seq<string> {
    if item.Nil? then [NIL_AT + place] else ChildErrors(item)
  }

  /** What is wrong with a builder's arguments, in declaration order. */
  function Complaints(s: Shape, v: Value, place: string): seq<string>
    requires Typed(s, v)
    decreases s, 0
  {
    match s
    case Leaf(kind) => LeafComplaints(kind, v, place)
    case Optional(kind) => if v.NoneV? then [] else LeafComplaints(kind, v.value, place)
    case Items => if |v.values| > MAX_BYTE_SIZE then [LIST_TOO_LONG] else ItemsComplaints(v.values, 0, place)
    case Repeat(elem) =>
      if |v.values| > MAX_BYTE_SIZE then [LIST_TOO_LONG] else ElementComplaints(elem, v.values, 0, place)
    case Group(name, row) => RowComplaints(row, v, name + ".")
    case OptionalGroup(name, row) => if v.NoneV? then [] else RowComplaints(row, v.value, name + ".")
  }

  function RowComplaints(row: Row, v: Value, owner: string): seq<string>
    requires RowTyped(row, v)
    decreases row, 0
  {
    SlotComplaints(row.slots, v.fields, Sent(row, v), owner)
  }

  function ItemsComplaints(vs: seq<Value>, i: nat, place: string): seq<string>
    requires i <= |vs| && forall j :: 0 <= j < |vs| ==> vs[j].ItemV?
    decreases |vs| - i
  {
    if i == |vs| then [] else ItemComplaints(vs[i].item, place + Index(i)) + ItemsComplaints(vs, i + 1, place)
  }

  function ElementComplaints(elem: Shape, vs: seq<Value>, i: nat, place: string): seq<string>
    requires i <= |vs| && forall j :: 0 <= j < |vs| ==> Typed(elem, vs[j])
    decreases elem, 1, |vs| - i
  {
    if i == |vs| then []
    else Complaints(elem, vs[i], place + Index(i)) + ElementComplaints(elem, vs, i + 1, place)
  }

  function SlotComplaints(slots: Slots, vs: Values, n: nat, owner: string): seq<string>
    requires SlotsTyped(slots, vs, n)
    decreases slots, 0
  {
    if n == 0 then []
    else
      match slots
      case End => []
      case Field(name, s, rest) => Complaints(s, vs.value, owner + name) + SlotComplaints(rest, vs.rest, n - 1, owner)
      case Nested(row, rest) => RowComplaints(row, vs.value, owner) + SlotComplaints(rest, vs.rest, n - 1, owner)
  }

  lemma PresentComplains(item: Item, place: string)
    ensures ChildErrors(Present(item, place)) == ItemComplaints(item, place)
  {
  }

  lemma LeafComplains(kind: Kind, v: Value, place: string)
    requires LeafTyped(kind, v)
    ensures ChildErrors(BuildLeaf(kind, v, place)) == LeafComplaints(kind, v, place)
  {
    if v.ItemV? { PresentComplains(v.item, place); }
  }

  lemma {:induction false} ItemsComplain(vs: seq<Value>, built: seq<Item>, i: nat, place: string)
    requires i <= |vs| == |built| && forall j :: 0 <= j < |vs| ==> vs[j].ItemV?
    requires forall j :: 0 <= j < |vs| ==> built[j] == Present(vs[j].item, place + Index(j))
    ensures JoinedErrors(built[i..]) == ItemsComplaints(vs, i, place)
    decreases |vs| - i
  {
    if i < |vs| {
      assert built[i..][0] == built[i] && built[i..][1..] == built[i + 1..];
      PresentComplains(vs[i].item, place + Index(i));
      ItemsComplain(vs, built, i + 1, place);
    }
  }

  /** A built item carries exactly its arguments' complaints, in order. */
  lemma {:induction false} BuiltErrors(s: Shape, v: Value, place: string)
    requires WellFormed(s) && Typed(s, v)
    ensures ChildErrors(Build(s, v, place)) == Complaints(s, v, place)
    decreases s, 0
  {
    match s
    case Leaf(kind) => LeafComplains(kind, v, place);
    case Optional(kind) =>
      if v.SomeV? { LeafComplains(kind, v.value, place); }
    case Items =>
      var built := PresentEach(RawItems(v.values), place);
      if |built| <= MAX_BYTE_SIZE {
        WithoutNilIsIdentity(built);
        ItemsComplain(v.values, built, 0, place);
        assert built[0..] == built;
      }
    case Repeat(elem) =>
      var built := BuildElements(elem, v.values, place);
      if |built| <= MAX_BYTE_SIZE {
        forall i | 0 <= i < |built| ensures !built[i].Nil? {
          BuiltIsPresent(elem, v.values[i], place + Index(i));
        }
        WithoutNilIsIdentity(built);
        ElementsComplain(elem, v.values, built, 0, place);
        assert built[0..] == built;
      }
    case Group(name, row) => RowComplains(row, v, name + ".");
    case OptionalGroup(name, row) =>
      if v.SomeV? { RowComplains(row, v.value, name + "."); }
  }

  lemma {:induction false} ElementsComplain(elem: Shape, vs: seq<Value>, built: seq<Item>, i: nat, place: string)
    requires WellFormed(elem) && i <= |vs| == |built|
    requires forall j :: 0 <= j < |vs| ==> Typed(elem, vs[j])
    requires forall j :: 0 <= j < |vs| ==> built[j] == Build(elem, vs[j], place + Index(j))
    ensures JoinedErrors(built[i..]) == ElementComplaints(elem, vs, i, place)
    decreases elem, 1, |vs| - i
  {
    if i < |vs| {
      assert built[i..][0] == built[i] && built[i..][1..] == built[i + 1..];
      BuiltErrors(elem, vs[i], place + Index(i));
      ElementsComplain(elem, vs, built, i + 1, place);
    }
  }

  lemma {:induction false} RowComplains(row: Row, v: Value, owner: string)
    requires WellFormedRow(row) && RowTyped(row, v)
    ensures ChildErrors(BuildRow(row, v, owner)) == RowComplaints(row, v, owner)
    decreases row, 0
  {
    var built := BuildSlots(row.slots, v.fields, Sent(row, v), owner);
    SlotsArePresent(row.slots, v.fields, Sent(row, v), owner);
    WithoutNilIsIdentity(built);
    SlotsComplain(row.slots, v.fields, Sent(row, v), owner);
  }

  lemma {:induction false} SlotsComplain(slots: Slots, vs: Values, n: nat, owner: string)
    requires WellFormedSlots(slots) && SlotsTyped(slots, vs, n)
    ensures JoinedErrors(BuildSlots(slots, vs, n, owner)) == SlotComplaints(slots, vs, n, owner)
    decreases slots, 0
  {
    if n > 0 {
      var built := BuildSlots(slots, vs, n, owner);
      match slots
      case End =>
      case Field(name, s, rest) =>
        assert built[0] == Build(s, vs.value, owner + name) && built[1..] == BuildSlots(rest, vs.rest, n - 1, owner);
        BuiltErrors(s, vs.value, owner + name);
        SlotsComplain(rest, vs.rest, n - 1, owner);
      case Nested(row, rest) =>
        assert built[0] == BuildRow(row, vs.value, owner) && built[1..] == BuildSlots(rest, vs.rest, n - 1, owner);
        RowComplains(row, vs.value, owner);
        SlotsComplain(rest, vs.rest, n - 1, owner);
    }
  }

  /** A body carries exactly the complaints about its arguments, in declaration order, and no error without one. */
  lemma BodyErrors(title: string, row: Row, v: Value)
    requires WellFormedRow(row) && RowTyped(row, v)
    ensures Errors(BuildBody(title, row, v)) == RowComplaints(row, v, title + " ")
  {
    RowComplains(row, v, title + " ");
  }

  // ----- every part keeps its place -----

  /** The item a path of child indices leads to. */
  function Walk(item: Item, path: Path): Option<Item>
    decreases path
  {
    if path == [] then Some(item)
    else if item.List? && path[0] < |item.items| then Walk(item.items[path[0]], path[1..])
    else None
  }

  /** What a body must hold at one position: an item the caller supplied, with its name, or a list of a declared length. */
  datatype Part = Supplied(item: Item, name: string) | Listed(count: nat)

  ghost predicate Holds(item: Option<Item>, part: Part) {
    match part
    case Supplied(i, name) => item == Some(if i.Nil? then NilItem(name) else i)
    case Listed(count) => item.Some? && item.value.List? && |item.value.items| == count
  }

  function LeafPart(kind: Kind, v: Value, place: string): Option<Part> {
    if v.ItemV? then Some(Supplied(v.item, place)) else None
  }

  /** The part the arguments call for at `path`; a repeat past the list limit has none. */
  function PartAt(s: Shape, v: Value, place: string, path: Path): Option<Part>
    requires Typed(s, v)
    decreases s, 0
  {
    match s
    case Leaf(kind) => if path == [] then LeafPart(kind, v, place) else None
    case Optional(_) => None
    case Items =>
      if |v.values| > MAX_BYTE_SIZE then None
      else if path == [] then Some(Listed(|v.values|))
      else if path[0] < |v.values| && |path| == 1 then Some(Supplied(v.values[path[0]].item, place + Index(path[0])))
      else None
    case Repeat(elem) =>
      if |v.values| > MAX_BYTE_SIZE then None
      else if path == [] then Some(Listed(|v.values|))
      else if path[0] < |v.values| then PartAt(elem, v.values[path[0]], place + Index(path[0]), path[1..])
      else None
    case Group(name, row) => PartInRow(row, v, name + ".", path)
    case OptionalGroup(name, row) =>
      if v.SomeV? then PartInRow(row, v.value, name + ".", path)
      else if path == [] then Some(Listed(0))
      else None
  }

  function PartInRow(row: Row, v: Value, owner: string, path: Path): Option<Part>
    requires RowTyped(row, v)
    decreases row, 0
  {
    if path == [] then Some(Listed(Sent(row, v)))
    else if path[0] >= Sent(row, v) then None
    else PartInSlots(row.slots, v.fields, Sent(row, v), path[0], owner, path[1..])
  }

  /** The part at `path` inside slot `k`, counted from the first slot left. */
  function PartInSlots(slots: Slots, vs: Values, n: nat, k: nat, owner: string, path: Path): Option<Part>
    requires SlotsTyped(slots, vs, n) && k < n
    decreases slots, 0
  {
    match slots
    case End => None
    case Field(name, s, rest) =>
      if k == 0 then PartAt(s, vs.value, owner + name, path) else PartInSlots(rest, vs.rest, n - 1, k - 1, owner, path)
    case Nested(row, rest) =>
      if k == 0 then PartInRow(row, vs.value, owner, path) else PartInSlots(rest, vs.rest, n - 1, k - 1, owner, path)
  }

  /**
   A builder keeps every part at its own path: each supplied item, or in place of a nil one the error that names it,
   and each list at its declared length, however many of its siblings are nil.
   */
  lemma {:induction false} PartsKeepTheirPlace(s: Shape, v: Value, place: string, path: Path)
    requires WellFormed(s) && Typed(s, v) && PartAt(s, v, place, path).Some?
    ensures Holds(Walk(Build(s, v, place), path), PartAt(s, v, place, path).value)
    decreases s, 0
  {
    match s
    case Leaf(_) =>
    case Items =>
      var built := PresentEach(RawItems(v.values), place);
      WithoutNilIsIdentity(built);
    case Repeat(elem) =>
      var built := BuildElements(elem, v.values, place);
      forall i | 0 <= i < |built| ensures !built[i].Nil? {
        BuiltIsPresent(elem, v.values[i], place + Index(i));
      }
      WithoutNilIsIdentity(built);
      if path != [] {
        PartsKeepTheirPlace(elem, v.values[path[0]], place + Index(path[0]), path[1..]);
      }
    case Group(name, row) => RowPartsKeepTheirPlace(row, v, name + ".", path);
    case OptionalGroup(name, row) =>
      if v.SomeV? { RowPartsKeepTheirPlace(row, v.value, name + ".", path); }
  }

  lemma {:induction false} RowPartsKeepTheirPlace(row: Row, v: Value, owner: string, path: Path)
    requires WellFormedRow(row) && RowTyped(row, v) && PartInRow(row, v, owner, path).Some?
    ensures Holds(Walk(BuildRow(row, v, owner), path), PartInRow(row, v, owner, path).value)
    decreases row, 0
  {
    var built := BuildSlots(row.slots, v.fields, Sent(row, v), owner);
    SlotsArePresent(row.slots, v.fields, Sent(row, v), owner);
    WithoutNilIsIdentity(built);
    if path != [] {
      SlotPartsKeepTheirPlace(row.slots, v.fields, Sent(row, v), path[0], owner, path[1..]);
    }
  }

  lemma {:induction false} SlotPartsKeepTheirPlace(slots: Slots, vs: Values, n: nat, k: nat, owner: string, path: Path)
    requires WellFormedSlots(slots) && SlotsTyped(slots, vs, n) && k < n <= Len(slots)
    requires PartInSlots(slots, vs, n, k, owner, path).Some?
    ensures Holds(Walk(BuildSlots(slots, vs, n, owner)[k], path), PartInSlots(slots, vs, n, k, owner, path).value)
    decreases slots, 0
  {
    if k > 0 {
      SlotPartsKeepTheirPlace(slots.rest, vs.rest, n - 1, k - 1, owner, path);
    } else {
      match slots
      case Field(name, s, _) => PartsKeepTheirPlace(s, vs.value, owner + name, path);
      case Nested(row, _) => RowPartsKeepTheirPlace(row, vs.value, owner, path);
    }
  }

  // ----- both sides name a position alike -----

  /** A group that holds a position, with its place as the decoder names it. */
  datatype Holder = Holder(name: string, place: string)

  /** The innermost group on the path. */
  function HolderOf(s: Shape, place: string, path: Path): Option<Holder>
    decreases s, 0
  {
    match s
    case Repeat(elem) => if path == [] then None else HolderOf(elem, place + Index(path[0]), path[1..])
    case Group(name, row) => Within(HolderInRow(row, place + ".", path), Holder(name, place))
    case OptionalGroup(name, row) => Within(HolderInRow(row, place + ".", path), Holder(name, place))
    case _ => None
  }

  function Within(inner: Option<Holder>, outer: Holder): Option<Holder> {
    if inner.Some? then inner else Some(outer)
  }

  function HolderInRow(row: Row, prefix: string, path: Path): Option<Holder>
    decreases row, 0
  {
    if path == [] then None else HolderInSlots(row.slots, 0, prefix, path)
  }

  function HolderInSlots(slots: Slots, k: nat, prefix: string, path: Path): Option<Holder>
    requires path != []
    decreases slots, 0
  {
    match slots
    case End => None
    case Field(name, s, rest) =>
      if path[0] == k then HolderOf(s, prefix + name, path[1..]) else HolderInSlots(rest, k + 1, prefix, path)
    case Nested(row, rest) =>
      if path[0] == k then HolderInRow(row, prefix, path[1..]) else HolderInSlots(rest, k + 1, prefix, path)
  }

  /**
   The builder's name is `t` after the name of the group that holds the position, and the decoder's is `t` after that
   group's place; outside every group the two start with what each side was given.
   */
  predicate Alike(name: string, place: string, holder: Option<Holder>, where: string, prefix: string, t: string) {
    match holder
    case None => name == where + t && place == prefix + t
    case Some(g) => name == g.name + "." + t && place == g.place + "." + t
  }

  /**
   An item the caller supplies and the item the decoder reads at the same path have the same name, indices included,
   from the innermost group that holds them on, and that part names a single field.
   Items a decoder returns unread have no name on its side.
   */
  lemma {:induction false} NamesAgree(s: Shape, v: Value, where: string, place: string, path: Path) returns (t: string)
    requires Typed(s, v) && PartAt(s, v, where, path).Some? && PartAt(s, v, where, path).value.Supplied?
    requires PlaceOf(s, place, path).Some?
    ensures Alike(PartAt(s, v, where, path).value.name, PlaceOf(s, place, path).value, HolderOf(s, place, path),
                  where, place, t)
    ensures NamesDistinct(s) ==> FreeOf(t, {'.'})
    decreases s, 0
  {
    match s
    case Leaf(_) =>
      t := "";
      assert where + "" == where && place + "" == place;
    case Repeat(elem) =>
      var step := Index(path[0]);
      IndexHasNoDot(path[0]);
      t := NamesAgree(elem, v.values[path[0]], where + step, place + step, path[1..]);
      t := Lengthen(HolderOf(s, place, path), where, place, step, t);
    case Group(name, row) =>
      t := RowNamesAgree(row, v, name + ".", place + ".", place, path);
    case OptionalGroup(name, row) =>
      t := RowNamesAgree(row, v.value, name + ".", place + ".", place, path);
  }

  lemma IndexHasNoDot(i: nat)
    ensures FreeOf(Index(i), {'.'})
  {
  }

  /** A step both names take outside every group is part of what they share. */
  lemma Lengthen(holder: Option<Holder>, where: string, prefix: string, step: string, t: string) returns (t': string)
    ensures forall name, place | Alike(name, place, holder, where + step, prefix + step, t) ::
              Alike(name, place, holder, where, prefix, t')
    ensures FreeOf(step, {'.'}) && FreeOf(t, {'.'}) ==> FreeOf(t', {'.'})
  {
    t' := if holder.None? then step + t else t;
    assert where + step + t == where + (step + t) && prefix + step + t == prefix + (step + t);
  }

  lemma {:induction false} RowNamesAgree(row: Row, v: Value, own: string, pre: string, place: string, path: Path)
    returns (t: string)
    requires RowTyped(row, v) && PartInRow(row, v, own, path).Some? && PartInRow(row, v, own, path).value.Supplied?
    requires PlaceInRow(row, pre, place, path).Some?
    ensures Alike(PartInRow(row, v, own, path).value.name, PlaceInRow(row, pre, place, path).value,
                  HolderInRow(row, pre, path), own, pre, t)
    ensures SlotNamesDistinct(row.slots) ==> FreeOf(t, {'.'})
    decreases row, 0
  {
    t := SlotNamesAgree(row.slots, v.fields, Sent(row, v), 0, own, pre, place, path);
  }

  lemma {:induction false} SlotNamesAgree(slots: Slots, vs: Values, n: nat, k: nat, own: string, pre: string,
                                         place: string, path: Path)
    returns (t: string)
    requires SlotsTyped(slots, vs, n) && path != [] && k <= path[0] < k + n
    requires var part := PartInSlots(slots, vs, n, path[0] - k, own, path[1..]); part.Some? && part.value.Supplied?
    requires PlaceInSlots(slots, k, pre, place, path).Some?
    ensures Alike(PartInSlots(slots, vs, n, path[0] - k, own, path[1..]).value.name,
                  PlaceInSlots(slots, k, pre, place, path).value, HolderInSlots(slots, k, pre, path), own, pre, t)
    ensures SlotNamesDistinct(slots) ==> FreeOf(t, {'.'})
    decreases slots, 0
  {
    if k < path[0] {
      t := SlotNamesAgree(slots.rest, vs.rest, n - 1, k + 1, own, pre, place, path);
    } else {
      match slots
      case Field(name, s, _) =>
        t := NamesAgree(s, vs.value, own + name, pre + name, path[1..]);
        t := Lengthen(HolderOf(s, pre + name, path[1..]), own, pre, name, t);
      case Nested(row, _) =>
        t := RowNamesAgree(row, vs.value, own, pre, place + Index(k), path[1..]);
    }
  }
}
