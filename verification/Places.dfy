/**
 Error places: which position a decode error is about, that it is the first failing one,
 and that its name belongs to no other position.
 */
module Places {
  import opened Secs2
  import opened Decimal
  import opened Decoding
  import opened Shapes
  import opened Acceptance

  /** A position in a body, as the child indices that lead to it. */
  type Path = seq<nat>

  /** Declaration order between positions neither of which holds the other. */
  predicate Before(p: Path, q: Path) {
    p != [] && q != [] && (p[0] < q[0] || (p[0] == q[0] && Before(p[1..], q[1..])))
  }

  /** It is the lexicographic order: the paths agree up to some depth, and there the first takes the earlier child. */
  lemma {:induction false} BeforeIsLexicographic(p: Path, q: Path)
    ensures Before(p, q) <==> exists k :: 0 <= k < |p| && k < |q| && p[..k] == q[..k] && p[k] < q[k]
  {
    if p != [] && q != [] {
      if p[0] < q[0] {
        assert p[..0] == q[..0];
      } else {
        BeforeIsLexicographic(p[1..], q[1..]);
        if k :| 0 <= k < |p| && k < |q| && p[..k] == q[..k] && p[k] < q[k] {
          assert k > 0 && p[0] == p[..k][0] == q[..k][0] == q[0];
          assert p[1..][..k - 1] == p[..k][1..] == q[..k][1..] == q[1..][..k - 1];
          assert p[1..][k - 1] < q[1..][k - 1];
        }
        if p[0] == q[0] && Before(p[1..], q[1..]) {
          var k :| 0 <= k < |p[1..]| && k < |q[1..]| && p[1..][..k] == q[1..][..k] && p[1..][k] < q[1..][k];
          assert p[..k + 1] == [p[0]] + p[1..][..k] == [q[0]] + q[1..][..k] == q[..k + 1];
          assert p[k + 1] < q[k + 1];
        }
      }
    }
  }

  /** No two positions each come before the other, and none comes before itself or a position inside it. */
  lemma {:induction false} BeforeIsStrict(p: Path, q: Path)
    ensures !(Before(p, q) && Before(q, p))
    ensures p <= q ==> !Before(p, q) && !Before(q, p)
  {
    if p != [] && q != [] {
      BeforeIsStrict(p[1..], q[1..]);
    }
  }

  // ----- what each position is called -----

  function PlaceOf(s: Shape, place: string, path: Path): Option<string>
    decreases s, 0
  {
    if path == [] then Some(place)
    else
      match s
      case Repeat(elem) => PlaceOf(elem, place + Index(path[0]), path[1..])
      case Group(_, row) => PlaceInRow(row, place + ".", place, path)
      case OptionalGroup(_, row) => PlaceInRow(row, place + ".", place, path)
      case _ => None
  }

  function PlaceInRow(row: Row, prefix: string, place: string, path: Path): Option<string>
    decreases row, 0
  {
    if path == [] then Some(place) else PlaceInSlots(row.slots, 0, prefix, place, path)
  }

  function PlaceInSlots(slots: Slots, k: nat, prefix: string, place: string, path: Path): Option<string>
    requires path != []
    decreases slots, 0
  {
    match slots
    case End => None
    case Field(name, s, rest) =>
      if path[0] == k then PlaceOf(s, prefix + name, path[1..]) else PlaceInSlots(rest, k + 1, prefix, place, path)
    case Nested(row, rest) =>
      if path[0] == k then PlaceInRow(row, prefix, place + Index(k), path[1..])
      else PlaceInSlots(rest, k + 1, prefix, place, path)
  }

  // ----- which positions fail -----

  /** The check a decoder makes at one position, before it looks at any child. */
  predicate PassesHere(s: Shape, item: Item, lenient: bool) {
    Readable(item) &&
    match s
    case Leaf(kind) => LeafConforms(kind, item)
    case Optional(kind) => LeafConforms(kind, item) || ZeroLength(kind, item)
    case Items => item.List?
    case Repeat(_) => item.List?
    case Group(_, row) => RowPassesHere(row, item, lenient)
    case OptionalGroup(_, row) => item == List([]) || (RowPassesHere(row, item, lenient) && |item.items| >= Len(row.slots))
  }

  predicate RowPassesHere(row: Row, item: Item, lenient: bool) {
    Readable(item) && item.List? && Filled(row, |item.items|, lenient).Some?
  }

  /** The position `path` is reached through positions that pass, and fails. */
  predicate FailsAt(s: Shape, item: Item, path: Path, lenient: bool)
    decreases s, 0
  {
    if path == [] then !PassesHere(s, item, lenient)
    else
      PassesHere(s, item, lenient) &&
      match s
      case Repeat(elem) => path[0] < |item.items| && FailsAt(elem, item.items[path[0]], path[1..], lenient)
      case Group(_, row) => RowFailsAt(row, item, path, lenient)
      case OptionalGroup(_, row) => item != List([]) && RowFailsAt(row, item, path, lenient)
      case _ => false
  }

  predicate RowFailsAt(row: Row, item: Item, path: Path, lenient: bool)
    decreases row, 0
  {
    if path == [] then !RowPassesHere(row, item, lenient)
    else
      RowPassesHere(row, item, lenient) &&
      SlotFailsAt(row.slots, item.items, 0, Filled(row, |item.items|, lenient).value, path, lenient)
  }

  predicate SlotFailsAt(slots: Slots, items: seq<Item>, k: nat, n: nat, path: Path, lenient: bool)
    requires path != [] && n <= |items|
    decreases slots, 0
  {
    k < n &&
    match slots
    case End => false
    case Field(_, s, rest) =>
      if path[0] == k then FailsAt(s, items[k], path[1..], lenient)
      else SlotFailsAt(rest, items, k + 1, n, path, lenient)
    case Nested(row, rest) =>
      if path[0] == k then RowFailsAt(row, items[k], path[1..], lenient)
      else SlotFailsAt(rest, items, k + 1, n, path, lenient)
  }

  /** Whether an element fails does not depend on the elements beside it. */
  lemma FailuresInRepeatsAreLocal(elem: Shape, a: seq<Item>, b: seq<Item>, path: Path, lenient: bool)
    requires path != [] && path[0] < |a| && path[0] < |b| && a[path[0]] == b[path[0]]
    requires Readable(List(a)) && Readable(List(b))
    ensures FailsAt(Repeat(elem), List(a), path, lenient) == FailsAt(Repeat(elem), List(b), path, lenient)
    ensures FailsAt(Repeat(elem), List(a), path, lenient) == FailsAt(elem, a[path[0]], path[1..], lenient)
  {
  }

  /** Whether a field fails does not depend on the fields beside it. */
  lemma FailuresInRowsAreLocal(row: Row, a: seq<Item>, b: seq<Item>, path: Path, lenient: bool)
    requires path != [] && |a| == |b| && path[0] < |a| && a[path[0]] == b[path[0]]
    requires Readable(List(a)) && Readable(List(b))
    ensures RowFailsAt(row, List(a), path, lenient) == RowFailsAt(row, List(b), path, lenient)
  {
    var n := Filled(row, |a|, lenient);
    if n.Some? {
      FailuresInSlotsAreLocal(row.slots, a, b, 0, n.value, path, lenient);
    }
  }

  lemma {:induction false} FailuresInSlotsAreLocal(slots: Slots, a: seq<Item>, b: seq<Item>, k: nat, n: nat, path: Path,
                                                  lenient: bool)
    requires path != [] && n <= |a| == |b| && path[0] < |a| && a[path[0]] == b[path[0]]
    ensures SlotFailsAt(slots, a, k, n, path, lenient) == SlotFailsAt(slots, b, k, n, path, lenient)
    decreases slots
  {
    if k < n && !slots.End? && path[0] != k {
      FailuresInSlotsAreLocal(slots.rest, a, b, k + 1, n, path, lenient);
    }
  }

  // ----- the first failure wins -----

  /** `p` is a failing position, and every other failing position comes after it. */
  ghost predicate FirstFailing(s: Shape, item: Item, lenient: bool, p: Path) {
    FailsAt(s, item, p, lenient) && forall q :: FailsAt(s, item, q, lenient) ==> q == p || Before(p, q)
  }

  ghost predicate FirstFailingInRow(row: Row, item: Item, lenient: bool, p: Path) {
    RowFailsAt(row, item, p, lenient) && forall q :: RowFailsAt(row, item, q, lenient) ==> q == p || Before(p, q)
  }

  lemma LeafFailsHere(s: Shape, item: Item, place: string, lenient: bool)
    requires WellFormed(s) && (s.Leaf? || s.Optional? || s.Items?)
    ensures Decode(s, item, place, lenient).Ok? <==> PassesHere(s, item, lenient)
    ensures Decode(s, item, place, lenient).Err? ==> Decode(s, item, place, lenient).error.place == place
  {
    if Readable(item) && !s.Items? {
      LeafAcceptsExactly(s.kind, item, place);
    }
  }

  /**
   A decoder reports the failing position that comes first in declaration order,
   at its full depth, and succeeds exactly when no position fails.
   */
  lemma {:induction false} FirstFailureWins(s: Shape, item: Item, place: string, lenient: bool) returns (p: Path)
    requires WellFormed(s)
    ensures Decode(s, item, place, lenient).Ok? ==> forall q :: !FailsAt(s, item, q, lenient)
    ensures Decode(s, item, place, lenient).Err? ==>
              FirstFailing(s, item, lenient, p) &&
              PlaceOf(s, place, p) == Some(Decode(s, item, place, lenient).error.place)
    decreases s, 0
  {
    match s
    case Repeat(elem) => p := FirstInRepeat(elem, item, place, lenient);
    case Group(_, row) => p := FirstInGroup(s, item, place, lenient);
    case OptionalGroup(_, row) =>
      p := [];
      if item != List([]) {
        p := FirstInGroup(s, item, place, lenient);
      }
    case _ =>
      p := [];
      LeafFailsHere(s, item, place, lenient);
  }

  lemma {:induction false} FirstInGroup(s: Shape, item: Item, place: string, lenient: bool) returns (p: Path)
    requires WellFormed(s) && (s.Group? || (s.OptionalGroup? && item != List([])))
    ensures Decode(s, item, place, lenient).Ok? ==> forall q :: !FailsAt(s, item, q, lenient)
    ensures Decode(s, item, place, lenient).Err? ==>
              FirstFailing(s, item, lenient, p) &&
              PlaceOf(s, place, p) == Some(Decode(s, item, place, lenient).error.place)
    decreases s.row, 1
  {
    hide Decode, DecodeRow, FailsAt, RowFailsAt, PlaceOf, PlaceInRow;
    p := FirstInRow(s.row, item, place + ".", place, lenient);
    GroupDecodesAsItsRow(s, item, place, lenient);
    forall q: Path
      ensures FailsAt(s, item, q, lenient) == RowFailsAt(s.row, item, q, lenient)
      ensures PlaceOf(s, place, q) == PlaceInRow(s.row, place + ".", place, q)
    {
      GroupFailsAsItsRow(s, item, place, q, lenient);
    }
  }

  lemma GroupDecodesAsItsRow(s: Shape, item: Item, place: string, lenient: bool)
    requires WellFormed(s) && (s.Group? || (s.OptionalGroup? && item != List([])))
    ensures var r, inner := Decode(s, item, place, lenient), DecodeRow(s.row, item, place + ".", place, lenient);
            && r.Ok? == inner.Ok?
            && (r.Err? ==> r.error.place == inner.error.place)
  {
  }

  lemma GroupFailsAsItsRow(s: Shape, item: Item, place: string, q: Path, lenient: bool)
    requires WellFormed(s) && (s.Group? || (s.OptionalGroup? && item != List([])))
    ensures FailsAt(s, item, q, lenient) == RowFailsAt(s.row, item, q, lenient)
    ensures PlaceOf(s, place, q) == PlaceInRow(s.row, place + ".", place, q)
  {
  }

  lemma {:induction false} FirstInRepeat(elem: Shape, item: Item, place: string, lenient: bool) returns (p: Path)
    requires WellFormed(elem)
    ensures var s := Repeat(elem);
            && (Decode(s, item, place, lenient).Ok? ==> forall q :: !FailsAt(s, item, q, lenient))
            && (Decode(s, item, place, lenient).Err? ==>
                  FirstFailing(s, item, lenient, p) &&
                  PlaceOf(s, place, p) == Some(Decode(s, item, place, lenient).error.place))
    decreases elem, 2
  {
    var s := Repeat(elem);
    p := [];
    if PassesHere(s, item, lenient) {
      p := FirstInElements(elem, item.items, 0, place, lenient);
      forall q | FailsAt(s, item, q, lenient)
        ensures q != [] && q[0] < |item.items| && ElementFailsAt(elem, item.items, q[0], q[1..], lenient)
      {
      }
      forall q | Decode(s, item, place, lenient).Err? && FailsAt(s, item, q, lenient) ensures q == p || Before(p, q) {
        assert q == [q[0]] + q[1..];
      }
    }
  }

  predicate ElementFailsAt(elem: Shape, items: seq<Item>, j: nat, q: Path, lenient: bool)
    requires j < |items|
  {
    FailsAt(elem, items[j], q, lenient)
  }

  /** Among the elements from `i` on, `p` is the failing position that comes first. */
  ghost predicate FirstFailingElement(elem: Shape, items: seq<Item>, i: nat, lenient: bool, p: Path) {
    && p != [] && i <= p[0] < |items|
    && ElementFailsAt(elem, items, p[0], p[1..], lenient)
    && forall j: nat, q :: i <= j < |items| && ElementFailsAt(elem, items, j, q, lenient) ==> NotAfter(p, j, q)
  }

  predicate NotAfter(p: Path, j: nat, q: Path) {
    p != [] && (p[0] < j || (p[0] == j && (q == p[1..] || Before(p[1..], q))))
  }

  ghost predicate NoElementFails(elem: Shape, items: seq<Item>, i: nat, lenient: bool) {
    forall j: nat, q :: i <= j < |items| ==> !ElementFailsAt(elem, items, j, q, lenient)
  }

  lemma {:induction false} FirstInElements(elem: Shape, items: seq<Item>, i: nat, place: string, lenient: bool) returns (p: Path)
    requires WellFormed(elem) && i <= |items|
    ensures DecodeElements(elem, items, i, place, lenient).Ok? ==> NoElementFails(elem, items, i, lenient)
    ensures DecodeElements(elem, items, i, place, lenient).Err? ==>
              && FirstFailingElement(elem, items, i, lenient, p)
              && PlaceOf(elem, place + Index(p[0]), p[1..]) == Some(DecodeElements(elem, items, i, place, lenient).error.place)
    decreases elem, 1, |items| - i
  {
    p := [];
    if i < |items| {
      var inner := FirstFailureWins(elem, items[i], place + Index(i), lenient);
      if Decode(elem, items[i], place + Index(i), lenient).Err? {
        p := [i] + inner;
        assert p[1..] == inner;
        assert ElementFailsAt(elem, items, i, inner, lenient);
        forall j: nat, q | i <= j < |items| && ElementFailsAt(elem, items, j, q, lenient) ensures NotAfter(p, j, q) {
        }
      } else {
        p := FirstInElements(elem, items, i + 1, place, lenient);
        forall q ensures !ElementFailsAt(elem, items, i, q, lenient) {
        }
      }
    }
  }

  lemma {:induction false} FirstInRow(row: Row, item: Item, prefix: string, place: string, lenient: bool) returns (p: Path)
    requires WellFormedRow(row)
    ensures DecodeRow(row, item, prefix, place, lenient).Ok? ==> forall q :: !RowFailsAt(row, item, q, lenient)
    ensures DecodeRow(row, item, prefix, place, lenient).Err? ==>
              FirstFailingInRow(row, item, lenient, p) &&
              PlaceInRow(row, prefix, place, p) == Some(DecodeRow(row, item, prefix, place, lenient).error.place)
    decreases row, 0
  {
    p := [];
    if RowPassesHere(row, item, lenient) {
      var n := Filled(row, |item.items|, lenient).value;
      p := FirstInSlots(row.slots, item.items, 0, n, prefix, place, lenient);
    }
  }

  /** A failing path below slot `k` starts at `k` or later. */
  lemma {:induction false} SlotPathStarts(slots: Slots, items: seq<Item>, k: nat, n: nat, path: Path, lenient: bool)
    requires path != [] && n <= |items| && SlotFailsAt(slots, items, k, n, path, lenient)
    ensures k <= path[0]
    decreases slots
  {
    if path[0] != k {
      SlotPathStarts(slots.rest, items, k + 1, n, path, lenient);
    }
  }

  lemma {:induction false} FirstInSlots(slots: Slots, items: seq<Item>, k: nat, n: nat,
                                        prefix: string, place: string, lenient: bool) returns (p: Path)
    requires WellFormedSlots(slots) && n <= |items|
    ensures DecodeSlots(slots, items, k, n, prefix, place, lenient).Ok? ==>
              forall q | q != [] :: !SlotFailsAt(slots, items, k, n, q, lenient)
    ensures DecodeSlots(slots, items, k, n, prefix, place, lenient).Err? ==>
              && p != [] && k <= p[0] && SlotFailsAt(slots, items, k, n, p, lenient)
              && PlaceInSlots(slots, k, prefix, place, p) ==
                   Some(DecodeSlots(slots, items, k, n, prefix, place, lenient).error.place)
              && forall q | q != [] :: SlotFailsAt(slots, items, k, n, q, lenient) ==> q == p || Before(p, q)
    decreases slots, 0
  {
    p := [];
    if k < n && !slots.End? {
      var inner;
      var here;
      if slots.Field? {
        inner := FirstFailureWins(slots.shape, items[k], prefix + slots.name, lenient);
        here := Decode(slots.shape, items[k], prefix + slots.name, lenient);
      } else {
        inner := FirstInRow(slots.row, items[k], prefix, place + Index(k), lenient);
        here := DecodeRow(slots.row, items[k], prefix, place + Index(k), lenient);
      }
      if here.Err? {
        p := [k] + inner;
        forall q | q != [] && SlotFailsAt(slots, items, k, n, q, lenient) ensures q == p || Before(p, q) {
          SlotPathStarts(slots, items, k, n, q, lenient);
          assert q == [q[0]] + q[1..];
        }
      } else {
        p := FirstInSlots(slots.rest, items, k + 1, n, prefix, place, lenient);
      }
    }
  }

  /** The error of a body decoder is about the first failing position of the body, in either mode, whatever the item. */
  lemma BodyFirstFailureWins(title: string, row: Row, item: Item, lenient: bool) returns (p: Path)
    requires WellFormedRow(row)
    ensures DecodeBody(title, row, item, lenient).Ok? ==> forall q :: !RowFailsAt(row, item, q, lenient)
    ensures DecodeBody(title, row, item, lenient).Err? ==>
              FirstFailingInRow(row, item, lenient, p) &&
              PlaceInRow(row, "", title + " body", p) == Some(DecodeBody(title, row, item, lenient).error.place)
  {
    p := FirstInRow(row, item, "", title + " body", lenient);
  }

  // ----- places are unambiguous -----

  const STOPS := {'[', '.'}
  const BREAKS := {'[', '.', ' '}

  /** A field name is a Go identifier, so it holds none of the characters that separate the parts of a place. */
  predicate GoodName(name: string) {
    FreeOf(name, BREAKS)
  }

  function FieldNames(slots: Slots): set<string> {
    match slots
    case End => {}
    case Field(name, _, rest) => {name} + FieldNames(rest)
    case Nested(row, rest) => FieldNames(row.slots) + FieldNames(rest)
  }

  /** The fields of one struct, those of the lists nested in it included, have different names. */
  predicate NamesDistinct(s: Shape) {
    match s
    case Repeat(elem) => NamesDistinct(elem)
    case Group(_, row) => SlotNamesDistinct(row.slots)
    case OptionalGroup(_, row) => SlotNamesDistinct(row.slots)
    case _ => true
  }

  predicate SlotNamesDistinct(slots: Slots) {
    match slots
    case End => true
    case Field(name, s, rest) =>
      GoodName(name) && name !in FieldNames(rest) && NamesDistinct(s) && SlotNamesDistinct(rest)
    case Nested(row, rest) =>
      SlotNamesDistinct(row.slots) && FieldNames(row.slots) !! FieldNames(rest) && SlotNamesDistinct(rest)
  }

  /** A number that tells a name from the others of its struct: made of its size and of three of its characters. */
  function TagOf(name: string): int {
    if |name| < 3 then |name|
    else ((|name| * 1000 + name[0] as int) * 1000 + name[2] as int) * 1000 + name[|name| - 1] as int
  }

  function FieldTags(slots: Slots): set<int> {
    match slots
    case End => {}
    case Field(name, _, rest) => {TagOf(name)} + FieldTags(rest)
    case Nested(row, rest) => FieldTags(row.slots) + FieldTags(rest)
  }

  lemma {:induction false} TagsOfNames(slots: Slots)
    ensures forall name :: name in FieldNames(slots) ==> TagOf(name) in FieldTags(slots)
  {
    match slots
    case End =>
    case Field(_, _, rest) => TagsOfNames(rest);
    case Nested(row, rest) =>
      TagsOfNames(row.slots);
      TagsOfNames(rest);
  }

  /** A field with a proper name, of this tag. */
  predicate Tagged(slots: Slots, tag: int) {
    slots.Field? && GoodName(slots.name) && TagOf(slots.name) == tag && NamesDistinct(slots.shape)
  }

  lemma NoNames() returns (all: set<int>)
    ensures SlotNamesDistinct(End) && FieldTags(End) == all == {}
  {
    all := {};
  }

  /** A field whose tag is new among the fields after it has a new name. */
  lemma NamesStep(slots: Slots, tag: int, tags: set<int>) returns (all: set<int>)
    requires Tagged(slots, tag)
    requires SlotNamesDistinct(slots.rest) && FieldTags(slots.rest) == tags && tag !in tags
    ensures SlotNamesDistinct(slots) && FieldTags(slots) == all == {tag} + tags
  {
    TagsOfNames(slots.rest);
    all := {tag} + tags;
  }

  lemma NamesNested(slots: Slots, inner: set<int>, tags: set<int>) returns (all: set<int>)
    requires slots.Nested? && FieldTags(slots.row.slots) == inner && FieldTags(slots.rest) == tags && inner !! tags
    requires SlotNamesDistinct(slots.row.slots) && SlotNamesDistinct(slots.rest)
    ensures SlotNamesDistinct(slots) && FieldTags(slots) == all == inner + tags
  {
    TagsOfNames(slots.row.slots);
    TagsOfNames(slots.rest);
    all := inner + tags;
  }

  /** The field a path enters: its name, its shape, and the path inside it. */
  datatype Entry = Entry(name: string, shape: Shape, inner: Path)

  /** The field of the row's struct the path enters, through nested lists; none when it ends at one of those lists. */
  function FieldOn(slots: Slots, k: nat, path: Path): Option<Entry>
    decreases slots
  {
    if path == [] then None
    else
      match slots
      case End => None
      case Field(name, s, rest) =>
        if path[0] == k then Some(Entry(name, s, path[1..])) else FieldOn(rest, k + 1, path)
      case Nested(row, rest) =>
        if path[0] == k then FieldOn(row.slots, 0, path[1..]) else FieldOn(rest, k + 1, path)
  }

  lemma {:induction false} FieldOnIsGood(slots: Slots, k: nat, path: Path)
    requires SlotNamesDistinct(slots) && FieldOn(slots, k, path).Some?
    ensures var e := FieldOn(slots, k, path).value;
            GoodName(e.name) && e.name in FieldNames(slots) && NamesDistinct(e.shape) && e.shape < slots
    decreases slots
  {
    match slots
    case Field(_, _, rest) =>
      if path[0] != k { FieldOnIsGood(rest, k + 1, path); }
    case Nested(row, rest) =>
      if path[0] == k { FieldOnIsGood(row.slots, 0, path[1..]); } else { FieldOnIsGood(rest, k + 1, path); }
  }

  /** A position inside a row is named after the field it enters, or else after the nested lists it passes. */
  lemma {:induction false} PlaceByField(slots: Slots, k: nat, prefix: string, place: string, path: Path)
    requires path != [] && PlaceInSlots(slots, k, prefix, place, path).Some?
    ensures match FieldOn(slots, k, path)
            case Some(e) => PlaceInSlots(slots, k, prefix, place, path) == PlaceOf(e.shape, prefix + e.name, e.inner)
            case None => PlaceInSlots(slots, k, prefix, place, path) == Some(place + Indices(path))
    decreases slots
  {
    match slots
    case Field(_, _, rest) =>
      if path[0] != k { PlaceByField(rest, k + 1, prefix, place, path); }
    case Nested(row, rest) =>
      if path[0] == k {
        var deep := place + Index(k);
        if path[1..] != [] {
          PlaceByField(row.slots, 0, prefix, deep, path[1..]);
        }
        assert Indices(path) == Index(k) + Indices(path[1..]);
        assert place + Indices(path) == deep + Indices(path[1..]);
        assert path[1..] == [] ==> deep + Indices(path[1..]) == deep;
      } else {
        PlaceByField(rest, k + 1, prefix, place, path);
      }
  }

  /** Two paths that enter fields of the same name enter the same field, and differ only inside it. */
  lemma {:induction false} SameNameSameField(slots: Slots, k: nat, p: Path, q: Path)
    requires SlotNamesDistinct(slots)
    requires FieldOn(slots, k, p).Some? && FieldOn(slots, k, q).Some?
    requires FieldOn(slots, k, p).value.name == FieldOn(slots, k, q).value.name
    ensures FieldOn(slots, k, p).value.shape == FieldOn(slots, k, q).value.shape
    ensures FieldOn(slots, k, p).value.inner == FieldOn(slots, k, q).value.inner ==> p == q
    decreases slots
  {
    if p[0] != k { FieldOnIsGood(slots.rest, k + 1, p); }
    if q[0] != k { FieldOnIsGood(slots.rest, k + 1, q); }
    assert p == [p[0]] + p[1..] && q == [q[0]] + q[1..];
    if p[0] != k && q[0] != k {
      SameNameSameField(slots.rest, k + 1, p, q);
    } else if slots.Nested? {
      if p[0] == k { FieldOnIsGood(slots.row.slots, 0, p[1..]); }
      if q[0] == k { FieldOnIsGood(slots.row.slots, 0, q[1..]); }
      assert p[0] == k && q[0] == k;
      SameNameSameField(slots.row.slots, 0, p[1..], q[1..]);
    }
  }

  /** A name below a position is the position's own followed by nothing, an index, or a field. */
  lemma {:induction false} PlaceExtends(s: Shape, place: string, path: Path) returns (t: string)
    requires PlaceOf(s, place, path).Some?
    ensures PlaceOf(s, place, path).value == place + t && Stopped(t, STOPS)
    ensures (path == [] && t == "") || (path != [] && t != "")
    decreases s, |path|
  {
    if path == [] {
      t := "";
      assert place + t == place;
    } else {
      match s
      case Repeat(elem) =>
        var u := PlaceExtends(elem, place + Index(path[0]), path[1..]);
        t := Index(path[0]) + u;
        assert place + t == place + Index(path[0]) + u;
      case Group(_, row) => t := RowPlaceExtends(row, place, path);
      case OptionalGroup(_, row) => t := RowPlaceExtends(row, place, path);
    }
  }

  lemma {:induction false} RowPlaceExtends(row: Row, place: string, path: Path) returns (t: string)
    requires path != [] && PlaceInRow(row, place + ".", place, path).Some?
    ensures PlaceInRow(row, place + ".", place, path).value == place + t && Stopped(t, STOPS) && t != ""
    decreases row, |path|
  {
    PlaceByField(row.slots, 0, place + ".", place, path);
    var entry := FieldOn(row.slots, 0, path);
    if entry.Some? {
      var e := entry.value;
      EntryIsSmaller(row.slots, 0, path);
      var u := PlaceExtends(e.shape, place + "." + e.name, e.inner);
      t := "." + e.name + u;
      assert place + t == place + "." + e.name + u;
    } else {
      t := Indices(path);
    }
  }

  lemma {:induction false} EntryIsSmaller(slots: Slots, k: nat, path: Path)
    requires FieldOn(slots, k, path).Some?
    ensures FieldOn(slots, k, path).value.shape < slots
    decreases slots
  {
    match slots
    case Field(_, _, rest) =>
      if path[0] != k { EntryIsSmaller(rest, k + 1, path); }
    case Nested(row, rest) =>
      if path[0] == k { EntryIsSmaller(row.slots, 0, path[1..]); } else { EntryIsSmaller(rest, k + 1, path); }
  }

  /** No two positions of a shape have the same name, over all unbounded index sequences. */
  lemma {:induction false} PlacesAreUnambiguous(s: Shape, place: string, p: Path, q: Path)
    requires NamesDistinct(s)
    requires PlaceOf(s, place, p).Some? && PlaceOf(s, place, p) == PlaceOf(s, place, q)
    ensures p == q
    decreases s, 0
  {
    var t := PlaceExtends(s, place, p);
    var u := PlaceExtends(s, place, q);
    assert t == (place + t)[|place|..] == (place + u)[|place|..] == u;
    if p != [] && q != [] {
      assert p == [p[0]] + p[1..] && q == [q[0]] + q[1..];
      match s
      case Repeat(elem) =>
        var t' := PlaceExtends(elem, place + Index(p[0]), p[1..]);
        var u' := PlaceExtends(elem, place + Index(q[0]), q[1..]);
        var whole := PlaceOf(s, place, p).value;
        assert Index(p[0]) + t' == whole[|place|..];
        assert Index(q[0]) + u' == whole[|place|..];
        IndexPrefix(p[0], q[0], t', u');
        PlacesAreUnambiguous(elem, place + Index(p[0]), p[1..], q[1..]);
      case Group(_, row) =>
        GroupApart(place);
        RowPlacesAreUnambiguous(row, place + ".", place, p, q);
      case OptionalGroup(_, row) =>
        GroupApart(place);
        RowPlacesAreUnambiguous(row, place + ".", place, p, q);
    }
  }

  /** A row's own name and its nested lists' names are never the names of its fields. */
  ghost predicate Apart(prefix: string, place: string) {
    forall name: string, t: string, at: seq<nat> ::
      GoodName(name) && Stopped(t, STOPS) ==> prefix + name + t != place + Indices(at)
  }

  lemma GroupApart(place: string)
    ensures Apart(place + ".", place)
  {
    forall name: string, t: string, at: seq<nat>
      ensures place + "." + name + t != place + Indices(at)
    {
      assert (place + "." + name + t)[|place|..] == "." + name + t;
      assert (place + Indices(at))[|place|..] == Indices(at);
      assert at != [] ==> Indices(at)[0] == '[';
    }
  }

  lemma BodyApart(title: string)
    requires GoodName(title)
    ensures Apart("", title + " body")
  {
    forall name: string, t: string, at: seq<nat> | GoodName(name) && Stopped(t, STOPS)
      ensures "" + name + t != title + " body" + Indices(at)
    {
      if "" + name + t == title + " body" + Indices(at) {
        var u := " body" + Indices(at);
        assert name + t == "" + name + t;
        assert title + u == title + " body" + Indices(at);
        SplitUnique(name, title, t, u, BREAKS);
        assert false;
      }
    }
  }

  lemma {:induction false} RowPlacesAreUnambiguous(row: Row, prefix: string, place: string, p: Path, q: Path)
    requires SlotNamesDistinct(row.slots) && Apart(prefix, place) && p != [] && q != []
    requires PlaceInRow(row, prefix, place, p).Some? && PlaceInRow(row, prefix, place, p) == PlaceInRow(row, prefix, place, q)
    ensures p == q
    decreases row, 0
  {
    var whole := PlaceInRow(row, prefix, place, p).value;
    PlaceByField(row.slots, 0, prefix, place, p);
    PlaceByField(row.slots, 0, prefix, place, q);
    var e, f := FieldOn(row.slots, 0, p), FieldOn(row.slots, 0, q);
    if e.None? && f.None? {
      assert Indices(p) == whole[|place|..] == Indices(q);
      IndicesInjective(p, q);
    } else if e.Some? && f.Some? {
      FieldOnIsGood(row.slots, 0, p);
      FieldOnIsGood(row.slots, 0, q);
      var t := PlaceExtends(e.value.shape, prefix + e.value.name, e.value.inner);
      var u := PlaceExtends(f.value.shape, prefix + f.value.name, f.value.inner);
      assert e.value.name + t == whole[|prefix|..];
      assert f.value.name + u == whole[|prefix|..];
      SplitUnique(e.value.name, f.value.name, t, u, STOPS);
      SameNameSameField(row.slots, 0, p, q);
      PlacesAreUnambiguous(e.value.shape, prefix + e.value.name, e.value.inner, f.value.inner);
    } else {
      var path, entry := if e.Some? then p else q, if e.Some? then e.value else f.value;
      FieldOnIsGood(row.slots, 0, path);
      var t := PlaceExtends(entry.shape, prefix + entry.name, entry.inner);
      assert false;
    }
  }

  /** No two positions of a message body have the same name. */
  lemma BodyPlacesAreUnambiguous(title: string, row: Row, p: Path, q: Path)
    requires GoodName(title) && SlotNamesDistinct(row.slots)
    requires PlaceInRow(row, "", title + " body", p).Some?
    requires PlaceInRow(row, "", title + " body", p) == PlaceInRow(row, "", title + " body", q)
    ensures p == q
  {
    BodyApart(title);
    if p != [] && q != [] {
      RowPlacesAreUnambiguous(row, "", title + " body", p, q);
    } else if p != q {
      RowIsNotItsChild(row, "", title + " body", if p == [] then q else p);
      assert false;
    }
  }

  /** The name of a position below a row is not the row's own. */
  lemma RowIsNotItsChild(row: Row, prefix: string, place: string, path: Path)
    requires SlotNamesDistinct(row.slots) && Apart(prefix, place) && path != []
    ensures PlaceInRow(row, prefix, place, path) != Some(place)
  {
    assert place == place + Indices([]);
    assert |place + Indices(path)| > |place|;
    if PlaceInRow(row, prefix, place, path) == Some(place) {
      PlaceByField(row.slots, 0, prefix, place, path);
      var entry := FieldOn(row.slots, 0, path);
      if entry.Some? {
        FieldOnIsGood(row.slots, 0, path);
        var t := PlaceExtends(entry.value.shape, prefix + entry.value.name, entry.value.inner);
        assert false;
      }
    }
  }

  /**
   An error names one position: the place a body decoder reports is the name of the first failing position
   and of no other, so a caller can find it from the error alone.
   */
  lemma ErrorNamesTheFirstFailure(title: string, row: Row, item: Item, lenient: bool, p: Path)
    requires WellFormedRow(row) && GoodName(title) && SlotNamesDistinct(row.slots)
    requires DecodeBody(title, row, item, lenient).Err?
    requires PlaceInRow(row, "", title + " body", p) == Some(DecodeBody(title, row, item, lenient).error.place)
    ensures FirstFailingInRow(row, item, lenient, p)
  {
    var first := BodyFirstFailureWins(title, row, item, lenient);
    BodyPlacesAreUnambiguous(title, row, first, p);
  }
}
