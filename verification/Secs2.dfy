/**
 SECS-II items (SEMI E5) as package secs2 builds and reads them:
 the item tree, the deferred errors it carries, its constructors, and the cursor over it.
 */
module Secs2 {

  /** The largest payload of one item, and the largest child count of one list. */
  const MAX_BYTE_SIZE: nat := 0xFF_FFFF

  type byte = b: int | 0 <= b < 0x100

  datatype Option<+T> = None | Some(value: T)

  datatype Width = W1 | W2 | W4 | W8 {
    function Bytes(): nat {
      match this
      case W1 => 1
      case W2 => 2
      case W4 => 4
      case W8 => 8
    }

    /** The number of values an unsigned integer of this width can hold. */
    function Modulus(): nat {
      match this
      case W1 => 0x100
      case W2 => 0x1_0000
      case W4 => 0x1_0000_0000
      case W8 => 0x1_0000_0000_0000_0000
    }
  }

  /**
   An item as a caller can hold it.
   `Nil` is a nil interface, or with `typed` a nil pointer inside one.
   `Fault` is an item whose construction failed, holding its deferred error;
   it answers as a list whose every accessor returns that error.
   `Other` is an item this model never looks into: F4, F8, JIS-8, and localized strings.
   */
  datatype Item =
    | Nil(typed: bool)
    | Empty
    | Fault(error: string)
    | List(items: seq<Item>)
    | Text(text: string)
    | Binary(bytes: seq<byte>)
    | Boolean(flags: seq<bool>)
    | Uints(width: Width, uints: seq<nat>)
    | Ints(width: Width, ints: seq<int>)
    | Other(format: byte, payload: seq<byte>)

  const NIL_CHILD := "secs2: list contains nil item"
  const EMPTY_CHILD := "secs2: empty item is not valid as a list child"
  const LIST_TOO_LONG := "item size limit exceeded"
  const TEXT_TOO_LONG := "string length limit exceeded"

  /** The deferred errors of `item`, its own or its children's, in the order a list joins them. */
  function Errors(item: Item): seq<string>
    decreases item, 1
  {
    match item
    case Fault(e) => [e]
    case List(items) => JoinedErrors(items)
    case _ => []
  }

  function ChildErrors(child: Item): seq<string>
    decreases child, 2
  {
    match child
    case Nil(_) => [NIL_CHILD]
    case Empty => [EMPTY_CHILD]
    case _ => Errors(child)
  }

  function JoinedErrors(items: seq<Item>): seq<string>
    decreases items, 0
  {
    if items == [] then [] else ChildErrors(items[0]) + JoinedErrors(items[1..])
  }

  /** A child a list can hold without carrying an error. */
  predicate Usable(child: Item) {
    ChildErrors(child) == []
  }

  /** An item a decoder can read: not nil, and carrying no error at any depth. */
  predicate Readable(item: Item) {
    !item.Nil? && Errors(item) == []
  }

  lemma {:induction false} JoinedErrorsEmpty(items: seq<Item>)
    ensures JoinedErrors(items) == [] <==> forall i :: 0 <= i < |items| ==> Usable(items[i])
  {
    if items != [] {
      JoinedErrorsEmpty(items[1..]);
      assert forall i :: 0 < i < |items| ==> items[i] == items[1..][i - 1];
      assert forall i :: 0 <= i < |items[1..]| ==> items[1..][i] == items[i + 1];
    }
  }

  /** A list is error-free exactly when each child is usable, so a clean list is clean at every depth. */
  lemma ListErrorFree(items: seq<Item>)
    ensures Errors(List(items)) == [] <==> forall i :: 0 <= i < |items| ==> Usable(items[i])
  {
    JoinedErrorsEmpty(items);
  }

  /** An item with no nil, empty or failed item anywhere below it, which has not itself failed. */
  predicate Sound(item: Item)
    decreases item
  {
    match item
    case Fault(_) => false
    case List(items) => forall i :: 0 <= i < |items| ==> !items[i].Nil? && !items[i].Empty? && Sound(items[i])
    case _ => true
  }

  /** An item carries no error exactly when no child at any depth is nil, empty or failed. */
  lemma {:induction false} ErrorFreeIsSound(item: Item)
    ensures Errors(item) == [] <==> Sound(item)
    decreases item
  {
    if item.List? {
      ChildrenAreSound(item.items);
      forall i | 0 <= i < |item.items| ensures Errors(item.items[i]) == [] <==> Sound(item.items[i]) {
        ErrorFreeIsSound(item.items[i]);
      }
    }
  }

  /** A list carries no error exactly when no child is nil, empty or itself in error. */
  lemma ChildrenAreSound(items: seq<Item>)
    ensures Errors(List(items)) == [] <==>
            forall i :: 0 <= i < |items| ==> !items[i].Nil? && !items[i].Empty? && Errors(items[i]) == []
  {
    ListErrorFree(items);
    assert forall i :: 0 <= i < |items| ==>
             (Usable(items[i]) <==> !items[i].Nil? && !items[i].Empty? && Errors(items[i]) == []);
  }

  // ----- constructors -----

  function WithoutNil(values: seq<Item>): seq<Item> {
    if values == [] then []
    else if values[0] == Nil(false) then WithoutNil(values[1..])
    else [values[0]] + WithoutNil(values[1..])
  }

  /** NewListItem: an untyped nil child vanishes, a typed nil one stays and puts the list in error. */
  function L(values: seq<Item>): Item {
    if |values| > MAX_BYTE_SIZE then Fault(LIST_TOO_LONG) else List(WithoutNil(values))
  }

  lemma {:induction false} WithoutNilIsIdentity(values: seq<Item>)
    requires Nil(false) !in values
    ensures WithoutNil(values) == values
  {
    if values != [] {
      assert Nil(false) !in values[1..];
      WithoutNilIsIdentity(values[1..]);
      assert values == [values[0]] + values[1..];
    }
  }

  /** A list loses exactly its untyped nil children, and keeps the others in their order. */
  lemma {:induction false} OnlyNilVanishes(values: seq<Item>, more: seq<Item>)
    ensures WithoutNil(values + more) == WithoutNil(values) + WithoutNil(more)
    ensures |values| == 1 ==> WithoutNil(values) == if values[0] == Nil(false) then [] else values
    ensures |WithoutNil(values)| == |values| <==> Nil(false) !in values
  {
    if values == [] {
      assert values + more == more;
    } else {
      assert values == [values[0]] + values[1..];
      assert (values + more)[1..] == values[1..] + more;
      OnlyNilVanishes(values[1..], more);
      FewerWithoutNil(values[1..]);
    }
  }

  lemma {:induction false} FewerWithoutNil(values: seq<Item>)
    ensures |WithoutNil(values)| <= |values|
  {
    if values != [] {
      FewerWithoutNil(values[1..]);
    }
  }

  function A(text: string): Item {
    if |text| > MAX_BYTE_SIZE then Fault(TEXT_TOO_LONG) else Text(text)
  }

  function B(bytes: seq<byte>): Item {
    if |bytes| > MAX_BYTE_SIZE then Fault(LIST_TOO_LONG) else Binary(bytes)
  }

  function BOOLEAN(flags: seq<bool>): Item {
    if |flags| > MAX_BYTE_SIZE then Fault(LIST_TOO_LONG) else Boolean(flags)
  }

  /** NewUintItem clamps a value above the width's range to its maximum. */
  function ClampUint(w: Width, n: nat): nat {
    if n < w.Modulus() then n else w.Modulus() - 1
  }

  function U(w: Width, n: nat): Item {
    Uints(w, [ClampUint(w, n)])
  }

  function ClampInt(w: Width, n: int): int {
    var half := w.Modulus() / 2;
    if n < -half then -half else if n < half then n else half - 1
  }

  function I(w: Width, n: int): Item {
    Ints(w, [ClampInt(w, n)])
  }

  /** Past three length bytes a constructor fails; up to them it holds its values as given. */
  lemma ConstructorsKeepTheirValues(items: seq<Item>, text: string, bytes: seq<byte>, flags: seq<bool>)
    ensures |items| >= 0x100_0000 ==> L(items) == Fault(LIST_TOO_LONG)
    ensures |items| < 0x100_0000 && Nil(false) !in items ==> L(items) == List(items)
    ensures A(text) == if |text| < 0x100_0000 then Text(text) else Fault(TEXT_TOO_LONG)
    ensures B(bytes) == if |bytes| < 0x100_0000 then Binary(bytes) else Fault(LIST_TOO_LONG)
    ensures BOOLEAN(flags) == if |flags| < 0x100_0000 then Boolean(flags) else Fault(LIST_TOO_LONG)
  {
    if Nil(false) !in items {
      WithoutNilIsIdentity(items);
    }
  }

  function Distance(m: int, n: int): nat {
    if m < n then n - m else m - n
  }

  /** A number item holds the value of its width's range that is nearest to the one given. */
  lemma NumbersAreNearest(w: Width, n: nat, i: int, m: int)
    ensures U(w, n) == Uints(w, [U(w, n).uints[0]]) && U(w, n).uints[0] < w.Modulus()
    ensures 0 <= m < w.Modulus() ==> Distance(U(w, n).uints[0], n) <= Distance(m, n)
    ensures I(w, i) == Ints(w, [I(w, i).ints[0]]) && -(w.Modulus() / 2) <= I(w, i).ints[0] < w.Modulus() / 2
    ensures -(w.Modulus() / 2) <= m < w.Modulus() / 2 ==> Distance(I(w, i).ints[0], i) <= Distance(m, i)
  {
  }

  function Power(base: nat, n: nat): nat {
    if n == 0 then 1 else base * Power(base, n - 1)
  }

  /** An integer of one, two, four or eight bytes holds as many values as its bytes do. */
  lemma WidthsAreTheirBytes()
    ensures W1.Bytes() == 1 && W2.Bytes() == 2 && W4.Bytes() == 4 && W8.Bytes() == 8
    ensures forall w: Width :: w.Modulus() == Power(0x100, w.Bytes())
  {
    assert Power(0x100, 2) == 0x1_0000;
    assert Power(0x100, 4) == 0x1_0000_0000;
    assert Power(0x100, 6) == 0x1_0000_0000_0000;
    assert Power(0x100, 8) == 0x1_0000_0000_0000_0000;
  }

  /**
   An error-free item within the limits every secs2 constructor and the wire decoder enforce.
   An `Empty` item is left out: it is a body without content, never a child.
   */
  predicate Clean(item: Item)
    decreases item
  {
    match item
    case Nil(_) => false
    case Empty => false
    case Fault(_) => false
    case List(items) => |items| <= MAX_BYTE_SIZE && forall i :: 0 <= i < |items| ==> Clean(items[i])
    case Text(text) => |text| <= MAX_BYTE_SIZE
    case Binary(bytes) => |bytes| <= MAX_BYTE_SIZE
    case Boolean(flags) => |flags| <= MAX_BYTE_SIZE
    case Uints(w, ns) => |ns| * w.Bytes() <= MAX_BYTE_SIZE && forall i :: 0 <= i < |ns| ==> ns[i] < w.Modulus()
    case Ints(w, ns) =>
      |ns| * w.Bytes() <= MAX_BYTE_SIZE &&
      forall i :: 0 <= i < |ns| ==> -(w.Modulus() / 2) <= ns[i] < w.Modulus() / 2
    case Other(_, payload) => |payload| <= MAX_BYTE_SIZE
  }

  /** What the constructors make of clean parts is clean, up to the limits. */
  lemma ConstructorsAreClean(items: seq<Item>, text: string, bytes: seq<byte>, flags: seq<bool>, w: Width, n: nat, i: int)
    ensures |items| <= MAX_BYTE_SIZE && (forall k :: 0 <= k < |items| ==> Clean(items[k])) ==> Clean(L(items))
    ensures |text| <= MAX_BYTE_SIZE ==> Clean(A(text))
    ensures |bytes| <= MAX_BYTE_SIZE ==> Clean(B(bytes))
    ensures |flags| <= MAX_BYTE_SIZE ==> Clean(BOOLEAN(flags))
    ensures Clean(U(w, n)) && Clean(I(w, i))
    ensures |bytes| <= MAX_BYTE_SIZE ==> forall format: byte :: Clean(Other(format, bytes))
  {
    if forall k :: 0 <= k < |items| ==> Clean(items[k]) {
      WithoutNilIsIdentity(items);
    }
  }

  lemma {:induction false} CleanIsUsable(item: Item)
    requires Clean(item)
    ensures Usable(item) && Errors(item) == []
    decreases item
  {
    if item.List? {
      forall i | 0 <= i < |item.items|
        ensures Usable(item.items[i])
      {
        CleanIsUsable(item.items[i]);
      }
      ListErrorFree(item.items);
    }
  }

  // ----- cursor -----

  /** A position in an item tree, or `Lost` once a hop has failed. */
  datatype Cursor = Cursor(item: Item) | Lost {

    /** One hop: it needs a list that carries no error of its own, an index in range, and a child that is not nil. */
    function Hop(index: int): Cursor {
      if Lost? || !item.List? || !(0 <= index < |item.items|) || item.items[index].Nil? then Lost
      else Cursor(item.items[index])
    }

    function At(path: seq<int>): Cursor
      decreases path
    {
      if path == [] then this else Hop(path[0]).At(path[1..])
    }
  }

  function NewCursor(item: Item): Cursor {
    if item.Nil? then Lost else Cursor(item)
  }

  /** The child `index` of the list at `c`; the hop stays in range below an error-free list. */
  lemma HopReaches(c: Cursor, index: nat)
    requires c.Cursor? && c.item.List? && Errors(c.item) == [] && index < |c.item.items|
    ensures c.At([index]) == Cursor(c.item.items[index])
    ensures Usable(c.item.items[index])
  {
    ListErrorFree(c.item.items);
    assert Usable(c.item.items[index]);
    assert [index][1..] == [];
    assert c.Hop(index).At([]) == c.Hop(index);
  }

  /** A hop reaches a child exactly when there is a list, the index is one of its children's, and the child is not nil. */
  lemma HopExactly(c: Cursor, index: int, child: Item)
    ensures c.At([index]) == Cursor(child) <==>
            && c.Cursor? && c.item.List? && 0 <= index < |c.item.items|
            && c.item.items[index] == child && !child.Nil?
    ensures c.At([]) == c
  {
    assert [index][1..] == [];
    assert c.At([index]) == c.Hop(index).At([]);
  }

  /** A path is walked one part after the other. */
  lemma {:induction false} PathsCompose(c: Cursor, first: seq<int>, second: seq<int>)
    ensures c.At(first + second) == c.At(first).At(second)
    decreases first
  {
    if first == [] {
      assert first + second == second;
    } else {
      assert (first + second)[1..] == first[1..] + second;
      PathsCompose(c.Hop(first[0]), first[1..], second);
    }
  }

  /** A composed path is its hops one after the other. */
  lemma HopTwice(c: Cursor, first: int, second: int)
    ensures c.At([first, second]) == c.At([first]).At([second])
  {
    assert [first, second][1..] == [second];
    assert [first][1..] == [];
  }
}
