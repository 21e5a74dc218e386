/**
 The pure decode helpers of gem/decode.go, over a cursor:
 the list and arity checks, the leaf decoders, and the combinators that build one decoder from another.
 `lenient` is the setting AllowTrailing selects.
 */
module Decoding {
  import opened Secs2
  import opened Decimal

  /** Why a position was refused; the got and want values of the error text, without its wording. */
  datatype Reason =
    | Unreachable
    | Carried
    | NotList
    | Arity(got: nat, want: nat)
    | ArityRange(got: nat, short: nat, full: nat)
    | WrongType
    | WrongSize(got: nat)
    | Overflow
    | ListExcluded

  /** `place` is the path the error text names, such as RECIPES[2][0].RCPDESCNM. */
  datatype Error = Error(place: string, reason: Reason)

  datatype Outcome<+T> = Ok(value: T) | Err(error: Error) {
    predicate IsFailure() { Err? }

    function PropagateFailure<U>(): Outcome<U>
      requires Err?
    {
      Err(error)
    }

    function Extract(): T
      requires Ok?
    {
      value
    }

    function Map<U>(f: T -> U): Outcome<U> {
      match this
      case Ok(v) => Ok(f(v))
      case Err(e) => Err(e)
    }
  }

  function Refuse<T>(place: string, reason: Reason): Outcome<T> {
    Err(Error(place, reason))
  }

  type Decoder<T> = (Cursor, string) -> Outcome<T>

  // ----- lists -----

  /** The children of the list at `c`. */
  function ListAt(c: Cursor, field: string): (r: Outcome<seq<Item>>)
    ensures r.Ok? <==> c.Cursor? && c.item.List? && Errors(c.item) == []
  {
    if c.Lost? then Refuse(field, Unreachable)
    else if Errors(c.item) != [] then Refuse(field, Carried)
    else if !c.item.List? then Refuse(field, NotList)
    else Ok(c.item.items)
  }

  function RequireArity(c: Cursor, field: string, want: nat, lenient: bool): Outcome<()> {
    var items :- ListAt(c, field);
    if |items| != want && (|items| < want || !lenient) then Refuse(field, Arity(|items|, want)) else Ok(())
  }

  /** The child count the caller reads, short or full. */
  function OptionalArity(c: Cursor, field: string, short: nat, full: nat, lenient: bool): Outcome<nat> {
    var items :- ListAt(c, field);
    if |items| > full && lenient then Ok(full)
    else if |items| != short && |items| != full then Refuse(field, ArityRange(|items|, short, full))
    else Ok(|items|)
  }

  function DecodeItems(c: Cursor, field: string): Outcome<seq<Item>> {
    ListAt(c, field)
  }

  /** Every element from index `i` on, in order, stopping at the first error. */
  function EachFrom<T>(c: Cursor, field: string, n: nat, i: nat, decode: Decoder<T>): (r: Outcome<seq<T>>)
    requires i <= n
    ensures r.Ok? ==> |r.value| == n - i
    decreases n - i
  {
    if i == n then Ok([])
    else
      var v :- decode(c.At([i]), field + Index(i));
      var vs :- EachFrom(c, field, n, i + 1, decode);
      Ok([v] + vs)
  }

  /** What decodeEach computes. */
  function Each<T>(c: Cursor, field: string, decode: Decoder<T>): Outcome<seq<T>> {
    var items :- ListAt(c, field);
    EachFrom(c, field, |items|, 0, decode)
  }

  function EachOf<T>(decode: Decoder<T>): Decoder<seq<T>> {
    (c: Cursor, field: string) => Each(c, field, decode)
  }

  function WithConfig<T>(lenient: bool, decode: (Cursor, string, bool) -> Outcome<T>): Decoder<T> {
    (c: Cursor, field: string) => decode(c, field, lenient)
  }

  function DecodeOptionalGroup<T>(c: Cursor, field: string, full: nat, lenient: bool,
                                  decode: (Cursor, string, bool) -> Outcome<T>): Outcome<Option<T>>
  {
    var items :- ListAt(c, field);
    if |items| == 0 then Ok(None)
    else if |items| == full || (|items| > full && lenient) then
      var g :- decode(c, field, lenient);
      Ok(Some(g))
    else Refuse(field, ArityRange(|items|, 0, full))
  }

  function OptionalGroupOf<T>(lenient: bool, full: nat, decode: (Cursor, string, bool) -> Outcome<T>): Decoder<Option<T>> {
    (c: Cursor, field: string) => DecodeOptionalGroup(c, field, full, lenient, decode)
  }

  /** The loop of decodeEach: one slot per child, filled in order, left at the first element's error. */
  method DecodeEach<T(0)>(c: Cursor, field: string, decode: Decoder<T>) returns (r: Outcome<seq<T>>)
    ensures r == Each(c, field, decode)
  {
    hide Cursor.At, Errors, Index;
    var list := ListAt(c, field);
    if list.Err? {
      return Err(list.error);
    }
    var n := |list.value|;
    var values := new T[n];
    ghost var whole := EachFrom(c, field, n, 0, decode);
    assert whole.Ok? ==> values[..0] + whole.value == whole.value;
    for i := 0 to n
      invariant whole == Prepend(values[..i], EachFrom(c, field, n, i, decode))
    {
      var element := decode(c.At([i]), field + Index(i));
      if element.Err? {
        return Err(element.error);
      }
      PrependOne(values[..i], element.value, EachFrom(c, field, n, i + 1, decode));
      ghost var done := values[..i];
      values[i] := element.value;
      assert values[..i + 1] == done + [element.value];
    }
    assert values[..n] + [] == values[..];
    return Ok(values[..]);
  }

  ghost function Prepend<T>(done: seq<T>, rest: Outcome<seq<T>>): Outcome<seq<T>> {
    match rest
    case Ok(vs) => Ok(done + vs)
    case Err(e) => Err(e)
  }

  lemma PrependOne<T>(done: seq<T>, v: T, rest: Outcome<seq<T>>)
    ensures Prepend(done, if rest.Ok? then Ok([v] + rest.value) else rest) == Prepend(done + [v], rest)
  {
    if rest.Ok? {
      assert done + ([v] + rest.value) == done + [v] + rest.value;
    }
  }

  // ----- leaves -----

  /** The leaf formats a body can declare, one per leaf decoder. */
  datatype Kind =
    | KText
    | KBinary
    | KByte
    | KBool
    | KUint(width: Width)
    | KInt(width: Width)
    | KScalar
    | KScalarOrEmpty
    | KAny

  function DecodeItem(c: Cursor, field: string): Outcome<Item> {
    if c.Lost? then Refuse(field, Unreachable)
    else if Errors(c.item) != [] then Refuse(field, Carried)
    else Ok(c.item)
  }

  function DecodeScalarItem(c: Cursor, field: string): Outcome<Item> {
    var item :- DecodeItem(c, field);
    if item.List? then Refuse(field, ListExcluded) else Ok(item)
  }

  function DecodeScalarOrEmptyList(c: Cursor, field: string): Outcome<Item> {
    var item :- DecodeItem(c, field);
    if item.List? && item.items != [] then Refuse(field, ListExcluded) else Ok(item)
  }

  function DecodeASCII(c: Cursor, field: string): Outcome<string> {
    if c.Lost? then Refuse(field, Unreachable)
    else if !c.item.Text? then Refuse(field, WrongType)
    else Ok(c.item.text)
  }

  function DecodeBool(c: Cursor, field: string): Outcome<bool> {
    if c.Lost? then Refuse(field, Unreachable)
    else if !c.item.Boolean? then Refuse(field, WrongType)
    else if |c.item.flags| != 1 then Refuse(field, WrongSize(|c.item.flags|))
    else Ok(c.item.flags[0])
  }

  function DecodeBinary(c: Cursor, field: string): Outcome<seq<byte>> {
    if c.Lost? then Refuse(field, Unreachable)
    else if !c.item.Binary? then Refuse(field, WrongType)
    else Ok(c.item.bytes)
  }

  function DecodeByteAs(c: Cursor, field: string): Outcome<byte> {
    var bytes :- DecodeBinary(c, field);
    if |bytes| != 1 then Refuse(field, WrongSize(|bytes|)) else Ok(bytes[0])
  }

  /** Conversion of a uint64 to a narrower unsigned type drops the high bits. */
  function TruncateUint(w: Width, n: nat): (r: nat)
    ensures r < w.Modulus()
  {
    n % w.Modulus()
  }

  /** Conversion of an int64 to a narrower signed type keeps the low bits in two's complement. */
  function TruncateInt(w: Width, n: int): int {
    var half := w.Modulus() / 2;
    (n + half) % w.Modulus() - half
  }

  function DecodeUint(w: Width, c: Cursor, field: string): (r: Outcome<nat>)
    ensures r.Ok? ==> r.value < w.Modulus()
  {
    if c.Lost? then Refuse(field, Unreachable)
    else if !c.item.Uints? then Refuse(field, WrongType)
    else if |c.item.uints| != 1 then Refuse(field, WrongSize(|c.item.uints|))
    else
      var value := c.item.uints[0];
      var out := TruncateUint(w, value);
      if out != value then Refuse(field, Overflow) else Ok(out)
  }

  type Uint8 = n: nat | n < 0x100
  type Uint16 = n: nat | n < 0x1_0000
  type Uint32 = n: nat | n < 0x1_0000_0000

  function DecodeUint8(c: Cursor, field: string): Outcome<Uint8> {
    var n :- DecodeUint(W1, c, field);
    Ok(n)
  }

  function DecodeUint16(c: Cursor, field: string): Outcome<Uint16> {
    var n :- DecodeUint(W2, c, field);
    Ok(n)
  }

  function DecodeUint32(c: Cursor, field: string): Outcome<Uint32> {
    var n :- DecodeUint(W4, c, field);
    Ok(n)
  }

  function DecodeInt(w: Width, c: Cursor, field: string): Outcome<int> {
    if c.Lost? then Refuse(field, Unreachable)
    else if !c.item.Ints? then Refuse(field, WrongType)
    else if |c.item.ints| != 1 then Refuse(field, WrongSize(|c.item.ints|))
    else
      var value := c.item.ints[0];
      var out := TruncateInt(w, value);
      if out != value then Refuse(field, Overflow) else Ok(out)
  }

  /** A zero-length item of the type the decoder of `kind` reads. */
  predicate ZeroLength(kind: Kind, item: Item) {
    match kind
    case KText => item == Text("")
    case KBinary => item == Binary([])
    case KByte => item == Binary([])
    case KBool => item == Boolean([])
    case KUint(_) => item.Uints? && item.uints == []
    case KInt(_) => item.Ints? && item.ints == []
    case _ => false
  }

  function PresentAt(c: Cursor, field: string, kind: Kind): Outcome<bool> {
    if c.Lost? then Refuse(field, Unreachable)
    else if Errors(c.item) != [] then Refuse(field, Carried)
    else Ok(!ZeroLength(kind, c.item))
  }

  function DecodeOptional<T>(c: Cursor, field: string, kind: Kind, decode: Decoder<T>): Outcome<Option<T>> {
    var there :- PresentAt(c, field, kind);
    if !there then Ok(None)
    else
      var v :- decode(c, field);
      Ok(Some(v))
  }

  // ----- narrowing -----

  /** The wrap-around test of decodeUintAs accepts exactly the values the width can hold. */
  lemma NarrowingUintIsExact(w: Width, n: nat)
    ensures TruncateUint(w, n) == n <==> n < w.Modulus()
  {
  }

  /** The wrap-around test of decodeIntAs accepts exactly the two's-complement range of the width. */
  lemma NarrowingIntIsExact(w: Width, n: int)
    ensures TruncateInt(w, n) == n <==> -(w.Modulus() / 2) <= n < w.Modulus() / 2
  {
  }

  /** A number decodes to itself, sent at any width, exactly when the declared width can hold it. */
  lemma DecodedNumberIsTheWireNumber(declared: Width, wire: Width, n: nat, i: int, field: string)
    ensures DecodeUint(declared, Cursor(Uints(wire, [n])), field) ==
              if n < declared.Modulus() then Ok(n) else Refuse(field, Overflow)
    ensures DecodeInt(declared, Cursor(Ints(wire, [i])), field) ==
              var half := declared.Modulus() / 2;
              if -half <= i < half then Ok(i) else Refuse(field, Overflow)
  {
    NarrowingUintIsExact(declared, n);
    NarrowingIntIsExact(declared, i);
  }

  /** Every leaf decodes to the value on the wire: a flag, a byte, a text, bytes, or the item itself. */
  lemma DecodedLeafIsTheWireValue(f: bool, b: byte, t: string, bs: seq<byte>, item: Item, field: string)
    ensures DecodeBool(Cursor(Boolean([f])), field) == Ok(f)
    ensures DecodeByteAs(Cursor(Binary([b])), field) == Ok(b)
    ensures DecodeASCII(Cursor(Text(t)), field) == Ok(t)
    ensures DecodeBinary(Cursor(Binary(bs)), field) == Ok(bs)
    ensures Errors(item) == [] ==> DecodeItem(Cursor(item), field) == Ok(item)
    ensures Errors(item) == [] && !item.List? ==>
              DecodeScalarItem(Cursor(item), field) == Ok(item) == DecodeScalarOrEmptyList(Cursor(item), field)
    ensures DecodeScalarOrEmptyList(Cursor(List([])), field) == Ok(List([]))
  {
  }

  /** A leaf of the wrong type, of more or fewer than one value, a list, or an error it carries: each is refused as such. */
  lemma RefusedLeavesSayWhy(item: Item, field: string, w: Width)
    ensures !item.Text? ==> DecodeASCII(Cursor(item), field) == Refuse(field, WrongType)
    ensures !item.Binary? ==> DecodeBinary(Cursor(item), field) == Refuse(field, WrongType)
    ensures !item.Binary? ==> DecodeByteAs(Cursor(item), field) == Refuse(field, WrongType)
    ensures !item.Boolean? ==> DecodeBool(Cursor(item), field) == Refuse(field, WrongType)
    ensures !item.Uints? ==> DecodeUint(w, Cursor(item), field) == Refuse(field, WrongType)
    ensures !item.Ints? ==> DecodeInt(w, Cursor(item), field) == Refuse(field, WrongType)
    ensures item.Binary? && |item.bytes| != 1 ==> DecodeByteAs(Cursor(item), field) == Refuse(field, WrongSize(|item.bytes|))
    ensures item.Boolean? && |item.flags| != 1 ==> DecodeBool(Cursor(item), field) == Refuse(field, WrongSize(|item.flags|))
    ensures item.Uints? && |item.uints| != 1 ==> DecodeUint(w, Cursor(item), field) == Refuse(field, WrongSize(|item.uints|))
    ensures item.Ints? && |item.ints| != 1 ==> DecodeInt(w, Cursor(item), field) == Refuse(field, WrongSize(|item.ints|))
    ensures item.List? && Errors(item) == [] ==> DecodeScalarItem(Cursor(item), field) == Refuse(field, ListExcluded)
    ensures item.List? && Errors(item) == [] && item.items != [] ==>
              DecodeScalarOrEmptyList(Cursor(item), field) == Refuse(field, ListExcluded)
    ensures Errors(item) != [] ==>
              DecodeItem(Cursor(item), field) == Refuse(field, Carried) == DecodeScalarItem(Cursor(item), field)
    ensures Errors(item) != [] ==> forall kind: Kind :: PresentAt(Cursor(item), field, kind) == Refuse(field, Carried)
  {
  }

  /** A list is handed over as its children, and what is no list, or carries an error, is refused as such. */
  lemma ListsAreTheirChildren(item: Item, field: string)
    ensures item.List? && Errors(item) == [] ==> ListAt(Cursor(item), field) == Ok(item.items)
    ensures !item.List? && Errors(item) == [] ==> ListAt(Cursor(item), field) == Refuse(field, NotList)
    ensures Errors(item) != [] ==> ListAt(Cursor(item), field) == Refuse(field, Carried)
  {
  }
}
