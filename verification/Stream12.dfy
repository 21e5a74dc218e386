/**
 S12F4 (Map Set-up Data): fifteen fields, two of which may be sent zero-length, or no field at all.
 */
module Stream12 {
  import opened Secs2
  import opened Decimal
  import opened Decoding
  import opened Shapes
  import opened Building
  import opened Places
  import opened Options
  import opened RoundTrip
  import opened Refinement
  import opened Groups

  // ----- S12F4 -----

  datatype S12F4Reply = S12F4Reply(
    mid: Item,
    idtyp: byte,
    fnloc: Option<Uint16>,
    orloc: Option<byte>,
    rpsel: Uint8,
    refps: seq<Item>,
    dutms: string,
    xdies: Item,
    ydies: Item,
    rowct: Item,
    colct: Item,
    prdct: Item,
    bcequ: Item,
    nulbc: Item,
    mlcl: Item)

  const S12F4_BODY: Row :=
    Row(0,
        Field("MID", Leaf(KScalar),
        Field("IDTYP", Leaf(KByte),
        Field("FNLOC", Optional(KUint(W2)),
        Field("ORLOC", Optional(KByte),
        Field("RPSEL", Leaf(KUint(W1)),
        Field("REFPS", Repeat(Leaf(KScalar)),
        Field("DUTMS", Leaf(KText),
        Field("XDIES", Leaf(KScalar),
        Field("YDIES", Leaf(KScalar),
        Field("ROWCT", Leaf(KScalar),
        Field("COLCT", Leaf(KScalar),
        Field("PRDCT", Leaf(KScalar),
        Field("BCEQU", Leaf(KScalar),
        Field("NULBC", Leaf(KScalar),
        Field("MLCL", Leaf(KScalar),
        End))))))))))))))))

  /** The body S12F4 sends. */
  function S12F4(
    mid: Item,
    idtyp: byte,
    fnloc: Option<Uint16>,
    orloc: Option<byte>,
    rpsel: Uint8,
    refps: seq<Item>,
    dutms: string,
    xdies: Item,
    ydies: Item,
    rowct: Item,
    colct: Item,
    prdct: Item,
    bcequ: Item,
    nulbc: Item,
    mlcl: Item): Item
  {
    L([
      Present(mid, "S12F4" + " " + "MID"),
      B([idtyp]),
      OptionalItem(fnloc, Uint16Item, Uints(W2, [])),
      OptionalItem(orloc, ByteItem, B([])),
      U(W1, rpsel),
      L(PresentEach(refps, "S12F4" + " " + "REFPS")),
      A(dutms),
      Present(xdies, "S12F4" + " " + "XDIES"),
      Present(ydies, "S12F4" + " " + "YDIES"),
      Present(rowct, "S12F4" + " " + "ROWCT"),
      Present(colct, "S12F4" + " " + "COLCT"),
      Present(prdct, "S12F4" + " " + "PRDCT"),
      Present(bcequ, "S12F4" + " " + "BCEQU"),
      Present(nulbc, "S12F4" + " " + "NULBC"),
      Present(mlcl, "S12F4" + " " + "MLCL")
    ])
  }

  /** The form of a decoded body: an open item is nil only where the short form leaves it out. */
  predicate S12F4IsFull(m: S12F4Reply) {
    !m.mid.Nil?
  }

  /** The struct laid out as the value of its shape. */
  function PackS12F4(full: bool, m: S12F4Reply): Value {
    RowV(full,
      And(ItemV(m.mid),
      And(ByteV(m.idtyp),
      And(PackOption(PackUint16)(m.fnloc),
      And(PackOption(PackByte)(m.orloc),
      And(UintV(m.rpsel),
      And(PackMany(PackItem)(m.refps),
      And(TextV(m.dutms),
      And(ItemV(m.xdies),
      And(ItemV(m.ydies),
      And(ItemV(m.rowct),
      And(ItemV(m.colct),
      And(ItemV(m.prdct),
      And(ItemV(m.bcequ),
      And(ItemV(m.nulbc),
      And(ItemV(m.mlcl),
      Nothing))))))))))))))))
  }

  /** The full list is read field after field, each hop in range. */
  lemma S12F4Steps(c: Cursor, place: string, lenient: bool)
    requires Open(c) && 15 <= |c.item.items|
    ensures forall k: nat :: k < 15 ==> Sane(c.At([k]))
    ensures Rest(S12F4_BODY.slots, c, 0, 15, "", place, lenient) ==
              Glue(DecodeLeaf(KScalar, c.At([0]), "MID"),
              Glue(DecodeLeaf(KByte, c.At([1]), "IDTYP"),
              Glue(DecodeAt(Optional(KUint(W2)), c.At([2]), "FNLOC", lenient),
              Glue(DecodeAt(Optional(KByte), c.At([3]), "ORLOC", lenient),
              Glue(DecodeLeaf(KUint(W1), c.At([4]), "RPSEL"),
              Glue(DecodeAt(Repeat(Leaf(KScalar)), c.At([5]), "REFPS", lenient),
              Glue(DecodeLeaf(KText, c.At([6]), "DUTMS"),
              Glue(DecodeLeaf(KScalar, c.At([7]), "XDIES"),
              Glue(DecodeLeaf(KScalar, c.At([8]), "YDIES"),
              Glue(DecodeLeaf(KScalar, c.At([9]), "ROWCT"),
              Glue(DecodeLeaf(KScalar, c.At([10]), "COLCT"),
              Glue(DecodeLeaf(KScalar, c.At([11]), "PRDCT"),
              Glue(DecodeLeaf(KScalar, c.At([12]), "BCEQU"),
              Glue(DecodeLeaf(KScalar, c.At([13]), "NULBC"),
              Glue(DecodeLeaf(KScalar, c.At([14]), "MLCL"), Ok(Nothing))))))))))))))))
  {
    hide Cursor.At, Cursor.Hop, Errors, Glue, Rest, Decode, DecodeAt, DecodeRow, DecodeRowAt, DecodeSlots, DecodeLeaf;
    forall k: nat | k < 15 ensures Sane(c.At([k])) { HopReaches(c, k); }
    var rest := StepLeaf(S12F4_BODY.slots, c, 0, 15, "", place, lenient);
    rest := StepLeaf(rest, c, 1, 15, "", place, lenient);
    rest := Step(rest, c, 2, 15, "", place, lenient);
    rest := Step(rest, c, 3, 15, "", place, lenient);
    rest := StepLeaf(rest, c, 4, 15, "", place, lenient);
    rest := Step(rest, c, 5, 15, "", place, lenient);
    rest := StepLeaf(rest, c, 6, 15, "", place, lenient);
    rest := StepLeaf(rest, c, 7, 15, "", place, lenient);
    rest := StepLeaf(rest, c, 8, 15, "", place, lenient);
    rest := StepLeaf(rest, c, 9, 15, "", place, lenient);
    rest := StepLeaf(rest, c, 10, 15, "", place, lenient);
    rest := StepLeaf(rest, c, 11, 15, "", place, lenient);
    rest := StepLeaf(rest, c, 12, 15, "", place, lenient);
    rest := StepLeaf(rest, c, 13, 15, "", place, lenient);
    rest := StepLeaf(rest, c, 14, 15, "", place, lenient);
    Finish(rest, c, 15, 15, "", place, lenient);
  }

  /** The fields the short form omits. */
  lemma S12F4Zeros()
    ensures Zeros(S12F4_BODY.slots) ==
              And(ItemV(Nil(false)),
              And(ByteV(0),
              And(PackOption(PackUint16)(None),
              And(PackOption(PackByte)(None),
              And(UintV(0),
              And(PackMany(PackItem)([]),
              And(TextV(""),
              And(ItemV(Nil(false)),
              And(ItemV(Nil(false)),
              And(ItemV(Nil(false)),
              And(ItemV(Nil(false)),
              And(ItemV(Nil(false)),
              And(ItemV(Nil(false)),
              And(ItemV(Nil(false)),
              And(ItemV(Nil(false)),
              Nothing)))))))))))))))
  {
    assert PackAll(PackItem, []) == [];
    var s0 := S12F4_BODY.slots;
    var s1 := s0.rest;
    var s2 := s1.rest;
    var s3 := s2.rest;
    var s4 := s3.rest;
    var s5 := s4.rest;
    var s6 := s5.rest;
    var s7 := s6.rest;
    var s8 := s7.rest;
    var s9 := s8.rest;
    var s10 := s9.rest;
    var s11 := s10.rest;
    var s12 := s11.rest;
    var s13 := s12.rest;
    var s14 := s13.rest;
    assert Zeros(s14).And?;
    assert Zeros(s12).And?;
    assert Zeros(s10).And?;
    assert Zeros(s8).And?;
    assert Zeros(s6).And?;
    assert Zeros(s4).And?;
    assert Zeros(s2).And?;
    assert Zeros(s0).And?;
  }

  lemma S12F4Short(c: Cursor, place: string, lenient: bool)
    requires Open(c)
    ensures Rest(S12F4_BODY.slots, c, 0, 0, "", place, lenient) ==
              Ok(Zeros(S12F4_BODY.slots))
  {
    Finish(S12F4_BODY.slots, c, 0, 0, "", place, lenient);
  }

  /** The fields in declaration order, returning at the first error with what was filled in so far. */
  method DecodeS12F4(shared: DecodeConfig, item: Item, opts: seq<DecodeOption>)
    returns (out: S12F4Reply, err: Option<Error>)
    requires !shared.allowTrailing
    ensures Reports(err, PackS12F4(S12F4IsFull(out), out), DecodeBody("S12F4", S12F4_BODY, item, Lenient(opts)))
  {
    hide Cursor.At, Cursor.Hop, Errors, ListAt, RequireArity, OptionalArity, Each, EachFrom, PresentAt, DecodeOptional;
    hide Decode, DecodeAt, DecodeBody, DecodeRow, DecodeRowAt, DecodeSlots, Rest, Zeros, PackMany, PackOption;
    hide Sane, Open, Index, NewCursor;
    hide DecodeASCII, DecodeItem, DecodeScalarItem, DecodeBool, DecodeByteAs, DecodeUint;
    hide S12F4_BODY;
    out := S12F4Reply(
      Nil(false), 0, None, None, 0, [], "", Nil(false), Nil(false), Nil(false), Nil(false), Nil(false),
      Nil(false), Nil(false), Nil(false));
    var root := NewCursor(item);
    var cfg := NewDecodeConfig(shared, opts);
    var lenient := cfg.allowTrailing;
    var place := "S12F4" + " body";
    BodyAt("S12F4", S12F4_BODY, item, lenient);
    S12F4IsWellFormed();
    OpenBounded(S12F4_BODY, root, "", place, lenient);
    var n1 := OptionalArity(root, place, 0, 15, lenient);
    if n1.Err? { return out, Some(n1.error); }
    if n1.value == 15 {
      S12F4Steps(root, place, lenient);
      var mid := DecodeScalarItem(root.At([0]), "MID");
      if mid.Err? { return out, Some(mid.error); }
      out := out.(mid := mid.value);
      var idtyp := DecodeByteAs(root.At([1]), "IDTYP");
      if idtyp.Err? { return out, Some(idtyp.error); }
      out := out.(idtyp := idtyp.value);
      OptionalUint16Implements(root.At([2]), "FNLOC", lenient);
      var fnloc := DecodeOptional(root.At([2]), "FNLOC", KUint(W2), DecodeUint16);
      if fnloc.Err? { return out, Some(fnloc.error); }
      out := out.(fnloc := fnloc.value);
      OptionalByteImplements(root.At([3]), "ORLOC", lenient);
      var orloc := DecodeOptional(root.At([3]), "ORLOC", KByte, DecodeByteAs);
      if orloc.Err? { return out, Some(orloc.error); }
      out := out.(orloc := orloc.value);
      var rpsel := DecodeUint8(root.At([4]), "RPSEL");
      if rpsel.Err? { return out, Some(rpsel.error); }
      out := out.(rpsel := rpsel.value);
      ScalarsImplement(root.At([5]), "REFPS", lenient);
      var refps := DecodeEach(root.At([5]), "REFPS", DecodeScalarItem);
      if refps.Err? { return out, Some(refps.error); }
      out := out.(refps := refps.value);
      var dutms := DecodeASCII(root.At([6]), "DUTMS");
      if dutms.Err? { return out, Some(dutms.error); }
      out := out.(dutms := dutms.value);
      var xdies := DecodeScalarItem(root.At([7]), "XDIES");
      if xdies.Err? { return out, Some(xdies.error); }
      out := out.(xdies := xdies.value);
      var ydies := DecodeScalarItem(root.At([8]), "YDIES");
      if ydies.Err? { return out, Some(ydies.error); }
      out := out.(ydies := ydies.value);
      var rowct := DecodeScalarItem(root.At([9]), "ROWCT");
      if rowct.Err? { return out, Some(rowct.error); }
      out := out.(rowct := rowct.value);
      var colct := DecodeScalarItem(root.At([10]), "COLCT");
      if colct.Err? { return out, Some(colct.error); }
      out := out.(colct := colct.value);
      var prdct := DecodeScalarItem(root.At([11]), "PRDCT");
      if prdct.Err? { return out, Some(prdct.error); }
      out := out.(prdct := prdct.value);
      var bcequ := DecodeScalarItem(root.At([12]), "BCEQU");
      if bcequ.Err? { return out, Some(bcequ.error); }
      out := out.(bcequ := bcequ.value);
      var nulbc := DecodeScalarItem(root.At([13]), "NULBC");
      if nulbc.Err? { return out, Some(nulbc.error); }
      out := out.(nulbc := nulbc.value);
      var mlcl := DecodeScalarItem(root.At([14]), "MLCL");
      if mlcl.Err? { return out, Some(mlcl.error); }
      out := out.(mlcl := mlcl.value);
      ScalarIsPresent(root.At([0]), "MID");
    } else {
      S12F4Short(root, place, lenient);
      S12F4Zeros();
    }
    return out, None;
  }

  /** The builder sends what the shape builds from the same values. */
  lemma S12F4Builds(m: S12F4Reply)
    ensures RowTyped(S12F4_BODY, PackS12F4(true, m))
    ensures BuildBody("S12F4", S12F4_BODY, PackS12F4(true, m)) ==
              S12F4(
                m.mid, m.idtyp, m.fnloc, m.orloc, m.rpsel, m.refps, m.dutms, m.xdies, m.ydies, m.rowct,
                m.colct, m.prdct, m.bcequ, m.nulbc, m.mlcl)
  {
    hide Spelled, Typed, RowTyped, SlotsTyped, Build, BuildRow, BuildSlots;
    hide L, A, B, BOOLEAN, U, Present, PresentEach, OptionalItem, PackOption, PackMany, MapItems, RowItems;
    var owner, v := "S12F4" + " ", PackS12F4(true, m);
    var items := [
      Present(m.mid, owner + "MID"),
      B([m.idtyp]),
      OptionalItem(m.fnloc, Uint16Item, Uints(W2, [])),
      OptionalItem(m.orloc, ByteItem, B([])),
      U(W1, m.rpsel),
      L(PresentEach(m.refps, owner + "REFPS")),
      A(m.dutms),
      Present(m.xdies, owner + "XDIES"),
      Present(m.ydies, owner + "YDIES"),
      Present(m.rowct, owner + "ROWCT"),
      Present(m.colct, owner + "COLCT"),
      Present(m.prdct, owner + "PRDCT"),
      Present(m.bcequ, owner + "BCEQU"),
      Present(m.nulbc, owner + "NULBC"),
      Present(m.mlcl, owner + "MLCL")
    ];
    S12F4IsWellFormed();
    S12F4TailSpelled(m, owner, items);
    S12F4HeadSpelled(m, owner, items);
    SpellRow(S12F4_BODY, v, owner, items);
  }

  lemma S12F4HeadSpelled(m: S12F4Reply, owner: string, items: seq<Item>)
    requires |items| == 15
    requires items[0] == Present(m.mid, owner + "MID")
    requires items[1] == B([m.idtyp])
    requires items[2] == OptionalItem(m.fnloc, Uint16Item, Uints(W2, []))
    requires items[3] == OptionalItem(m.orloc, ByteItem, B([]))
    requires items[4] == U(W1, m.rpsel)
    requires items[5] == L(PresentEach(m.refps, owner + "REFPS"))
    requires items[6] == A(m.dutms)
    requires Spelled(S12F4_BODY.slots.rest.rest.rest.rest.rest.rest.rest,
                     PackS12F4(true, m).fields.rest.rest.rest.rest.rest.rest.rest, 8, owner, items, 7)
    ensures Spelled(S12F4_BODY.slots, PackS12F4(true, m).fields, 15, owner, items, 0)
  {
    hide Spelled, Typed, RowTyped, SlotsTyped, Build, BuildRow, BuildSlots;
    hide L, A, B, BOOLEAN, U, Present, PresentEach, OptionalItem, PackOption, PackMany, MapItems, RowItems;
    var v := PackS12F4(true, m);
    OptionalUint16Builds(m.fnloc, owner + "FNLOC");
    OptionalByteBuilds(m.orloc, owner + "ORLOC");
    ScalarsBuild(m.refps, owner + "REFPS");
    var s0, v0 := S12F4_BODY.slots, v.fields;
    var s1, v1 := s0.rest, v0.rest;
    var s2, v2 := s1.rest, v1.rest;
    var s3, v3 := s2.rest, v2.rest;
    var s4, v4 := s3.rest, v3.rest;
    var s5, v5 := s4.rest, v4.rest;
    var s6, v6 := s5.rest, v5.rest;
    SpellLeaf(s6, v6, 9, owner, items, 6);
    SpellField(s5, v5, 10, owner, items, 5);
    SpellLeaf(s4, v4, 11, owner, items, 4);
    SpellField(s3, v3, 12, owner, items, 3);
    SpellField(s2, v2, 13, owner, items, 2);
    SpellLeaf(s1, v1, 14, owner, items, 1);
    SpellLeaf(s0, v0, 15, owner, items, 0);
  }

  lemma S12F4TailSpelled(m: S12F4Reply, owner: string, items: seq<Item>)
    requires |items| == 15
    requires items[7] == Present(m.xdies, owner + "XDIES")
    requires items[8] == Present(m.ydies, owner + "YDIES")
    requires items[9] == Present(m.rowct, owner + "ROWCT")
    requires items[10] == Present(m.colct, owner + "COLCT")
    requires items[11] == Present(m.prdct, owner + "PRDCT")
    requires items[12] == Present(m.bcequ, owner + "BCEQU")
    requires items[13] == Present(m.nulbc, owner + "NULBC")
    requires items[14] == Present(m.mlcl, owner + "MLCL")
    ensures Spelled(S12F4_BODY.slots.rest.rest.rest.rest.rest.rest.rest,
                    PackS12F4(true, m).fields.rest.rest.rest.rest.rest.rest.rest, 8, owner, items, 7)
  {
    hide Spelled, Typed, RowTyped, SlotsTyped, Build, BuildRow, BuildSlots;
    hide L, A, B, BOOLEAN, U, Present, PresentEach, OptionalItem, PackOption, PackMany, MapItems, RowItems;
    var v := PackS12F4(true, m);
    var s7, v7 := S12F4_BODY.slots.rest.rest.rest.rest.rest.rest.rest, v.fields.rest.rest.rest.rest.rest.rest.rest;
    var s8, v8 := s7.rest, v7.rest;
    var s9, v9 := s8.rest, v8.rest;
    var s10, v10 := s9.rest, v9.rest;
    var s11, v11 := s10.rest, v10.rest;
    var s12, v12 := s11.rest, v11.rest;
    var s13, v13 := s12.rest, v12.rest;
    var s14, v14 := s13.rest, v13.rest;
    SpellEnd(owner, items);
    SpellLeaf(s14, v14, 1, owner, items, 14);
    SpellLeaf(s13, v13, 2, owner, items, 13);
    SpellLeaf(s12, v12, 3, owner, items, 12);
    SpellLeaf(s11, v11, 4, owner, items, 11);
    SpellLeaf(s10, v10, 5, owner, items, 10);
    SpellLeaf(s9, v9, 6, owner, items, 9);
    SpellLeaf(s8, v8, 7, owner, items, 8);
    SpellLeaf(s7, v7, 8, owner, items, 7);
  }

  lemma S12F4IsWellFormed()
    ensures Len(S12F4_BODY.slots) == 15 && S12F4_BODY.short == 0 && WellFormedRow(S12F4_BODY)
  {
    var s0 := S12F4_BODY.slots;
    var s1 := s0.rest;
    var s2 := s1.rest;
    var s3 := s2.rest;
    var s4 := s3.rest;
    var s5 := s4.rest;
    var s6 := s5.rest;
    var s7 := s6.rest;
    var s8 := s7.rest;
    var s9 := s8.rest;
    var s10 := s9.rest;
    var s11 := s10.rest;
    var s12 := s11.rest;
    var s13 := s12.rest;
    var s14 := s13.rest;
    assert Len(s14) == 1 && WellFormedSlots(s14);
    assert Len(s13) == 2 && WellFormedSlots(s13);
    assert Len(s12) == 3 && WellFormedSlots(s12);
    assert Len(s11) == 4 && WellFormedSlots(s11);
    assert Len(s10) == 5 && WellFormedSlots(s10);
    assert Len(s9) == 6 && WellFormedSlots(s9);
    assert Len(s8) == 7 && WellFormedSlots(s8);
    assert Len(s7) == 8 && WellFormedSlots(s7);
    assert Len(s6) == 9 && WellFormedSlots(s6);
    assert Len(s5) == 10 && WellFormedSlots(s5);
    assert Len(s4) == 11 && WellFormedSlots(s4);
    assert Len(s3) == 12 && WellFormedSlots(s3);
    assert Len(s2) == 13 && WellFormedSlots(s2);
    assert Len(s1) == 14 && WellFormedSlots(s1);
    assert Len(s0) == 15 && WellFormedSlots(s0);
  }

  lemma S12F4LayoutIsInjective(f: bool, g: bool, a: S12F4Reply, b: S12F4Reply)
    requires PackS12F4(f, a) == PackS12F4(g, b)
    ensures a == b
  {
    hide PackMany, PackOption;
    OptionIsInjective(PackUint16);
    OptionIsInjective(PackByte);
    ManyIsInjective(PackItem);
  }

  /** Of all arguments, exactly those that can be sent come back, and come back unchanged. */
  method S12F4RoundTrip(shared: DecodeConfig, m: S12F4Reply) returns (out: S12F4Reply, err: Option<Error>)
    requires !shared.allowTrailing
    ensures err.None? <==> RowFits(S12F4_BODY, PackS12F4(true, m))
    ensures err.None? ==> out == m
  {
    hide DecodeBody, BuildBody, RowTyped, RowFits, PackMany, PackOption;
    S12F4IsWellFormed();
    S12F4Builds(m);
    BodyRoundTripExactly("S12F4", S12F4_BODY, PackS12F4(true, m));
    var body := S12F4(
      m.mid, m.idtyp, m.fnloc, m.orloc, m.rpsel, m.refps, m.dutms, m.xdies, m.ydies, m.rowct, m.colct,
      m.prdct, m.bcequ, m.nulbc, m.mlcl);
    out, err := DecodeS12F4(shared, body, []);
    if err.None? { S12F4LayoutIsInjective(S12F4IsFull(out), true, out, m); }
  }

  lemma S12F4ItemsOnTheWire(m: S12F4Reply, owner: string, items: seq<Item>)
    requires items == [
               Present(m.mid, owner + "MID"),
               B([m.idtyp]),
               OptionalItem(m.fnloc, Uint16Item, Uints(W2, [])),
               OptionalItem(m.orloc, ByteItem, B([])),
               U(W1, m.rpsel),
               L(PresentEach(m.refps, owner + "REFPS")),
               A(m.dutms),
               Present(m.xdies, owner + "XDIES"),
               Present(m.ydies, owner + "YDIES"),
               Present(m.rowct, owner + "ROWCT"),
               Present(m.colct, owner + "COLCT"),
               Present(m.prdct, owner + "PRDCT"),
               Present(m.bcequ, owner + "BCEQU"),
               Present(m.nulbc, owner + "NULBC"),
               Present(m.mlcl, owner + "MLCL")
             ]
    requires forall i :: 0 <= i < |items| ==> Usable(items[i])
    ensures items == [
              m.mid,
              Binary([m.idtyp]),
              if m.fnloc.None? then Uints(W2, []) else Uints(W2, [m.fnloc.value]),
              if m.orloc.None? then Binary([]) else Binary([m.orloc.value]),
              Uints(W1, [m.rpsel]),
              List(m.refps),
              Text(m.dutms),
              m.xdies,
              m.ydies,
              m.rowct,
              m.colct,
              m.prdct,
              m.bcequ,
              m.nulbc,
              m.mlcl
            ]
  {
    hide Errors, ChildErrors, Usable, WithoutNil, Present;
    assert Usable(items[0]);
    PresentUsable(m.mid, owner + "MID");
    assert Usable(items[5]);
    ItemsOnTheWire(m.refps, owner + "REFPS");
    assert Usable(items[6]);
    TextOnTheWire(m.dutms);
    assert Usable(items[7]);
    PresentUsable(m.xdies, owner + "XDIES");
    assert Usable(items[8]);
    PresentUsable(m.ydies, owner + "YDIES");
    assert Usable(items[9]);
    PresentUsable(m.rowct, owner + "ROWCT");
    assert Usable(items[10]);
    PresentUsable(m.colct, owner + "COLCT");
    assert Usable(items[11]);
    PresentUsable(m.prdct, owner + "PRDCT");
    assert Usable(items[12]);
    PresentUsable(m.bcequ, owner + "BCEQU");
    assert Usable(items[13]);
    PresentUsable(m.nulbc, owner + "NULBC");
    assert Usable(items[14]);
    PresentUsable(m.mlcl, owner + "MLCL");
  }

  /** Each argument of a body that is sent stands at its own position. */
  lemma S12F4OnTheWire(m: S12F4Reply)
    requires Errors(S12F4(
      m.mid, m.idtyp, m.fnloc, m.orloc, m.rpsel, m.refps, m.dutms, m.xdies, m.ydies, m.rowct, m.colct,
      m.prdct, m.bcequ, m.nulbc, m.mlcl)) == []
    ensures S12F4(
      m.mid, m.idtyp, m.fnloc, m.orloc, m.rpsel, m.refps, m.dutms, m.xdies, m.ydies, m.rowct, m.colct,
      m.prdct, m.bcequ, m.nulbc, m.mlcl) ==
              List([
                m.mid,
                Binary([m.idtyp]),
                if m.fnloc.None? then Uints(W2, []) else Uints(W2, [m.fnloc.value]),
                if m.orloc.None? then Binary([]) else Binary([m.orloc.value]),
                Uints(W1, [m.rpsel]),
                List(m.refps),
                Text(m.dutms),
                m.xdies,
                m.ydies,
                m.rowct,
                m.colct,
                m.prdct,
                m.bcequ,
                m.nulbc,
                m.mlcl
              ])
  {
    hide Errors, ChildErrors, Usable, WithoutNil, Present;
    var items := [
      Present(m.mid, "S12F4" + " " + "MID"),
      B([m.idtyp]),
      OptionalItem(m.fnloc, Uint16Item, Uints(W2, [])),
      OptionalItem(m.orloc, ByteItem, B([])),
      U(W1, m.rpsel),
      L(PresentEach(m.refps, "S12F4" + " " + "REFPS")),
      A(m.dutms),
      Present(m.xdies, "S12F4" + " " + "XDIES"),
      Present(m.ydies, "S12F4" + " " + "YDIES"),
      Present(m.rowct, "S12F4" + " " + "ROWCT"),
      Present(m.colct, "S12F4" + " " + "COLCT"),
      Present(m.prdct, "S12F4" + " " + "PRDCT"),
      Present(m.bcequ, "S12F4" + " " + "BCEQU"),
      Present(m.nulbc, "S12F4" + " " + "NULBC"),
      Present(m.mlcl, "S12F4" + " " + "MLCL")
    ];
    ListOnTheWire(items);
    S12F4ItemsOnTheWire(m, "S12F4" + " ", items);
  }

  lemma S12F4FieldsFrom0()
    ensures GoodName("S12F4")
    ensures Tagged(S12F4_BODY.slots, 3_077_068_068)
    ensures Tagged(S12F4_BODY.slots.rest, 5_073_084_080)
    ensures Tagged(S12F4_BODY.slots.rest.rest, 5_070_076_067)
  {
  }

  lemma S12F4FieldsFrom3()
    ensures Tagged(S12F4_BODY.slots.rest.rest.rest, 5_079_076_067)
    ensures Tagged(S12F4_BODY.slots.rest.rest.rest.rest, 5_082_083_076)
    ensures Tagged(S12F4_BODY.slots.rest.rest.rest.rest.rest, 5_082_070_083)
  {
  }

  lemma S12F4FieldsFrom6()
    ensures Tagged(S12F4_BODY.slots.rest.rest.rest.rest.rest.rest, 5_068_084_083)
    ensures Tagged(S12F4_BODY.slots.rest.rest.rest.rest.rest.rest.rest, 5_088_073_083)
    ensures Tagged(S12F4_BODY.slots.rest.rest.rest.rest.rest.rest.rest.rest, 5_089_073_083)
  {
  }

  lemma S12F4FieldsFrom9()
    ensures Tagged(S12F4_BODY.slots.rest.rest.rest.rest.rest.rest.rest.rest.rest, 5_082_087_084)
    ensures Tagged(S12F4_BODY.slots.rest.rest.rest.rest.rest.rest.rest.rest.rest.rest, 5_067_076_084)
    ensures Tagged(S12F4_BODY.slots.rest.rest.rest.rest.rest.rest.rest.rest.rest.rest.rest, 5_080_068_084)
  {
  }

  lemma S12F4FieldsFrom12()
    ensures Tagged(S12F4_BODY.slots.rest.rest.rest.rest.rest.rest.rest.rest.rest.rest.rest.rest, 5_066_069_085)
    ensures Tagged(S12F4_BODY.slots.rest.rest.rest.rest.rest.rest.rest.rest.rest.rest.rest.rest.rest, 5_078_076_067)
    ensures Tagged(S12F4_BODY.slots.rest.rest.rest.rest.rest.rest.rest.rest.rest.rest.rest.rest.rest.rest, 4_077_067_076)
    ensures S12F4_BODY.slots.rest.rest.rest.rest.rest.rest.rest.rest.rest.rest.rest.rest.rest.rest.rest == End
  {
  }

  /** The names of one struct are distinct. */
  lemma S12F4NamesDiffer()
    ensures GoodName("S12F4") && SlotNamesDistinct(S12F4_BODY.slots)
  {
    hide SlotNamesDistinct, GoodName, FieldTags, Tagged, S12F4_BODY;
    S12F4FieldsFrom0();
    S12F4FieldsFrom3();
    S12F4FieldsFrom6();
    S12F4FieldsFrom9();
    S12F4FieldsFrom12();
    var tags := NoNames();
    tags := NamesStep(S12F4_BODY.slots.rest.rest.rest.rest.rest.rest.rest.rest.rest.rest.rest.rest.rest.rest, 4_077_067_076, tags);
    tags := NamesStep(S12F4_BODY.slots.rest.rest.rest.rest.rest.rest.rest.rest.rest.rest.rest.rest.rest, 5_078_076_067, tags);
    tags := NamesStep(S12F4_BODY.slots.rest.rest.rest.rest.rest.rest.rest.rest.rest.rest.rest.rest, 5_066_069_085, tags);
    tags := NamesStep(S12F4_BODY.slots.rest.rest.rest.rest.rest.rest.rest.rest.rest.rest.rest, 5_080_068_084, tags);
    tags := NamesStep(S12F4_BODY.slots.rest.rest.rest.rest.rest.rest.rest.rest.rest.rest, 5_067_076_084, tags);
    tags := NamesStep(S12F4_BODY.slots.rest.rest.rest.rest.rest.rest.rest.rest.rest, 5_082_087_084, tags);
    tags := NamesStep(S12F4_BODY.slots.rest.rest.rest.rest.rest.rest.rest.rest, 5_089_073_083, tags);
    tags := NamesStep(S12F4_BODY.slots.rest.rest.rest.rest.rest.rest.rest, 5_088_073_083, tags);
    tags := NamesStep(S12F4_BODY.slots.rest.rest.rest.rest.rest.rest, 5_068_084_083, tags);
    tags := NamesStep(S12F4_BODY.slots.rest.rest.rest.rest.rest, 5_082_070_083, tags);
    tags := NamesStep(S12F4_BODY.slots.rest.rest.rest.rest, 5_082_083_076, tags);
    tags := NamesStep(S12F4_BODY.slots.rest.rest.rest, 5_079_076_067, tags);
    tags := NamesStep(S12F4_BODY.slots.rest.rest, 5_070_076_067, tags);
    tags := NamesStep(S12F4_BODY.slots.rest, 5_073_084_080, tags);
    tags := NamesStep(S12F4_BODY.slots, 3_077_068_068, tags);
  }

  /** The error names the first failing position of the body, its indices included, and no other position. */
  lemma S12F4ErrorNamesTheFirstFailure(item: Item, lenient: bool, p: Path)
    requires DecodeBody("S12F4", S12F4_BODY, item, lenient).Err?
    requires PlaceInRow(S12F4_BODY, "", "S12F4" + " body", p) ==
               Some(DecodeBody("S12F4", S12F4_BODY, item, lenient).error.place)
    ensures FirstFailingInRow(S12F4_BODY, item, lenient, p)
  {
    hide DecodeBody, PlaceInRow, SlotNamesDistinct, WellFormedRow, FirstFailingInRow, GoodName;
    S12F4IsWellFormed();
    S12F4NamesDiffer();
    ErrorNamesTheFirstFailure("S12F4", S12F4_BODY, item, lenient, p);
  }

  /** Decoding a body and building it again normalises it, and with AllowTrailing prunes it. */
  method S12F4Rebuild(shared: DecodeConfig, item: Item, opts: seq<DecodeOption>)
    returns (rebuilt: Item, err: Option<Error>)
    requires !shared.allowTrailing && Clean(item)
    ensures err.None? <==> RowConforms(S12F4_BODY, Kept(S12F4_BODY, item, Lenient(opts)))
    ensures err.None? ==> rebuilt == NormaliseRow(S12F4_BODY, Kept(S12F4_BODY, item, Lenient(opts)))
  {
    hide DecodeBody, BuildBody, RowTyped, RowFits, RowConforms, NormaliseRow, Kept;
    S12F4IsWellFormed();
    BodyRebuildExactly("S12F4", S12F4_BODY, item, Lenient(opts));
    OnlyEmptyIsShort("S12F4", S12F4_BODY, item, Lenient(opts));
    rebuilt := item;
    var out;
    out, err := DecodeS12F4(shared, item, opts);
    if err.None? && S12F4IsFull(out) {
      S12F4Builds(out);
      rebuilt := S12F4(
        out.mid, out.idtyp, out.fnloc, out.orloc, out.rpsel, out.refps, out.dutms, out.xdies, out.ydies,
        out.rowct, out.colct, out.prdct, out.bcequ, out.nulbc, out.mlcl);
    } else if err.None? {
      rebuilt := L([]);
    }
  }
}
