/**
 S13F13 (Table Data Send): attributes, column headers, and rows of open items.
 */
module Stream13 {
  import opened Secs2
  import opened Decimal
  import opened Decoding
  import opened Shapes
  import opened Building
  import opened Places
  import opened Options
  import opened RoundTrip
  import opened Refinement
  import opened Groups

  // ----- S13F13 -----

  datatype S13F13Body = S13F13Body(
    dataid: Item,
    objspec: string,
    tbltyp: string,
    tblid: string,
    tblcmd: Uint8,
    attrs: seq<Attribute>,
    colhdrs: seq<string>,
    rows: seq<seq<Item>>)

  const S13F13_BODY: Row :=
    Row(8,
        Field("DATAID", Leaf(KScalar),
        Field("OBJSPEC", Leaf(KText),
        Field("TBLTYP", Leaf(KText),
        Field("TBLID", Leaf(KText),
        Field("TBLCMD", Leaf(KUint(W1)),
        Field("ATTRS", Repeat(Group("Attribute", ATTRIBUTE)),
        Field("COLHDRS", Repeat(Leaf(KText)),
        Field("ROWS", Repeat(Items),
        End)))))))))

  /** The body S13F13 sends. */
  function S13F13(
    dataid: Item,
    objspec: string,
    tbltyp: string,
    tblid: string,
    tblcmd: Uint8,
    attrs: seq<Attribute>,
    colhdrs: seq<string>,
    rows: seq<seq<Item>>): Item
  {
    L([
      Present(dataid, "S13F13" + " " + "DATAID"),
      A(objspec),
      A(tbltyp),
      A(tblid),
      U(W1, tblcmd),
      L(MapItems(attrs, AttributeItem)),
      L(MapItems(colhdrs, A)),
      L(RowItems(rows, "S13F13" + " " + "ROWS"))
    ])
  }

  /** The struct laid out as the value of its shape. */
  function PackS13F13(m: S13F13Body): Value {
    RowV(true,
      And(ItemV(m.dataid),
      And(TextV(m.objspec),
      And(TextV(m.tbltyp),
      And(TextV(m.tblid),
      And(UintV(m.tblcmd),
      And(PackMany(PackAttribute)(m.attrs),
      And(PackMany(PackText)(m.colhdrs),
      And(PackMany(PackMany(PackItem))(m.rows),
      Nothing)))))))))
  }

  /** The full list is read field after field, each hop in range. */
  lemma S13F13Steps(c: Cursor, place: string, lenient: bool)
    requires Open(c) && 8 <= |c.item.items|
    ensures forall k: nat :: k < 8 ==> Sane(c.At([k]))
    ensures Rest(S13F13_BODY.slots, c, 0, 8, "", place, lenient) ==
              Glue(DecodeLeaf(KScalar, c.At([0]), "DATAID"),
              Glue(DecodeLeaf(KText, c.At([1]), "OBJSPEC"),
              Glue(DecodeLeaf(KText, c.At([2]), "TBLTYP"),
              Glue(DecodeLeaf(KText, c.At([3]), "TBLID"),
              Glue(DecodeLeaf(KUint(W1), c.At([4]), "TBLCMD"),
              Glue(DecodeAt(Repeat(Group("Attribute", ATTRIBUTE)), c.At([5]), "ATTRS", lenient),
              Glue(DecodeAt(Repeat(Leaf(KText)), c.At([6]), "COLHDRS", lenient),
              Glue(DecodeAt(Repeat(Items), c.At([7]), "ROWS", lenient), Ok(Nothing)))))))))
  {
    hide Cursor.At, Cursor.Hop, Errors, Glue, Rest, Decode, DecodeAt, DecodeRow, DecodeRowAt, DecodeSlots, DecodeLeaf;
    forall k: nat | k < 8 ensures Sane(c.At([k])) { HopReaches(c, k); }
    var rest := StepLeaf(S13F13_BODY.slots, c, 0, 8, "", place, lenient);
    rest := StepLeaf(rest, c, 1, 8, "", place, lenient);
    rest := StepLeaf(rest, c, 2, 8, "", place, lenient);
    rest := StepLeaf(rest, c, 3, 8, "", place, lenient);
    rest := StepLeaf(rest, c, 4, 8, "", place, lenient);
    rest := Step(rest, c, 5, 8, "", place, lenient);
    rest := Step(rest, c, 6, 8, "", place, lenient);
    rest := Step(rest, c, 7, 8, "", place, lenient);
    Finish(rest, c, 8, 8, "", place, lenient);
  }

  /** The fields in declaration order, returning at the first error with what was filled in so far. */
  method DecodeS13F13(shared: DecodeConfig, item: Item, opts: seq<DecodeOption>)
    returns (out: S13F13Body, err: Option<Error>)
    requires !shared.allowTrailing
    ensures Reports(err, PackS13F13(out), DecodeBody("S13F13", S13F13_BODY, item, Lenient(opts)))
  {
    hide Cursor.At, Cursor.Hop, Errors, ListAt, RequireArity, OptionalArity, Each, EachFrom, PresentAt, DecodeOptional;
    hide Decode, DecodeAt, DecodeBody, DecodeRow, DecodeRowAt, DecodeSlots, Rest, Zeros, PackMany, PackOption;
    hide Sane, Open, Index, NewCursor;
    hide DecodeASCII, DecodeItem, DecodeScalarItem, DecodeBool, DecodeByteAs, DecodeUint;
    hide S13F13_BODY;
    out := S13F13Body(Nil(false), "", "", "", 0, [], [], []);
    var root := NewCursor(item);
    var cfg := NewDecodeConfig(shared, opts);
    var lenient := cfg.allowTrailing;
    var place := "S13F13" + " body";
    BodyAt("S13F13", S13F13_BODY, item, lenient);
    S13F13IsWellFormed();
    OpenFixed(S13F13_BODY, root, "", place, lenient);
    var arity := RequireArity(root, place, 8, lenient);
    if arity.Err? { return out, Some(arity.error); }
    S13F13Steps(root, place, lenient);
    var dataid := DecodeScalarItem(root.At([0]), "DATAID");
    if dataid.Err? { return out, Some(dataid.error); }
    out := out.(dataid := dataid.value);
    var objspec := DecodeASCII(root.At([1]), "OBJSPEC");
    if objspec.Err? { return out, Some(objspec.error); }
    out := out.(objspec := objspec.value);
    var tbltyp := DecodeASCII(root.At([2]), "TBLTYP");
    if tbltyp.Err? { return out, Some(tbltyp.error); }
    out := out.(tbltyp := tbltyp.value);
    var tblid := DecodeASCII(root.At([3]), "TBLID");
    if tblid.Err? { return out, Some(tblid.error); }
    out := out.(tblid := tblid.value);
    var tblcmd := DecodeUint8(root.At([4]), "TBLCMD");
    if tblcmd.Err? { return out, Some(tblcmd.error); }
    out := out.(tblcmd := tblcmd.value);
    AttributeRepeatDecodes(root.At([5]), "ATTRS", lenient);
    var attrs := DecodeEach(root.At([5]), "ATTRS", WithConfig(lenient, DecodeAttribute));
    if attrs.Err? { return out, Some(attrs.error); }
    out := out.(attrs := attrs.value);
    TextsImplement(root.At([6]), "COLHDRS", lenient);
    var colhdrs := DecodeEach(root.At([6]), "COLHDRS", DecodeASCII);
    if colhdrs.Err? { return out, Some(colhdrs.error); }
    out := out.(colhdrs := colhdrs.value);
    RowsImplement(root.At([7]), "ROWS", lenient);
    var rows := DecodeEach(root.At([7]), "ROWS", DecodeItems);
    if rows.Err? { return out, Some(rows.error); }
    out := out.(rows := rows.value);
    return out, None;
  }

  /** The builder sends what the shape builds from the same values. */
  lemma S13F13Builds(m: S13F13Body)
    ensures RowTyped(S13F13_BODY, PackS13F13(m))
    ensures BuildBody("S13F13", S13F13_BODY, PackS13F13(m)) ==
              S13F13(m.dataid, m.objspec, m.tbltyp, m.tblid, m.tblcmd, m.attrs, m.colhdrs, m.rows)
  {
    hide Spelled, Typed, RowTyped, SlotsTyped, Build, BuildRow, BuildSlots;
    hide L, A, B, BOOLEAN, U, Present, PresentEach, OptionalItem, PackOption, PackMany, MapItems, RowItems;
    var owner, v := "S13F13" + " ", PackS13F13(m);
    var items := [
      Present(m.dataid, owner + "DATAID"),
      A(m.objspec),
      A(m.tbltyp),
      A(m.tblid),
      U(W1, m.tblcmd),
      L(MapItems(m.attrs, AttributeItem)),
      L(MapItems(m.colhdrs, A)),
      L(RowItems(m.rows, owner + "ROWS"))
    ];
    S13F13IsWellFormed();
    S13F13TailSpelled(m, owner, items);
    S13F13HeadSpelled(m, owner, items);
    SpellRow(S13F13_BODY, v, owner, items);
  }

  lemma S13F13HeadSpelled(m: S13F13Body, owner: string, items: seq<Item>)
    requires |items| == 8
    requires items[0] == Present(m.dataid, owner + "DATAID")
    requires items[1] == A(m.objspec)
    requires items[2] == A(m.tbltyp)
    requires items[3] == A(m.tblid)
    requires Spelled(S13F13_BODY.slots.rest.rest.rest.rest,
                     PackS13F13(m).fields.rest.rest.rest.rest, 4, owner, items, 4)
    ensures Spelled(S13F13_BODY.slots, PackS13F13(m).fields, 8, owner, items, 0)
  {
    hide Spelled, Typed, RowTyped, SlotsTyped, Build, BuildRow, BuildSlots;
    hide L, A, B, BOOLEAN, U, Present, PresentEach, OptionalItem, PackOption, PackMany, MapItems, RowItems;
    var v := PackS13F13(m);
    var s0, v0 := S13F13_BODY.slots, v.fields;
    var s1, v1 := s0.rest, v0.rest;
    var s2, v2 := s1.rest, v1.rest;
    var s3, v3 := s2.rest, v2.rest;
    SpellLeaf(s3, v3, 5, owner, items, 3);
    SpellLeaf(s2, v2, 6, owner, items, 2);
    SpellLeaf(s1, v1, 7, owner, items, 1);
    SpellLeaf(s0, v0, 8, owner, items, 0);
  }

  lemma S13F13TailSpelled(m: S13F13Body, owner: string, items: seq<Item>)
    requires |items| == 8
    requires items[4] == U(W1, m.tblcmd)
    requires items[5] == L(MapItems(m.attrs, AttributeItem))
    requires items[6] == L(MapItems(m.colhdrs, A))
    requires items[7] == L(RowItems(m.rows, owner + "ROWS"))
    ensures Spelled(S13F13_BODY.slots.rest.rest.rest.rest,
                    PackS13F13(m).fields.rest.rest.rest.rest, 4, owner, items, 4)
  {
    hide Spelled, Typed, RowTyped, SlotsTyped, Build, BuildRow, BuildSlots;
    hide L, A, B, BOOLEAN, U, Present, PresentEach, OptionalItem, PackOption, PackMany, MapItems, RowItems;
    var v := PackS13F13(m);
    AttributeRepeatBuilds(m.attrs, owner + "ATTRS");
    TextsBuild(m.colhdrs, owner + "COLHDRS");
    RowsBuild(m.rows, owner + "ROWS");
    var s4, v4 := S13F13_BODY.slots.rest.rest.rest.rest, v.fields.rest.rest.rest.rest;
    var s5, v5 := s4.rest, v4.rest;
    var s6, v6 := s5.rest, v5.rest;
    var s7, v7 := s6.rest, v6.rest;
    SpellEnd(owner, items);
    SpellField(s7, v7, 1, owner, items, 7);
    SpellField(s6, v6, 2, owner, items, 6);
    SpellField(s5, v5, 3, owner, items, 5);
    SpellLeaf(s4, v4, 4, owner, items, 4);
  }

  lemma S13F13IsWellFormed()
    ensures Len(S13F13_BODY.slots) == 8 && S13F13_BODY.short == 8 && WellFormedRow(S13F13_BODY)
  {
    GroupsAreWellFormed();
    var s0 := S13F13_BODY.slots;
    var s1 := s0.rest;
    var s2 := s1.rest;
    var s3 := s2.rest;
    var s4 := s3.rest;
    var s5 := s4.rest;
    var s6 := s5.rest;
    var s7 := s6.rest;
    assert Len(s7) == 1 && WellFormedSlots(s7);
    assert Len(s6) == 2 && WellFormedSlots(s6);
    assert Len(s5) == 3 && WellFormedSlots(s5);
    assert Len(s4) == 4 && WellFormedSlots(s4);
    assert Len(s3) == 5 && WellFormedSlots(s3);
    assert Len(s2) == 6 && WellFormedSlots(s2);
    assert Len(s1) == 7 && WellFormedSlots(s1);
    assert Len(s0) == 8 && WellFormedSlots(s0);
  }

  lemma S13F13LayoutIsInjective(a: S13F13Body, b: S13F13Body)
    requires PackS13F13(a) == PackS13F13(b)
    ensures a == b
  {
    hide PackMany, PackOption;
    AttributeIsInjective();
    ManyIsInjective(PackAttribute);
    ManyIsInjective(PackText);
    ManyIsInjective(PackItem);
    ManyIsInjective(PackMany(PackItem));
  }

  /** Of all arguments, exactly those that can be sent come back, and come back unchanged. */
  method S13F13RoundTrip(shared: DecodeConfig, m: S13F13Body) returns (out: S13F13Body, err: Option<Error>)
    requires !shared.allowTrailing
    ensures err.None? <==> RowFits(S13F13_BODY, PackS13F13(m))
    ensures err.None? ==> out == m
  {
    hide DecodeBody, BuildBody, RowTyped, RowFits, PackMany, PackOption;
    S13F13IsWellFormed();
    S13F13Builds(m);
    BodyRoundTripExactly("S13F13", S13F13_BODY, PackS13F13(m));
    var body := S13F13(m.dataid, m.objspec, m.tbltyp, m.tblid, m.tblcmd, m.attrs, m.colhdrs, m.rows);
    out, err := DecodeS13F13(shared, body, []);
    if err.None? { S13F13LayoutIsInjective(out, m); }
  }

  lemma S13F13ItemsOnTheWire(m: S13F13Body, owner: string, items: seq<Item>)
    requires items == [
               Present(m.dataid, owner + "DATAID"),
               A(m.objspec),
               A(m.tbltyp),
               A(m.tblid),
               U(W1, m.tblcmd),
               L(MapItems(m.attrs, AttributeItem)),
               L(MapItems(m.colhdrs, A)),
               L(RowItems(m.rows, owner + "ROWS"))
             ]
    requires forall i :: 0 <= i < |items| ==> Usable(items[i])
    ensures items == [
              m.dataid,
              Text(m.objspec),
              Text(m.tbltyp),
              Text(m.tblid),
              Uints(W1, [m.tblcmd]),
              List(MapItems(m.attrs, AttributeItem)),
              List(MapItems(m.colhdrs, TextItem)),
              List(MapItems(m.rows, ListItem))
            ]
  {
    hide Errors, ChildErrors, Usable, WithoutNil, Present;
    assert Usable(items[0]);
    PresentUsable(m.dataid, owner + "DATAID");
    assert Usable(items[1]);
    TextOnTheWire(m.objspec);
    assert Usable(items[2]);
    TextOnTheWire(m.tbltyp);
    assert Usable(items[3]);
    TextOnTheWire(m.tblid);
    assert Usable(items[5]);
    RepeatOnTheWire(m.attrs, AttributeItem);
    assert Usable(items[6]);
    TextsOnTheWire(m.colhdrs);
    assert Usable(items[7]);
    RowsOnTheWire(m.rows, owner + "ROWS");
  }

  /** Each argument of a body that is sent stands at its own position. */
  lemma S13F13OnTheWire(m: S13F13Body)
    requires Errors(S13F13(m.dataid, m.objspec, m.tbltyp, m.tblid, m.tblcmd, m.attrs, m.colhdrs, m.rows)) == []
    ensures S13F13(m.dataid, m.objspec, m.tbltyp, m.tblid, m.tblcmd, m.attrs, m.colhdrs, m.rows) ==
              List([
                m.dataid,
                Text(m.objspec),
                Text(m.tbltyp),
                Text(m.tblid),
                Uints(W1, [m.tblcmd]),
                List(MapItems(m.attrs, AttributeItem)),
                List(MapItems(m.colhdrs, TextItem)),
                List(MapItems(m.rows, ListItem))
              ])
  {
    hide Errors, ChildErrors, Usable, WithoutNil, Present;
    var items := [
      Present(m.dataid, "S13F13" + " " + "DATAID"),
      A(m.objspec),
      A(m.tbltyp),
      A(m.tblid),
      U(W1, m.tblcmd),
      L(MapItems(m.attrs, AttributeItem)),
      L(MapItems(m.colhdrs, A)),
      L(RowItems(m.rows, "S13F13" + " " + "ROWS"))
    ];
    ListOnTheWire(items);
    S13F13ItemsOnTheWire(m, "S13F13" + " ", items);
  }

  lemma S13F13FieldsFrom0()
    ensures GoodName("S13F13")
    ensures Tagged(S13F13_BODY.slots, 6_068_084_068)
    ensures Tagged(S13F13_BODY.slots.rest, 7_079_074_067)
    ensures Tagged(S13F13_BODY.slots.rest.rest, 6_084_076_080)
  {
  }

  lemma S13F13FieldsFrom3()
    ensures Tagged(S13F13_BODY.slots.rest.rest.rest, 5_084_076_068)
    ensures Tagged(S13F13_BODY.slots.rest.rest.rest.rest, 6_084_076_068)
    ensures Tagged(S13F13_BODY.slots.rest.rest.rest.rest.rest, 5_065_084_083)
  {
    assert NamesDistinct(Repeat(Group("Attribute", ATTRIBUTE))) by { AttributeNamesDiffer(); }
  }

  lemma S13F13FieldsFrom6()
    ensures Tagged(S13F13_BODY.slots.rest.rest.rest.rest.rest.rest, 7_067_076_083)
    ensures Tagged(S13F13_BODY.slots.rest.rest.rest.rest.rest.rest.rest, 4_082_087_083)
    ensures S13F13_BODY.slots.rest.rest.rest.rest.rest.rest.rest.rest == End
  {
  }

  /** The names of one struct are distinct. */
  lemma S13F13NamesDiffer()
    ensures GoodName("S13F13") && SlotNamesDistinct(S13F13_BODY.slots)
  {
    hide SlotNamesDistinct, GoodName, FieldTags, Tagged, S13F13_BODY;
    S13F13FieldsFrom0();
    S13F13FieldsFrom3();
    S13F13FieldsFrom6();
    var tags := NoNames();
    tags := NamesStep(S13F13_BODY.slots.rest.rest.rest.rest.rest.rest.rest, 4_082_087_083, tags);
    tags := NamesStep(S13F13_BODY.slots.rest.rest.rest.rest.rest.rest, 7_067_076_083, tags);
    tags := NamesStep(S13F13_BODY.slots.rest.rest.rest.rest.rest, 5_065_084_083, tags);
    tags := NamesStep(S13F13_BODY.slots.rest.rest.rest.rest, 6_084_076_068, tags);
    tags := NamesStep(S13F13_BODY.slots.rest.rest.rest, 5_084_076_068, tags);
    tags := NamesStep(S13F13_BODY.slots.rest.rest, 6_084_076_080, tags);
    tags := NamesStep(S13F13_BODY.slots.rest, 7_079_074_067, tags);
    tags := NamesStep(S13F13_BODY.slots, 6_068_084_068, tags);
  }

  /** The error names the first failing position of the body, its indices included, and no other position. */
  lemma S13F13ErrorNamesTheFirstFailure(item: Item, lenient: bool, p: Path)
    requires DecodeBody("S13F13", S13F13_BODY, item, lenient).Err?
    requires PlaceInRow(S13F13_BODY, "", "S13F13" + " body", p) ==
               Some(DecodeBody("S13F13", S13F13_BODY, item, lenient).error.place)
    ensures FirstFailingInRow(S13F13_BODY, item, lenient, p)
  {
    hide DecodeBody, PlaceInRow, SlotNamesDistinct, WellFormedRow, FirstFailingInRow, GoodName;
    S13F13IsWellFormed();
    S13F13NamesDiffer();
    ErrorNamesTheFirstFailure("S13F13", S13F13_BODY, item, lenient, p);
  }

  /** Decoding a body and building it again normalises it, and with AllowTrailing prunes it. */
  method S13F13Rebuild(shared: DecodeConfig, item: Item, opts: seq<DecodeOption>)
    returns (rebuilt: Item, err: Option<Error>)
    requires !shared.allowTrailing && Clean(item)
    ensures err.None? <==> RowConforms(S13F13_BODY, Kept(S13F13_BODY, item, Lenient(opts)))
    ensures err.None? ==> rebuilt == NormaliseRow(S13F13_BODY, Kept(S13F13_BODY, item, Lenient(opts)))
  {
    hide DecodeBody, BuildBody, RowTyped, RowFits, RowConforms, NormaliseRow, Kept;
    S13F13IsWellFormed();
    BodyRebuildExactly("S13F13", S13F13_BODY, item, Lenient(opts));
    rebuilt := item;
    var out;
    out, err := DecodeS13F13(shared, item, opts);
    if err.None? {
      S13F13Builds(out);
      rebuilt := S13F13(
        out.dataid, out.objspec, out.tbltyp, out.tblid, out.tblcmd, out.attrs, out.colhdrs, out.rows);
    }
  }
}
