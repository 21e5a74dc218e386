/**
 S15F24 (Recipe Descriptor Data), whose recipes are repeats of sections that may be left out,
 and S15F41 (DRNS Recorder Modify Request), whose record is sent short for a delete.
 */
module Stream15 {
  import opened Secs2
  import opened Decimal
  import opened Decoding
  import opened Shapes
  import opened Building
  import opened Places
  import opened Options
  import opened RoundTrip
  import opened Refinement
  import opened Groups

  function RecipeItem(descriptors: seq<Option<RecipeDescriptor>>): Item {
    L(MapItems(descriptors, OptionalGroupItem(RecipeDescriptorItem)))
  }

  lemma RecipesDecode(c: Cursor, field: string, lenient: bool)
    requires Sane(c)
    ensures DecodeAt(Repeat(Repeat(OptionalGroup("RecipeDescriptor", RECIPE_DESCRIPTOR))), c, field, lenient) ==
              Each(c, field, EachOf(OptionalGroupOf(lenient, 3, DecodeRecipeDescriptor)))
                .Map(PackMany(PackMany(PackOption(PackRecipeDescriptor))))
  {
    var elem, decode := OptionalGroup("RecipeDescriptor", RECIPE_DESCRIPTOR), OptionalGroupOf(lenient, 3, DecodeRecipeDescriptor);
    forall c: Cursor, field: string | Sane(c)
      ensures DecodeAt(elem, c, field, lenient) == decode(c, field).Map(PackOption(PackRecipeDescriptor))
    {
      OptionalRecipeDescriptorDecodes(c, field, lenient);
    }
    EachImplements(elem, decode, lenient, PackOption(PackRecipeDescriptor));
    EachImplements(Repeat(elem), EachOf(decode), lenient, PackMany(PackOption(PackRecipeDescriptor)));
    assert EachOf(EachOf(decode))(c, field) == Each(c, field, EachOf(decode));
  }

  lemma RecipesBuild(recipes: seq<seq<Option<RecipeDescriptor>>>, place: string)
    ensures var s := Repeat(Repeat(OptionalGroup("RecipeDescriptor", RECIPE_DESCRIPTOR)));
            var v := PackMany(PackMany(PackOption(PackRecipeDescriptor)))(recipes);
            Typed(s, v) && Build(s, v, place) == L(MapItems(recipes, RecipeItem))
  {
    var elem, pack := OptionalGroup("RecipeDescriptor", RECIPE_DESCRIPTOR), PackOption(PackRecipeDescriptor);
    RecipeDescriptorBuilds();
    OptionalGroupBuilds("RecipeDescriptor", RECIPE_DESCRIPTOR, RecipeDescriptorItem, PackRecipeDescriptor);
    forall ds: seq<Option<RecipeDescriptor>>, p: string ensures BuildsAt(RecipeItem, Repeat(elem), PackMany(pack), ds, p) {
      EachBuilds(elem, OptionalGroupItem(RecipeDescriptorItem), pack, ds, p);
    }
    EachBuilds(Repeat(elem), RecipeItem, PackMany(pack), recipes, place);
  }

  // ----- S15F24 -----

  datatype S15F24Reply = S15F24Reply(
    recipes: seq<seq<Option<RecipeDescriptor>>>,
    rmack: Uint8,
    errors: seq<ErrorInfo>)

  const S15F24_STATUS: Row :=
    Row(2,
        Field("RMACK", Leaf(KUint(W1)),
        Field("ERRORS", Repeat(Group("ErrorInfo", ERROR_INFO)),
        End)))

  const S15F24_BODY: Row :=
    Row(2,
        Field("RECIPES", Repeat(Repeat(OptionalGroup("RecipeDescriptor", RECIPE_DESCRIPTOR))),
        Nested(S15F24_STATUS,
        End)))

  /** The body S15F24 sends. */
  function S15F24(
    recipes: seq<seq<Option<RecipeDescriptor>>>,
    rmack: Uint8,
    errors: seq<ErrorInfo>): Item
  {
    L([
      L(MapItems(recipes, RecipeItem)),
      L([
        U(W1, rmack),
        L(MapItems(errors, ErrorInfoItem))
      ])
    ])
  }

  function PackS15F24Status(m: S15F24Reply): Value {
    RowV(true,
      And(UintV(m.rmack),
      And(PackMany(PackErrorInfo)(m.errors),
      Nothing)))
  }

  /** The struct laid out as the value of its shape. */
  function PackS15F24(m: S15F24Reply): Value {
    RowV(true,
      And(PackMany(PackMany(PackOption(PackRecipeDescriptor)))(m.recipes),
      And(PackS15F24Status(m),
      Nothing)))
  }

  /** The fields in declaration order, returning at the first error with what was filled in so far. */
  method DecodeS15F24(shared: DecodeConfig, item: Item, opts: seq<DecodeOption>)
    returns (out: S15F24Reply, err: Option<Error>)
    requires !shared.allowTrailing
    ensures Reports(err, PackS15F24(out), DecodeBody("S15F24", S15F24_BODY, item, Lenient(opts)))
  {
    hide Cursor.At, Cursor.Hop, Errors, ListAt, RequireArity, OptionalArity, Each, EachFrom, PresentAt, DecodeOptional;
    hide Decode, DecodeAt, DecodeBody, DecodeRow, DecodeRowAt, DecodeSlots, Rest, Zeros, PackMany, PackOption;
    hide Sane, Open, Index, NewCursor;
    hide DecodeASCII, DecodeItem, DecodeScalarItem, DecodeBool, DecodeByteAs, DecodeUint;
    out := S15F24Reply([], 0, []);
    var root := NewCursor(item);
    var cfg := NewDecodeConfig(shared, opts);
    var lenient := cfg.allowTrailing;
    var place := "S15F24" + " body";
    BodyAt("S15F24", S15F24_BODY, item, lenient);
    OpenFixed(S15F24_BODY, root, "", place, lenient);
    var arity := RequireArity(root, place, 2, lenient);
    if arity.Err? { return out, Some(arity.error); }
    ghost var rest := Step(S15F24_BODY.slots, root, 0, 2, "", place, lenient);
    rest := Step(rest, root, 1, 2, "", place, lenient);
    Finish(rest, root, 2, 2, "", place, lenient);
    RecipesDecode(root.At([0]), "RECIPES", lenient);
    var recipes := DecodeEach(root.At([0]), "RECIPES", EachOf(OptionalGroupOf(lenient, 3, DecodeRecipeDescriptor)));
    if recipes.Err? { return out, Some(recipes.error); }
    out := out.(recipes := recipes.value);
    ghost var inner := root.At([1]);
    forall j: nat ensures root.At([1, j]) == inner.At([j]) { HopTwice(root, 1, j); }
    OpenFixed(S15F24_STATUS, inner, "", place + Index(1), lenient);
    var arity1 := RequireArity(root.At([1]), place + Index(1), 2, lenient);
    if arity1.Err? { return out, Some(arity1.error); }
    ghost var deep := StepLeaf(S15F24_STATUS.slots, inner, 0, 2, "", place + Index(1), lenient);
    deep := Step(deep, inner, 1, 2, "", place + Index(1), lenient);
    Finish(deep, inner, 2, 2, "", place + Index(1), lenient);
    var rmack := DecodeUint8(root.At([1, 0]), "RMACK");
    if rmack.Err? { return out, Some(rmack.error); }
    out := out.(rmack := rmack.value);
    ErrorInfoRepeatDecodes(inner.At([1]), "ERRORS", lenient);
    var errors := DecodeEach(root.At([1, 1]), "ERRORS", WithConfig(lenient, DecodeErrorInfo));
    if errors.Err? { return out, Some(errors.error); }
    out := out.(errors := errors.value);
    return out, None;
  }

  lemma S15F24InnerBuilds(m: S15F24Reply)
    ensures RowTyped(S15F24_STATUS, PackS15F24Status(m))
    ensures BuildRow(S15F24_STATUS, PackS15F24Status(m), "S15F24" + " ") ==
              L([
                U(W1, m.rmack),
                L(MapItems(m.errors, ErrorInfoItem))
              ])
  {
    hide Spelled, Typed, RowTyped, SlotsTyped, Build, BuildRow, BuildSlots;
    hide L, A, B, BOOLEAN, U, Present, PresentEach, OptionalItem, PackOption, PackMany, MapItems, RowItems;
    var owner, v := "S15F24" + " ", PackS15F24Status(m);
    var items := [
      U(W1, m.rmack),
      L(MapItems(m.errors, ErrorInfoItem))
    ];
    ErrorInfoRepeatBuilds(m.errors, owner + "ERRORS");
    SpellEnd(owner, items);
    SpellField(S15F24_STATUS.slots.rest, v.fields.rest, 1, owner, items, 1);
    SpellLeaf(S15F24_STATUS.slots, v.fields, 2, owner, items, 0);
    SpellRow(S15F24_STATUS, v, owner, items);
  }

  /** The builder sends what the shape builds from the same values. */
  lemma S15F24Builds(m: S15F24Reply)
    ensures RowTyped(S15F24_BODY, PackS15F24(m))
    ensures BuildBody("S15F24", S15F24_BODY, PackS15F24(m)) ==
              S15F24(m.recipes, m.rmack, m.errors)
  {
    hide Spelled, Typed, RowTyped, SlotsTyped, Build, BuildRow, BuildSlots;
    hide L, A, B, BOOLEAN, U, Present, PresentEach, OptionalItem, PackOption, PackMany, MapItems, RowItems;
    var owner, v := "S15F24" + " ", PackS15F24(m);
    S15F24InnerBuilds(m);
    var items := [
      L(MapItems(m.recipes, RecipeItem)),
      L([
        U(W1, m.rmack),
        L(MapItems(m.errors, ErrorInfoItem))
      ])
    ];
    RecipesBuild(m.recipes, owner + "RECIPES");
    SpellEnd(owner, items);
    SpellNested(S15F24_BODY.slots.rest, v.fields.rest, 1, owner, items, 1);
    SpellField(S15F24_BODY.slots, v.fields, 2, owner, items, 0);
    SpellRow(S15F24_BODY, v, owner, items);
  }

  lemma S15F24IsWellFormed()
    ensures Len(S15F24_BODY.slots) == 2 && S15F24_BODY.short == 2 && WellFormedRow(S15F24_BODY)
    ensures Len(S15F24_STATUS.slots) == 2 && S15F24_STATUS.short == 2
  {
    GroupsAreWellFormed();
    assert Len(S15F24_STATUS.slots.rest) == 1 && WellFormedSlots(S15F24_STATUS.slots.rest);
    assert Len(S15F24_STATUS.slots) == 2 && WellFormedSlots(S15F24_STATUS.slots);
    assert Len(S15F24_BODY.slots.rest) == 1 && WellFormedSlots(S15F24_BODY.slots.rest);
    assert Len(S15F24_BODY.slots) == 2 && WellFormedSlots(S15F24_BODY.slots);
  }

  lemma S15F24LayoutIsInjective(a: S15F24Reply, b: S15F24Reply)
    requires PackS15F24(a) == PackS15F24(b)
    ensures a == b
  {
    hide PackMany, PackOption;
    RecipeDescriptorIsInjective();
    OptionIsInjective(PackRecipeDescriptor);
    ManyIsInjective(PackOption(PackRecipeDescriptor));
    ManyIsInjective(PackMany(PackOption(PackRecipeDescriptor)));
    ErrorInfoIsInjective();
    ManyIsInjective(PackErrorInfo);
  }

  /** Of all arguments, exactly those that can be sent come back, and come back unchanged. */
  method S15F24RoundTrip(shared: DecodeConfig, m: S15F24Reply) returns (out: S15F24Reply, err: Option<Error>)
    requires !shared.allowTrailing
    ensures err.None? <==> RowFits(S15F24_BODY, PackS15F24(m))
    ensures err.None? ==> out == m
  {
    hide DecodeBody, BuildBody, RowTyped, RowFits, PackMany, PackOption;
    S15F24IsWellFormed();
    S15F24Builds(m);
    BodyRoundTripExactly("S15F24", S15F24_BODY, PackS15F24(m));
    var body := S15F24(m.recipes, m.rmack, m.errors);
    out, err := DecodeS15F24(shared, body, []);
    if err.None? { S15F24LayoutIsInjective(out, m); }
  }

  lemma S15F24ItemsOnTheWire(m: S15F24Reply, owner: string, items: seq<Item>)
    requires items == [
               L(MapItems(m.recipes, RecipeItem)),
               L([
                 U(W1, m.rmack),
                 L(MapItems(m.errors, ErrorInfoItem))
               ])
             ]
    requires forall i :: 0 <= i < |items| ==> Usable(items[i])
    ensures items == [
              List(MapItems(m.recipes, RecipeItem)),
              List([
                Uints(W1, [m.rmack]),
                List(MapItems(m.errors, ErrorInfoItem))
              ])
            ]
  {
    hide Errors, ChildErrors, Usable, WithoutNil, Present;
    var inner := [
      U(W1, m.rmack),
      L(MapItems(m.errors, ErrorInfoItem))
    ];
    assert Usable(items[0]);
    RepeatOnTheWire(m.recipes, RecipeItem);
    assert Usable(items[1]);
    NestedOnTheWire(inner);
    assert Usable(inner[1]);
    RepeatOnTheWire(m.errors, ErrorInfoItem);
  }

  /** Each argument of a body that is sent stands at its own position. */
  lemma S15F24OnTheWire(m: S15F24Reply)
    requires Errors(S15F24(m.recipes, m.rmack, m.errors)) == []
    ensures S15F24(m.recipes, m.rmack, m.errors) ==
              List([
                List(MapItems(m.recipes, RecipeItem)),
                List([
                  Uints(W1, [m.rmack]),
                  List(MapItems(m.errors, ErrorInfoItem))
                ])
              ])
  {
    hide Errors, ChildErrors, Usable, WithoutNil, Present;
    var items := [
      L(MapItems(m.recipes, RecipeItem)),
      L([
        U(W1, m.rmack),
        L(MapItems(m.errors, ErrorInfoItem))
      ])
    ];
    ListOnTheWire(items);
    S15F24ItemsOnTheWire(m, "S15F24" + " ", items);
  }

  lemma S15F24InnerFields()
    ensures Tagged(S15F24_STATUS.slots, 5_082_065_075)
    ensures Tagged(S15F24_STATUS.slots.rest, 6_069_082_083)
    ensures S15F24_STATUS.slots.rest.rest == End
  {
    assert NamesDistinct(Repeat(Group("ErrorInfo", ERROR_INFO))) by { ErrorInfoNamesDiffer(); }
  }

  lemma S15F24Fields()
    ensures GoodName("S15F24")
    ensures Tagged(S15F24_BODY.slots, 7_082_067_083)
    ensures S15F24_BODY.slots.rest.Nested? && S15F24_BODY.slots.rest.row == S15F24_STATUS
    ensures S15F24_BODY.slots.rest.rest == End
  {
    assert NamesDistinct(Repeat(Repeat(OptionalGroup("RecipeDescriptor", RECIPE_DESCRIPTOR)))) by { RecipeDescriptorNamesDiffer(); }
  }

  /** The names of one struct are distinct. */
  lemma S15F24NamesDiffer()
    ensures GoodName("S15F24") && SlotNamesDistinct(S15F24_BODY.slots)
  {
    hide SlotNamesDistinct, GoodName, FieldTags, Tagged, S15F24_STATUS, S15F24_BODY;
    S15F24InnerFields();
    S15F24Fields();
    var inner := NoNames();
    inner := NamesStep(S15F24_STATUS.slots.rest, 6_069_082_083, inner);
    inner := NamesStep(S15F24_STATUS.slots, 5_082_065_075, inner);
    var tags := NoNames();
    tags := NamesNested(S15F24_BODY.slots.rest, inner, tags);
    tags := NamesStep(S15F24_BODY.slots, 7_082_067_083, tags);
  }

  /** The error names the first failing position of the body, its indices included, and no other position. */
  lemma S15F24ErrorNamesTheFirstFailure(item: Item, lenient: bool, p: Path)
    requires DecodeBody("S15F24", S15F24_BODY, item, lenient).Err?
    requires PlaceInRow(S15F24_BODY, "", "S15F24" + " body", p) ==
               Some(DecodeBody("S15F24", S15F24_BODY, item, lenient).error.place)
    ensures FirstFailingInRow(S15F24_BODY, item, lenient, p)
  {
    hide DecodeBody, PlaceInRow, SlotNamesDistinct, WellFormedRow, FirstFailingInRow, GoodName;
    S15F24IsWellFormed();
    S15F24NamesDiffer();
    ErrorNamesTheFirstFailure("S15F24", S15F24_BODY, item, lenient, p);
  }

  /** Decoding a body and building it again normalises it, and with AllowTrailing prunes it. */
  method S15F24Rebuild(shared: DecodeConfig, item: Item, opts: seq<DecodeOption>)
    returns (rebuilt: Item, err: Option<Error>)
    requires !shared.allowTrailing && Clean(item)
    ensures err.None? <==> RowConforms(S15F24_BODY, Kept(S15F24_BODY, item, Lenient(opts)))
    ensures err.None? ==> rebuilt == NormaliseRow(S15F24_BODY, Kept(S15F24_BODY, item, Lenient(opts)))
  {
    hide DecodeBody, BuildBody, RowTyped, RowFits, RowConforms, NormaliseRow, Kept;
    S15F24IsWellFormed();
    BodyRebuildExactly("S15F24", S15F24_BODY, item, Lenient(opts));
    rebuilt := item;
    var out;
    out, err := DecodeS15F24(shared, item, opts);
    if err.None? {
      S15F24Builds(out);
      rebuilt := S15F24(out.recipes, out.rmack, out.errors);
    }
  }

  // ----- S15F41 -----

  datatype S15F41Body = S15F41Body(
    dataid: Item,
    rmrecspec: string,
    objtoken: Uint32,
    rmnscmd: Uint8,
    rcpid: string,
    rcpnewid: string,
    rmsegspec: string,
    rmchgtype: Item,
    opid: Item,
    timestamp: string,
    rmrequestor: bool)

  const S15F41_RECORD: Row :=
    Row(1,
        Field("RCPID", Leaf(KText),
        Field("RCPNEWID", Leaf(KText),
        Field("RMSEGSPEC", Leaf(KText),
        Field("RMCHGTYPE", Leaf(KScalar),
        Field("OPID", Leaf(KScalar),
        Field("TIMESTAMP", Leaf(KText),
        Field("RMREQUESTOR", Leaf(KBool),
        End))))))))

  const S15F41_BODY: Row :=
    Row(5,
        Field("DATAID", Leaf(KScalar),
        Field("RMRECSPEC", Leaf(KText),
        Field("OBJTOKEN", Leaf(KUint(W4)),
        Field("RMNSCMD", Leaf(KUint(W1)),
        Nested(S15F41_RECORD,
        End))))))

  /** The body S15F41 sends. */
  function S15F41(
    dataid: Item,
    rmrecspec: string,
    objtoken: Uint32,
    rmnscmd: Uint8,
    rcpid: string,
    rcpnewid: string,
    rmsegspec: string,
    rmchgtype: Item,
    opid: Item,
    timestamp: string,
    rmrequestor: bool): Item
  {
    L([
      Present(dataid, "S15F41" + " " + "DATAID"),
      A(rmrecspec),
      U(W4, objtoken),
      U(W1, rmnscmd),
      L([
        A(rcpid),
        A(rcpnewid),
        A(rmsegspec),
        Present(rmchgtype, "S15F41" + " " + "RMCHGTYPE"),
        Present(opid, "S15F41" + " " + "OPID"),
        A(timestamp),
        BOOLEAN([rmrequestor])
      ])
    ])
  }

  /** The short form: a delete names the record only. */
  function S15F41Delete(
    dataid: Item,
    rmrecspec: string,
    objtoken: Uint32,
    rmnscmd: Uint8,
    rcpid: string): Item
  {
    L([
      Present(dataid, "S15F41" + " " + "DATAID"),
      A(rmrecspec),
      U(W4, objtoken),
      U(W1, rmnscmd),
      L([
        A(rcpid)
      ])
    ])
  }

  /** The form of a decoded body: an open item is nil only where the short form leaves it out. */
  predicate S15F41IsFull(m: S15F41Body) {
    !m.rmchgtype.Nil?
  }

  function PackS15F41Record(full: bool, m: S15F41Body): Value {
    RowV(full,
      And(TextV(m.rcpid),
      And(TextV(m.rcpnewid),
      And(TextV(m.rmsegspec),
      And(ItemV(m.rmchgtype),
      And(ItemV(m.opid),
      And(TextV(m.timestamp),
      And(BoolV(m.rmrequestor),
      Nothing))))))))
  }

  /** The struct laid out as the value of its shape. */
  function PackS15F41(full: bool, m: S15F41Body): Value {
    RowV(true,
      And(ItemV(m.dataid),
      And(TextV(m.rmrecspec),
      And(UintV(m.objtoken),
      And(UintV(m.rmnscmd),
      And(PackS15F41Record(full, m),
      Nothing))))))
  }

  /** The full list is read field after field, each hop in range. */
  lemma S15F41InnerSteps(c: Cursor, place: string, lenient: bool)
    requires Open(c) && 7 <= |c.item.items|
    ensures forall k: nat :: k < 7 ==> Sane(c.At([k]))
    ensures Rest(S15F41_RECORD.slots, c, 0, 7, "", place, lenient) ==
              Glue(DecodeLeaf(KText, c.At([0]), "RCPID"),
              Glue(DecodeLeaf(KText, c.At([1]), "RCPNEWID"),
              Glue(DecodeLeaf(KText, c.At([2]), "RMSEGSPEC"),
              Glue(DecodeLeaf(KScalar, c.At([3]), "RMCHGTYPE"),
              Glue(DecodeLeaf(KScalar, c.At([4]), "OPID"),
              Glue(DecodeLeaf(KText, c.At([5]), "TIMESTAMP"),
              Glue(DecodeLeaf(KBool, c.At([6]), "RMREQUESTOR"), Ok(Nothing))))))))
  {
    hide Cursor.At, Cursor.Hop, Errors, Glue, Rest, Decode, DecodeAt, DecodeRow, DecodeRowAt, DecodeSlots, DecodeLeaf;
    forall k: nat | k < 7 ensures Sane(c.At([k])) { HopReaches(c, k); }
    var rest := StepLeaf(S15F41_RECORD.slots, c, 0, 7, "", place, lenient);
    rest := StepLeaf(rest, c, 1, 7, "", place, lenient);
    rest := StepLeaf(rest, c, 2, 7, "", place, lenient);
    rest := StepLeaf(rest, c, 3, 7, "", place, lenient);
    rest := StepLeaf(rest, c, 4, 7, "", place, lenient);
    rest := StepLeaf(rest, c, 5, 7, "", place, lenient);
    rest := StepLeaf(rest, c, 6, 7, "", place, lenient);
    Finish(rest, c, 7, 7, "", place, lenient);
  }

  /** The full list is read field after field, each hop in range. */
  lemma S15F41Steps(c: Cursor, place: string, lenient: bool)
    requires Open(c) && 5 <= |c.item.items|
    ensures forall k: nat :: k < 5 ==> Sane(c.At([k]))
    ensures Rest(S15F41_BODY.slots, c, 0, 5, "", place, lenient) ==
              Glue(DecodeLeaf(KScalar, c.At([0]), "DATAID"),
              Glue(DecodeLeaf(KText, c.At([1]), "RMRECSPEC"),
              Glue(DecodeLeaf(KUint(W4), c.At([2]), "OBJTOKEN"),
              Glue(DecodeLeaf(KUint(W1), c.At([3]), "RMNSCMD"),
              Glue(DecodeRowAt(S15F41_RECORD, c.At([4]), "", place + Index(4), lenient), Ok(Nothing))))))
  {
    hide Cursor.At, Cursor.Hop, Errors, Glue, Rest, Decode, DecodeAt, DecodeRow, DecodeRowAt, DecodeSlots, DecodeLeaf;
    forall k: nat | k < 5 ensures Sane(c.At([k])) { HopReaches(c, k); }
    var rest := StepLeaf(S15F41_BODY.slots, c, 0, 5, "", place, lenient);
    rest := StepLeaf(rest, c, 1, 5, "", place, lenient);
    rest := StepLeaf(rest, c, 2, 5, "", place, lenient);
    rest := StepLeaf(rest, c, 3, 5, "", place, lenient);
    rest := Step(rest, c, 4, 5, "", place, lenient);
    Finish(rest, c, 5, 5, "", place, lenient);
  }

  /** The fields the short form omits. */
  lemma S15F41InnerZeros()
    ensures Zeros(S15F41_RECORD.slots.rest) ==
              And(TextV(""),
              And(TextV(""),
              And(ItemV(Nil(false)),
              And(ItemV(Nil(false)),
              And(TextV(""),
              And(BoolV(false),
              Nothing))))))
  {
    var s0 := S15F41_RECORD.slots.rest;
    var s1 := s0.rest;
    var s2 := s1.rest;
    var s3 := s2.rest;
    var s4 := s3.rest;
    var s5 := s4.rest;
    assert Zeros(s5).And?;
    assert Zeros(s3).And?;
    assert Zeros(s1).And?;
  }

  lemma S15F41InnerShort(c: Cursor, place: string, lenient: bool)
    requires Open(c) && 1 <= |c.item.items|
    ensures Sane(c.At([0]))
    ensures Rest(S15F41_RECORD.slots, c, 0, 1, "", place, lenient) ==
              Glue(DecodeLeaf(KText, c.At([0]), "RCPID"), Ok(Zeros(S15F41_RECORD.slots.rest)))
  {
    var rest := StepLeaf(S15F41_RECORD.slots, c, 0, 1, "", place, lenient);
    HopReaches(c, 0);
    Finish(rest, c, 1, 1, "", place, lenient);
  }

  /** The fields in declaration order, returning at the first error with what was filled in so far. */
  method DecodeS15F41(shared: DecodeConfig, item: Item, opts: seq<DecodeOption>)
    returns (out: S15F41Body, err: Option<Error>)
    requires !shared.allowTrailing
    ensures Reports(err, PackS15F41(S15F41IsFull(out), out), DecodeBody("S15F41", S15F41_BODY, item, Lenient(opts)))
  {
    hide Cursor.At, Cursor.Hop, Errors, ListAt, RequireArity, OptionalArity, Each, EachFrom, PresentAt, DecodeOptional;
    hide Decode, DecodeAt, DecodeBody, DecodeRow, DecodeRowAt, DecodeSlots, Rest, Zeros, PackMany, PackOption;
    hide Sane, Open, Index, NewCursor;
    hide DecodeASCII, DecodeItem, DecodeScalarItem, DecodeBool, DecodeByteAs, DecodeUint;
    hide S15F41_BODY, S15F41_RECORD;
    out := S15F41Body(Nil(false), "", 0, 0, "", "", "", Nil(false), Nil(false), "", false);
    var root := NewCursor(item);
    var cfg := NewDecodeConfig(shared, opts);
    var lenient := cfg.allowTrailing;
    var place := "S15F41" + " body";
    BodyAt("S15F41", S15F41_BODY, item, lenient);
    S15F41IsWellFormed();
    OpenFixed(S15F41_BODY, root, "", place, lenient);
    var arity := RequireArity(root, place, 5, lenient);
    if arity.Err? { return out, Some(arity.error); }
    S15F41Steps(root, place, lenient);
    var dataid := DecodeScalarItem(root.At([0]), "DATAID");
    if dataid.Err? { return out, Some(dataid.error); }
    out := out.(dataid := dataid.value);
    var rmrecspec := DecodeASCII(root.At([1]), "RMRECSPEC");
    if rmrecspec.Err? { return out, Some(rmrecspec.error); }
    out := out.(rmrecspec := rmrecspec.value);
    var objtoken := DecodeUint32(root.At([2]), "OBJTOKEN");
    if objtoken.Err? { return out, Some(objtoken.error); }
    out := out.(objtoken := objtoken.value);
    var rmnscmd := DecodeUint8(root.At([3]), "RMNSCMD");
    if rmnscmd.Err? { return out, Some(rmnscmd.error); }
    out := out.(rmnscmd := rmnscmd.value);
    ghost var inner := root.At([4]);
    forall j: nat ensures root.At([4, j]) == inner.At([j]) { HopTwice(root, 4, j); }
    OpenBounded(S15F41_RECORD, inner, "", place + Index(4), lenient);
    var n1 := OptionalArity(root.At([4]), place + Index(4), 1, 7, lenient);
    if n1.Err? { return out, Some(n1.error); }
    if n1.value == 7 {
      S15F41InnerSteps(inner, place + Index(4), lenient);
    } else {
      S15F41InnerShort(inner, place + Index(4), lenient);
      S15F41InnerZeros();
    }
    var rcpid := DecodeASCII(root.At([4, 0]), "RCPID");
    if rcpid.Err? { return out, Some(rcpid.error); }
    out := out.(rcpid := rcpid.value);
    if n1.value == 7 {
      var rcpnewid := DecodeASCII(root.At([4, 1]), "RCPNEWID");
      if rcpnewid.Err? { return out, Some(rcpnewid.error); }
      out := out.(rcpnewid := rcpnewid.value);
      var rmsegspec := DecodeASCII(root.At([4, 2]), "RMSEGSPEC");
      if rmsegspec.Err? { return out, Some(rmsegspec.error); }
      out := out.(rmsegspec := rmsegspec.value);
      var rmchgtype := DecodeScalarItem(root.At([4, 3]), "RMCHGTYPE");
      if rmchgtype.Err? { return out, Some(rmchgtype.error); }
      out := out.(rmchgtype := rmchgtype.value);
      var opid := DecodeScalarItem(root.At([4, 4]), "OPID");
      if opid.Err? { return out, Some(opid.error); }
      out := out.(opid := opid.value);
      var timestamp := DecodeASCII(root.At([4, 5]), "TIMESTAMP");
      if timestamp.Err? { return out, Some(timestamp.error); }
      out := out.(timestamp := timestamp.value);
      var rmrequestor := DecodeBool(root.At([4, 6]), "RMREQUESTOR");
      if rmrequestor.Err? { return out, Some(rmrequestor.error); }
      out := out.(rmrequestor := rmrequestor.value);
      ScalarIsPresent(inner.At([3]), "RMCHGTYPE");
    }
    return out, None;
  }

  lemma S15F41InnerBuilds(m: S15F41Body)
    ensures RowTyped(S15F41_RECORD, PackS15F41Record(true, m))
    ensures BuildRow(S15F41_RECORD, PackS15F41Record(true, m), "S15F41" + " ") ==
              L([
                A(m.rcpid),
                A(m.rcpnewid),
                A(m.rmsegspec),
                Present(m.rmchgtype, "S15F41" + " " + "RMCHGTYPE"),
                Present(m.opid, "S15F41" + " " + "OPID"),
                A(m.timestamp),
                BOOLEAN([m.rmrequestor])
              ])
  {
    hide Spelled, Typed, RowTyped, SlotsTyped, Build, BuildRow, BuildSlots;
    hide L, A, B, BOOLEAN, U, Present, PresentEach, OptionalItem, PackOption, PackMany, MapItems, RowItems;
    var owner, v := "S15F41" + " ", PackS15F41Record(true, m);
    var items := [
      A(m.rcpid),
      A(m.rcpnewid),
      A(m.rmsegspec),
      Present(m.rmchgtype, owner + "RMCHGTYPE"),
      Present(m.opid, owner + "OPID"),
      A(m.timestamp),
      BOOLEAN([m.rmrequestor])
    ];
    var s0, v0 := S15F41_RECORD.slots, v.fields;
    var s1, v1 := s0.rest, v0.rest;
    var s2, v2 := s1.rest, v1.rest;
    var s3, v3 := s2.rest, v2.rest;
    var s4, v4 := s3.rest, v3.rest;
    var s5, v5 := s4.rest, v4.rest;
    var s6, v6 := s5.rest, v5.rest;
    SpellEnd(owner, items);
    SpellLeaf(s6, v6, 1, owner, items, 6);
    SpellLeaf(s5, v5, 2, owner, items, 5);
    SpellLeaf(s4, v4, 3, owner, items, 4);
    SpellLeaf(s3, v3, 4, owner, items, 3);
    SpellLeaf(s2, v2, 5, owner, items, 2);
    SpellLeaf(s1, v1, 6, owner, items, 1);
    SpellLeaf(s0, v0, 7, owner, items, 0);
    SpellRow(S15F41_RECORD, v, owner, items);
  }

  /** The builder sends what the shape builds from the same values. */
  lemma S15F41Builds(m: S15F41Body)
    ensures RowTyped(S15F41_BODY, PackS15F41(true, m))
    ensures BuildBody("S15F41", S15F41_BODY, PackS15F41(true, m)) ==
              S15F41(
                m.dataid, m.rmrecspec, m.objtoken, m.rmnscmd, m.rcpid, m.rcpnewid, m.rmsegspec,
                m.rmchgtype, m.opid, m.timestamp, m.rmrequestor)
  {
    hide Spelled, Typed, RowTyped, SlotsTyped, Build, BuildRow, BuildSlots;
    hide L, A, B, BOOLEAN, U, Present, PresentEach, OptionalItem, PackOption, PackMany, MapItems, RowItems;
    var owner, v := "S15F41" + " ", PackS15F41(true, m);
    S15F41InnerBuilds(m);
    var items := [
      Present(m.dataid, owner + "DATAID"),
      A(m.rmrecspec),
      U(W4, m.objtoken),
      U(W1, m.rmnscmd),
      L([
        A(m.rcpid),
        A(m.rcpnewid),
        A(m.rmsegspec),
        Present(m.rmchgtype, owner + "RMCHGTYPE"),
        Present(m.opid, owner + "OPID"),
        A(m.timestamp),
        BOOLEAN([m.rmrequestor])
      ])
    ];
    var s0, v0 := S15F41_BODY.slots, v.fields;
    var s1, v1 := s0.rest, v0.rest;
    var s2, v2 := s1.rest, v1.rest;
    var s3, v3 := s2.rest, v2.rest;
    var s4, v4 := s3.rest, v3.rest;
    SpellEnd(owner, items);
    SpellNested(s4, v4, 1, owner, items, 4);
    SpellLeaf(s3, v3, 2, owner, items, 3);
    SpellLeaf(s2, v2, 3, owner, items, 2);
    SpellLeaf(s1, v1, 4, owner, items, 1);
    SpellLeaf(s0, v0, 5, owner, items, 0);
    SpellRow(S15F41_BODY, v, owner, items);
  }

  lemma S15F41DeleteInnerBuilds(m: S15F41Body)
    requires m == S15F41Body(
      m.dataid, m.rmrecspec, m.objtoken, m.rmnscmd, m.rcpid, "", "", Nil(false), Nil(false), "", false)
    ensures RowTyped(S15F41_RECORD, PackS15F41Record(false, m))
    ensures BuildRow(S15F41_RECORD, PackS15F41Record(false, m), "S15F41" + " ") == L([A(m.rcpid)])
  {
    hide Spelled, Typed, RowTyped, SlotsTyped, Build, BuildRow, BuildSlots;
    hide L, A, B, BOOLEAN, U, Present, PresentEach, OptionalItem, PackOption, PackMany, MapItems, RowItems;
    var owner, v := "S15F41" + " ", PackS15F41Record(false, m);
    var items := [A(m.rcpid)];
    S15F41InnerZeros();
    SpellZeros(S15F41_RECORD.slots.rest, owner, items);
    SpellLeaf(S15F41_RECORD.slots, v.fields, 1, owner, items, 0);
    SpellRow(S15F41_RECORD, v, owner, items);
  }

  lemma S15F41DeleteBuilds(m: S15F41Body)
    requires m == S15F41Body(
      m.dataid, m.rmrecspec, m.objtoken, m.rmnscmd, m.rcpid, "", "", Nil(false), Nil(false), "", false)
    ensures RowTyped(S15F41_BODY, PackS15F41(false, m))
    ensures BuildBody("S15F41", S15F41_BODY, PackS15F41(false, m)) ==
              S15F41Delete(m.dataid, m.rmrecspec, m.objtoken, m.rmnscmd, m.rcpid)
  {
    hide Spelled, Typed, RowTyped, SlotsTyped, Build, BuildRow, BuildSlots;
    hide L, A, B, BOOLEAN, U, Present, PresentEach, OptionalItem, PackOption, PackMany, MapItems, RowItems;
    var owner, v := "S15F41" + " ", PackS15F41(false, m);
    S15F41DeleteInnerBuilds(m);
    var items := [
      Present(m.dataid, owner + "DATAID"),
      A(m.rmrecspec),
      U(W4, m.objtoken),
      U(W1, m.rmnscmd),
      L([A(m.rcpid)])
    ];
    var s0, v0 := S15F41_BODY.slots, v.fields;
    var s1, v1 := s0.rest, v0.rest;
    var s2, v2 := s1.rest, v1.rest;
    var s3, v3 := s2.rest, v2.rest;
    var s4, v4 := s3.rest, v3.rest;
    SpellEnd(owner, items);
    SpellNested(s4, v4, 1, owner, items, 4);
    SpellLeaf(s3, v3, 2, owner, items, 3);
    SpellLeaf(s2, v2, 3, owner, items, 2);
    SpellLeaf(s1, v1, 4, owner, items, 1);
    SpellLeaf(s0, v0, 5, owner, items, 0);
    SpellRow(S15F41_BODY, v, owner, items);
  }

  lemma S15F41IsWellFormed()
    ensures Len(S15F41_BODY.slots) == 5 && S15F41_BODY.short == 5 && WellFormedRow(S15F41_BODY)
    ensures Len(S15F41_RECORD.slots) == 7 && S15F41_RECORD.short == 1
  {
    var t0 := S15F41_RECORD.slots;
    var t1 := t0.rest;
    var t2 := t1.rest;
    var t3 := t2.rest;
    var t4 := t3.rest;
    var t5 := t4.rest;
    var t6 := t5.rest;
    assert Len(t6) == 1 && WellFormedSlots(t6);
    assert Len(t5) == 2 && WellFormedSlots(t5);
    assert Len(t4) == 3 && WellFormedSlots(t4);
    assert Len(t3) == 4 && WellFormedSlots(t3);
    assert Len(t2) == 5 && WellFormedSlots(t2);
    assert Len(t1) == 6 && WellFormedSlots(t1);
    assert Len(t0) == 7 && WellFormedSlots(t0);
    var s0 := S15F41_BODY.slots;
    var s1 := s0.rest;
    var s2 := s1.rest;
    var s3 := s2.rest;
    var s4 := s3.rest;
    assert Len(s4) == 1 && WellFormedSlots(s4);
    assert Len(s3) == 2 && WellFormedSlots(s3);
    assert Len(s2) == 3 && WellFormedSlots(s2);
    assert Len(s1) == 4 && WellFormedSlots(s1);
    assert Len(s0) == 5 && WellFormedSlots(s0);
  }

  lemma S15F41LayoutIsInjective(f: bool, g: bool, a: S15F41Body, b: S15F41Body)
    requires PackS15F41(f, a) == PackS15F41(g, b)
    ensures a == b
  {
  }

  /** Of all arguments, exactly those that can be sent come back, and come back unchanged. */
  method S15F41RoundTrip(shared: DecodeConfig, m: S15F41Body) returns (out: S15F41Body, err: Option<Error>)
    requires !shared.allowTrailing
    ensures err.None? <==> RowFits(S15F41_BODY, PackS15F41(true, m))
    ensures err.None? ==> out == m
  {
    hide DecodeBody, BuildBody, RowTyped, RowFits, PackMany, PackOption;
    S15F41IsWellFormed();
    S15F41Builds(m);
    BodyRoundTripExactly("S15F41", S15F41_BODY, PackS15F41(true, m));
    var body := S15F41(
      m.dataid, m.rmrecspec, m.objtoken, m.rmnscmd, m.rcpid, m.rcpnewid, m.rmsegspec, m.rmchgtype, m.opid,
      m.timestamp, m.rmrequestor);
    out, err := DecodeS15F41(shared, body, []);
    if err.None? { S15F41LayoutIsInjective(S15F41IsFull(out), true, out, m); }
  }

  /** The short form comes back as the same arguments, with the zero value in every omitted field. */
  method S15F41DeleteRoundTrip(shared: DecodeConfig, m: S15F41Body) returns (out: S15F41Body, err: Option<Error>)
    requires !shared.allowTrailing
    requires m == S15F41Body(
      m.dataid, m.rmrecspec, m.objtoken, m.rmnscmd, m.rcpid, "", "", Nil(false), Nil(false), "", false)
    ensures err.None? <==> RowFits(S15F41_BODY, PackS15F41(false, m))
    ensures err.None? ==> out == m && !S15F41IsFull(out)
  {
    hide DecodeBody, BuildBody, RowTyped, RowFits, PackMany, PackOption;
    S15F41IsWellFormed();
    S15F41DeleteBuilds(m);
    BodyRoundTripExactly("S15F41", S15F41_BODY, PackS15F41(false, m));
    var body := S15F41Delete(m.dataid, m.rmrecspec, m.objtoken, m.rmnscmd, m.rcpid);
    out, err := DecodeS15F41(shared, body, []);
    if err.None? { S15F41LayoutIsInjective(S15F41IsFull(out), false, out, m); }
  }

  lemma S15F41ItemsOnTheWire(m: S15F41Body, owner: string, items: seq<Item>)
    requires items == [
               Present(m.dataid, owner + "DATAID"),
               A(m.rmrecspec),
               U(W4, m.objtoken),
               U(W1, m.rmnscmd),
               L([
                 A(m.rcpid),
                 A(m.rcpnewid),
                 A(m.rmsegspec),
                 Present(m.rmchgtype, owner + "RMCHGTYPE"),
                 Present(m.opid, owner + "OPID"),
                 A(m.timestamp),
                 BOOLEAN([m.rmrequestor])
               ])
             ]
    requires forall i :: 0 <= i < |items| ==> Usable(items[i])
    ensures items == [
              m.dataid,
              Text(m.rmrecspec),
              Uints(W4, [m.objtoken]),
              Uints(W1, [m.rmnscmd]),
              List([
                Text(m.rcpid),
                Text(m.rcpnewid),
                Text(m.rmsegspec),
                m.rmchgtype,
                m.opid,
                Text(m.timestamp),
                Boolean([m.rmrequestor])
              ])
            ]
  {
    hide Errors, ChildErrors, Usable, WithoutNil, Present;
    var inner := [
      A(m.rcpid),
      A(m.rcpnewid),
      A(m.rmsegspec),
      Present(m.rmchgtype, owner + "RMCHGTYPE"),
      Present(m.opid, owner + "OPID"),
      A(m.timestamp),
      BOOLEAN([m.rmrequestor])
    ];
    assert Usable(items[0]);
    PresentUsable(m.dataid, owner + "DATAID");
    assert Usable(items[1]);
    TextOnTheWire(m.rmrecspec);
    assert Usable(items[4]);
    NestedOnTheWire(inner);
    assert Usable(inner[0]);
    TextOnTheWire(m.rcpid);
    assert Usable(inner[1]);
    TextOnTheWire(m.rcpnewid);
    assert Usable(inner[2]);
    TextOnTheWire(m.rmsegspec);
    assert Usable(inner[3]);
    PresentUsable(m.rmchgtype, owner + "RMCHGTYPE");
    assert Usable(inner[4]);
    PresentUsable(m.opid, owner + "OPID");
    assert Usable(inner[5]);
    TextOnTheWire(m.timestamp);
  }

  /** Each argument of a body that is sent stands at its own position. */
  lemma S15F41OnTheWire(m: S15F41Body)
    requires Errors(S15F41(
      m.dataid, m.rmrecspec, m.objtoken, m.rmnscmd, m.rcpid, m.rcpnewid, m.rmsegspec, m.rmchgtype, m.opid,
      m.timestamp, m.rmrequestor)) == []
    ensures S15F41(
      m.dataid, m.rmrecspec, m.objtoken, m.rmnscmd, m.rcpid, m.rcpnewid, m.rmsegspec, m.rmchgtype, m.opid,
      m.timestamp, m.rmrequestor) ==
              List([
                m.dataid,
                Text(m.rmrecspec),
                Uints(W4, [m.objtoken]),
                Uints(W1, [m.rmnscmd]),
                List([
                  Text(m.rcpid),
                  Text(m.rcpnewid),
                  Text(m.rmsegspec),
                  m.rmchgtype,
                  m.opid,
                  Text(m.timestamp),
                  Boolean([m.rmrequestor])
                ])
              ])
  {
    hide Errors, ChildErrors, Usable, WithoutNil, Present;
    var items := [
      Present(m.dataid, "S15F41" + " " + "DATAID"),
      A(m.rmrecspec),
      U(W4, m.objtoken),
      U(W1, m.rmnscmd),
      L([
        A(m.rcpid),
        A(m.rcpnewid),
        A(m.rmsegspec),
        Present(m.rmchgtype, "S15F41" + " " + "RMCHGTYPE"),
        Present(m.opid, "S15F41" + " " + "OPID"),
        A(m.timestamp),
        BOOLEAN([m.rmrequestor])
      ])
    ];
    ListOnTheWire(items);
    S15F41ItemsOnTheWire(m, "S15F41" + " ", items);
  }

  lemma S15F41InnerFieldsFrom0()
    ensures Tagged(S15F41_RECORD.slots, 5_082_080_068)
    ensures Tagged(S15F41_RECORD.slots.rest, 8_082_080_068)
    ensures Tagged(S15F41_RECORD.slots.rest.rest, 9_082_083_067)
  {
  }

  lemma S15F41InnerFieldsFrom3()
    ensures Tagged(S15F41_RECORD.slots.rest.rest.rest, 9_082_067_069)
    ensures Tagged(S15F41_RECORD.slots.rest.rest.rest.rest, 4_079_073_068)
    ensures Tagged(S15F41_RECORD.slots.rest.rest.rest.rest.rest, 9_084_077_080)
  {
  }

  lemma S15F41InnerFieldsFrom6()
    ensures Tagged(S15F41_RECORD.slots.rest.rest.rest.rest.rest.rest, 11_082_082_082)
    ensures S15F41_RECORD.slots.rest.rest.rest.rest.rest.rest.rest == End
  {
  }

  lemma S15F41FieldsFrom0()
    ensures GoodName("S15F41")
    ensures Tagged(S15F41_BODY.slots, 6_068_084_068)
    ensures Tagged(S15F41_BODY.slots.rest, 9_082_082_067)
  {
  }

  lemma S15F41FieldsFrom2()
    ensures Tagged(S15F41_BODY.slots.rest.rest, 8_079_074_078)
    ensures Tagged(S15F41_BODY.slots.rest.rest.rest, 7_082_078_068)
    ensures S15F41_BODY.slots.rest.rest.rest.rest.Nested? && S15F41_BODY.slots.rest.rest.rest.rest.row == S15F41_RECORD
    ensures S15F41_BODY.slots.rest.rest.rest.rest.rest == End
  {
  }

  /** The names of one struct are distinct. */
  lemma S15F41NamesDiffer()
    ensures GoodName("S15F41") && SlotNamesDistinct(S15F41_BODY.slots)
  {
    hide SlotNamesDistinct, GoodName, FieldTags, Tagged, S15F41_RECORD, S15F41_BODY;
    S15F41InnerFieldsFrom0();
    S15F41InnerFieldsFrom3();
    S15F41InnerFieldsFrom6();
    S15F41FieldsFrom0();
    S15F41FieldsFrom2();
    var inner := NoNames();
    inner := NamesStep(S15F41_RECORD.slots.rest.rest.rest.rest.rest.rest, 11_082_082_082, inner);
    inner := NamesStep(S15F41_RECORD.slots.rest.rest.rest.rest.rest, 9_084_077_080, inner);
    inner := NamesStep(S15F41_RECORD.slots.rest.rest.rest.rest, 4_079_073_068, inner);
    inner := NamesStep(S15F41_RECORD.slots.rest.rest.rest, 9_082_067_069, inner);
    inner := NamesStep(S15F41_RECORD.slots.rest.rest, 9_082_083_067, inner);
    inner := NamesStep(S15F41_RECORD.slots.rest, 8_082_080_068, inner);
    inner := NamesStep(S15F41_RECORD.slots, 5_082_080_068, inner);
    var tags := NoNames();
    tags := NamesNested(S15F41_BODY.slots.rest.rest.rest.rest, inner, tags);
    tags := NamesStep(S15F41_BODY.slots.rest.rest.rest, 7_082_078_068, tags);
    tags := NamesStep(S15F41_BODY.slots.rest.rest, 8_079_074_078, tags);
    tags := NamesStep(S15F41_BODY.slots.rest, 9_082_082_067, tags);
    tags := NamesStep(S15F41_BODY.slots, 6_068_084_068, tags);
  }

  /** The error names the first failing position of the body, its indices included, and no other position. */
  lemma S15F41ErrorNamesTheFirstFailure(item: Item, lenient: bool, p: Path)
    requires DecodeBody("S15F41", S15F41_BODY, item, lenient).Err?
    requires PlaceInRow(S15F41_BODY, "", "S15F41" + " body", p) ==
               Some(DecodeBody("S15F41", S15F41_BODY, item, lenient).error.place)
    ensures FirstFailingInRow(S15F41_BODY, item, lenient, p)
  {
    hide DecodeBody, PlaceInRow, SlotNamesDistinct, WellFormedRow, FirstFailingInRow, GoodName;
    S15F41IsWellFormed();
    S15F41NamesDiffer();
    ErrorNamesTheFirstFailure("S15F41", S15F41_BODY, item, lenient, p);
  }

  /** A struct laid out as the short form holds the zero value in every omitted field. */
  lemma S15F41DeleteIsZero(m: S15F41Body)
    requires RowTyped(S15F41_BODY, PackS15F41(false, m))
    ensures m == S15F41Body(
      m.dataid, m.rmrecspec, m.objtoken, m.rmnscmd, m.rcpid, "", "", Nil(false), Nil(false), "", false)
  {
    S15F41InnerZeros();
    var fields := PackS15F41(false, m).fields;
    assert SlotsTyped(S15F41_BODY.slots.rest, fields.rest, 4);
    assert SlotsTyped(S15F41_BODY.slots.rest.rest, fields.rest.rest, 3);
    assert SlotsTyped(S15F41_BODY.slots.rest.rest.rest, fields.rest.rest.rest, 2);
    assert SlotsTyped(S15F41_BODY.slots.rest.rest.rest.rest, fields.rest.rest.rest.rest, 1);
    assert RowTyped(S15F41_RECORD, fields.rest.rest.rest.rest.value);
  }

  /** Decoding a body and building it again normalises it, and with AllowTrailing prunes it. */
  method S15F41Rebuild(shared: DecodeConfig, item: Item, opts: seq<DecodeOption>)
    returns (rebuilt: Item, err: Option<Error>)
    requires !shared.allowTrailing && Clean(item)
    ensures err.None? <==> RowConforms(S15F41_BODY, Kept(S15F41_BODY, item, Lenient(opts)))
    ensures err.None? ==> rebuilt == NormaliseRow(S15F41_BODY, Kept(S15F41_BODY, item, Lenient(opts)))
  {
    hide DecodeBody, BuildBody, RowTyped, RowFits, RowConforms, NormaliseRow, Kept;
    S15F41IsWellFormed();
    BodyRebuildExactly("S15F41", S15F41_BODY, item, Lenient(opts));
    rebuilt := item;
    var out;
    out, err := DecodeS15F41(shared, item, opts);
    if err.None? && S15F41IsFull(out) {
      S15F41Builds(out);
      rebuilt := S15F41(
        out.dataid, out.rmrecspec, out.objtoken, out.rmnscmd, out.rcpid, out.rcpnewid, out.rmsegspec,
        out.rmchgtype, out.opid, out.timestamp, out.rmrequestor);
    } else if err.None? {
      S15F41DeleteIsZero(out);
      S15F41DeleteBuilds(out);
      rebuilt := S15F41Delete(out.dataid, out.rmrecspec, out.objtoken, out.rmnscmd, out.rcpid);
    }
  }
}
