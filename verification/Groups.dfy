/**
 The named groups of gem/groups.go: each with its struct, its shape, its decoder over a cursor, and its Item method.
 A decoder implements the shape, and an Item method builds it, so what holds of shapes holds of the group.
 */
module Groups {
  import opened Secs2
  import opened Decimal
  import opened Decoding
  import opened Shapes
  import opened Building
  import opened RoundTrip
  import opened Places
  import opened Refinement

  // ----- ErrorInfo -----

  /** An error code and its text. */
  datatype ErrorInfo = ErrorInfo(errcode: Item, errtext: string)

  const ERROR_INFO: Row :=
    Row(2,
        Field("ERRCODE", Leaf(KScalar),
        Field("ERRTEXT", Leaf(KText),
        End)))

  function DecodeErrorInfo(c: Cursor, field: string, lenient: bool): Outcome<ErrorInfo> {
    var _ :- RequireArity(c, field, 2, lenient);
    var errcode :- DecodeScalarItem(c.At([0]), field + "." + "ERRCODE");
    var errtext :- DecodeASCII(c.At([1]), field + "." + "ERRTEXT");
    Ok(ErrorInfo(errcode, errtext))
  }

  function ErrorInfoItem(g: ErrorInfo): Item {
    L([
      Present(g.errcode, "ErrorInfo" + "." + "ERRCODE"),
      A(g.errtext)
    ])
  }

  function PackErrorInfo(g: ErrorInfo): Value {
    RowV(true,
      And(ItemV(g.errcode),
      And(TextV(g.errtext),
      Nothing)))
  }

  lemma ErrorInfoDecodes(c: Cursor, field: string, lenient: bool)
    requires Sane(c)
    ensures DecodeRowAt(ERROR_INFO, c, field + ".", field, lenient) ==
              DecodeErrorInfo(c, field, lenient).Map(PackErrorInfo)
  {
    hide Cursor.At, Cursor.Hop, Errors, ListAt, RequireArity, Each, EachFrom;
    hide Decode, DecodeAt, DecodeRow, DecodeRowAt, DecodeSlots, Rest;
    hide DecodeASCII, DecodeItem, DecodeScalarItem, DecodeBool, DecodeByteAs, DecodeUint;
    var prefix := field + ".";
    OpenFixed(ERROR_INFO, c, prefix, field, lenient);
    if RequireArity(c, field, 2, lenient).Err? { return; }
    var rest := StepLeaf(ERROR_INFO.slots, c, 0, 2, prefix, field, lenient);
    if DecodeScalarItem(c.At([0]), prefix + "ERRCODE").Err? { return; }
    rest := StepLeaf(rest, c, 1, 2, prefix, field, lenient);
    if DecodeASCII(c.At([1]), prefix + "ERRTEXT").Err? { return; }
    Finish(rest, c, 2, 2, prefix, field, lenient);
  }

  /** A repeat of groups of this kind. */
  lemma ErrorInfoRepeatDecodes(c: Cursor, field: string, lenient: bool)
    requires Sane(c)
    ensures DecodeAt(Repeat(Group("ErrorInfo", ERROR_INFO)), c, field, lenient) ==
              Each(c, field, WithConfig(lenient, DecodeErrorInfo)).Map(PackMany(PackErrorInfo))
  {
    forall c: Cursor, field: string | Sane(c)
      ensures DecodeRowAt(ERROR_INFO, c, field + ".", field, lenient) ==
                DecodeErrorInfo(c, field, lenient).Map(PackErrorInfo)
    {
      ErrorInfoDecodes(c, field, lenient);
    }
    GroupsImplement("ErrorInfo", ERROR_INFO, DecodeErrorInfo, lenient, PackErrorInfo);
    assert EachOf(WithConfig(lenient, DecodeErrorInfo))(c, field) ==
             Each(c, field, WithConfig(lenient, DecodeErrorInfo));
  }

  lemma ErrorInfoIsInjective()
    ensures Injective(PackErrorInfo)
  {
  }

  lemma ErrorInfoBuildsAt(g: ErrorInfo)
    ensures RowTyped(ERROR_INFO, PackErrorInfo(g))
    ensures BuildRow(ERROR_INFO, PackErrorInfo(g), "ErrorInfo" + ".") == ErrorInfoItem(g)
  {
    hide Spelled, Typed, RowTyped, SlotsTyped, Build, BuildRow, BuildSlots;
    hide L, A, B, BOOLEAN, U, Present;
    var owner, v := "ErrorInfo" + ".", PackErrorInfo(g);
    var items := [
      Present(g.errcode, owner + "ERRCODE"),
      A(g.errtext)
    ];
    SpellEnd(owner, items);
    SpellLeaf(ERROR_INFO.slots.rest, v.fields.rest, 1, owner, items, 1);
    SpellLeaf(ERROR_INFO.slots, v.fields, 2, owner, items, 0);
    SpellRow(ERROR_INFO, v, owner, items);
  }

  lemma ErrorInfoRepeatBuilds(gs: seq<ErrorInfo>, place: string)
    ensures Typed(Repeat(Group("ErrorInfo", ERROR_INFO)), PackMany(PackErrorInfo)(gs))
    ensures Build(Repeat(Group("ErrorInfo", ERROR_INFO)), PackMany(PackErrorInfo)(gs), place) ==
              L(MapItems(gs, ErrorInfoItem))
  {
    forall g: ErrorInfo, place: string
      ensures BuildsAt(ErrorInfoItem, Group("ErrorInfo", ERROR_INFO), PackErrorInfo, g, place)
    {
      ErrorInfoBuildsAt(g);
    }
    EachBuilds(Group("ErrorInfo", ERROR_INFO), ErrorInfoItem, PackErrorInfo, gs, place);
  }

  lemma ErrorInfoItemsOnTheWire(g: ErrorInfo, owner: string, items: seq<Item>)
    requires items == [
               Present(g.errcode, owner + "ERRCODE"),
               A(g.errtext)
             ]
    requires forall i :: 0 <= i < |items| ==> Usable(items[i])
    ensures items == [
              g.errcode,
              Text(g.errtext)
            ]
  {
    hide Errors, ChildErrors, Usable, WithoutNil, Present;
    assert Usable(items[0]);
    PresentUsable(g.errcode, owner + "ERRCODE");
    assert Usable(items[1]);
    TextOnTheWire(g.errtext);
  }

  /** Each field of a group that is sent stands at its own position of the list. */
  lemma ErrorInfoOnTheWire(g: ErrorInfo)
    requires Errors(ErrorInfoItem(g)) == []
    ensures ErrorInfoItem(g) ==
              List([
                g.errcode,
                Text(g.errtext)
              ])
  {
    hide Errors, ChildErrors, Usable, WithoutNil, Present;
    var items := [
      Present(g.errcode, "ErrorInfo" + "." + "ERRCODE"),
      A(g.errtext)
    ];
    ListOnTheWire(items);
    ErrorInfoItemsOnTheWire(g, "ErrorInfo" + ".", items);
  }

  /** A group that can be sent is read back from its item. */
  lemma ErrorInfoComesBack(g: ErrorInfo, field: string)
    requires RowFits(ERROR_INFO, PackErrorInfo(g))
    ensures Usable(ErrorInfoItem(g)) && DecodeErrorInfo(Cursor(ErrorInfoItem(g)), field, false) == Ok(g)
  {
    hide RowFits, DecodeRow, DecodeErrorInfo, BuildRow, ErrorInfoItem, Errors;
    GroupsAreWellFormed();
    ErrorInfoBuildsAt(g);
    RowRoundTrip(ERROR_INFO, PackErrorInfo(g), "ErrorInfo" + ".", field + ".", field);
    ErrorInfoDecodes(Cursor(ErrorInfoItem(g)), field, false);
    ErrorInfoIsInjective();
  }

  // ----- Attribute -----

  /** An attribute and its value, a scalar or a list. */
  datatype Attribute = Attribute(attrid: Item, attrdata: Item)

  const ATTRIBUTE: Row :=
    Row(2,
        Field("ATTRID", Leaf(KScalar),
        Field("ATTRDATA", Leaf(KAny),
        End)))

  function DecodeAttribute(c: Cursor, field: string, lenient: bool): Outcome<Attribute> {
    var _ :- RequireArity(c, field, 2, lenient);
    var attrid :- DecodeScalarItem(c.At([0]), field + "." + "ATTRID");
    var attrdata :- DecodeItem(c.At([1]), field + "." + "ATTRDATA");
    Ok(Attribute(attrid, attrdata))
  }

  function AttributeItem(g: Attribute): Item {
    L([
      Present(g.attrid, "Attribute" + "." + "ATTRID"),
      Present(g.attrdata, "Attribute" + "." + "ATTRDATA")
    ])
  }

  function PackAttribute(g: Attribute): Value {
    RowV(true,
      And(ItemV(g.attrid),
      And(ItemV(g.attrdata),
      Nothing)))
  }

  lemma AttributeDecodes(c: Cursor, field: string, lenient: bool)
    requires Sane(c)
    ensures DecodeRowAt(ATTRIBUTE, c, field + ".", field, lenient) ==
              DecodeAttribute(c, field, lenient).Map(PackAttribute)
  {
    hide Cursor.At, Cursor.Hop, Errors, ListAt, RequireArity, Each, EachFrom;
    hide Decode, DecodeAt, DecodeRow, DecodeRowAt, DecodeSlots, Rest;
    hide DecodeASCII, DecodeItem, DecodeScalarItem, DecodeBool, DecodeByteAs, DecodeUint;
    var prefix := field + ".";
    OpenFixed(ATTRIBUTE, c, prefix, field, lenient);
    if RequireArity(c, field, 2, lenient).Err? { return; }
    var rest := StepLeaf(ATTRIBUTE.slots, c, 0, 2, prefix, field, lenient);
    if DecodeScalarItem(c.At([0]), prefix + "ATTRID").Err? { return; }
    rest := StepLeaf(rest, c, 1, 2, prefix, field, lenient);
    if DecodeItem(c.At([1]), prefix + "ATTRDATA").Err? { return; }
    Finish(rest, c, 2, 2, prefix, field, lenient);
  }

  /** A repeat of groups of this kind. */
  lemma AttributeRepeatDecodes(c: Cursor, field: string, lenient: bool)
    requires Sane(c)
    ensures DecodeAt(Repeat(Group("Attribute", ATTRIBUTE)), c, field, lenient) ==
              Each(c, field, WithConfig(lenient, DecodeAttribute)).Map(PackMany(PackAttribute))
  {
    forall c: Cursor, field: string | Sane(c)
      ensures DecodeRowAt(ATTRIBUTE, c, field + ".", field, lenient) ==
                DecodeAttribute(c, field, lenient).Map(PackAttribute)
    {
      AttributeDecodes(c, field, lenient);
    }
    GroupsImplement("Attribute", ATTRIBUTE, DecodeAttribute, lenient, PackAttribute);
    assert EachOf(WithConfig(lenient, DecodeAttribute))(c, field) ==
             Each(c, field, WithConfig(lenient, DecodeAttribute));
  }

  lemma AttributeIsInjective()
    ensures Injective(PackAttribute)
  {
  }

  lemma AttributeBuildsAt(g: Attribute)
    ensures RowTyped(ATTRIBUTE, PackAttribute(g))
    ensures BuildRow(ATTRIBUTE, PackAttribute(g), "Attribute" + ".") == AttributeItem(g)
  {
    hide Spelled, Typed, RowTyped, SlotsTyped, Build, BuildRow, BuildSlots;
    hide L, A, B, BOOLEAN, U, Present;
    var owner, v := "Attribute" + ".", PackAttribute(g);
    var items := [
      Present(g.attrid, owner + "ATTRID"),
      Present(g.attrdata, owner + "ATTRDATA")
    ];
    SpellEnd(owner, items);
    SpellLeaf(ATTRIBUTE.slots.rest, v.fields.rest, 1, owner, items, 1);
    SpellLeaf(ATTRIBUTE.slots, v.fields, 2, owner, items, 0);
    SpellRow(ATTRIBUTE, v, owner, items);
  }

  lemma AttributeRepeatBuilds(gs: seq<Attribute>, place: string)
    ensures Typed(Repeat(Group("Attribute", ATTRIBUTE)), PackMany(PackAttribute)(gs))
    ensures Build(Repeat(Group("Attribute", ATTRIBUTE)), PackMany(PackAttribute)(gs), place) ==
              L(MapItems(gs, AttributeItem))
  {
    forall g: Attribute, place: string
      ensures BuildsAt(AttributeItem, Group("Attribute", ATTRIBUTE), PackAttribute, g, place)
    {
      AttributeBuildsAt(g);
    }
    EachBuilds(Group("Attribute", ATTRIBUTE), AttributeItem, PackAttribute, gs, place);
  }

  lemma AttributeItemsOnTheWire(g: Attribute, owner: string, items: seq<Item>)
    requires items == [
               Present(g.attrid, owner + "ATTRID"),
               Present(g.attrdata, owner + "ATTRDATA")
             ]
    requires forall i :: 0 <= i < |items| ==> Usable(items[i])
    ensures items == [
              g.attrid,
              g.attrdata
            ]
  {
    hide Errors, ChildErrors, Usable, WithoutNil, Present;
    assert Usable(items[0]);
    PresentUsable(g.attrid, owner + "ATTRID");
    assert Usable(items[1]);
    PresentUsable(g.attrdata, owner + "ATTRDATA");
  }

  /** Each field of a group that is sent stands at its own position of the list. */
  lemma AttributeOnTheWire(g: Attribute)
    requires Errors(AttributeItem(g)) == []
    ensures AttributeItem(g) ==
              List([
                g.attrid,
                g.attrdata
              ])
  {
    hide Errors, ChildErrors, Usable, WithoutNil, Present;
    var items := [
      Present(g.attrid, "Attribute" + "." + "ATTRID"),
      Present(g.attrdata, "Attribute" + "." + "ATTRDATA")
    ];
    ListOnTheWire(items);
    AttributeItemsOnTheWire(g, "Attribute" + ".", items);
  }

  /** A group that can be sent is read back from its item. */
  lemma AttributeComesBack(g: Attribute, field: string)
    requires RowFits(ATTRIBUTE, PackAttribute(g))
    ensures Usable(AttributeItem(g)) && DecodeAttribute(Cursor(AttributeItem(g)), field, false) == Ok(g)
  {
    hide RowFits, DecodeRow, DecodeAttribute, BuildRow, AttributeItem, Errors;
    GroupsAreWellFormed();
    AttributeBuildsAt(g);
    RowRoundTrip(ATTRIBUTE, PackAttribute(g), "Attribute" + ".", field + ".", field);
    AttributeDecodes(Cursor(AttributeItem(g)), field, false);
    AttributeIsInjective();
  }

  // ----- RecipeParam -----

  /** A recipe parameter and its value. */
  datatype RecipeParam = RecipeParam(rcpparnm: string, rcpparval: Item)

  const RECIPE_PARAM: Row :=
    Row(2,
        Field("RCPPARNM", Leaf(KText),
        Field("RCPPARVAL", Leaf(KAny),
        End)))

  function DecodeRecipeParam(c: Cursor, field: string, lenient: bool): Outcome<RecipeParam> {
    var _ :- RequireArity(c, field, 2, lenient);
    var rcpparnm :- DecodeASCII(c.At([0]), field + "." + "RCPPARNM");
    var rcpparval :- DecodeItem(c.At([1]), field + "." + "RCPPARVAL");
    Ok(RecipeParam(rcpparnm, rcpparval))
  }

  function RecipeParamItem(g: RecipeParam): Item {
    L([
      A(g.rcpparnm),
      Present(g.rcpparval, "RecipeParam" + "." + "RCPPARVAL")
    ])
  }

  function PackRecipeParam(g: RecipeParam): Value {
    RowV(true,
      And(TextV(g.rcpparnm),
      And(ItemV(g.rcpparval),
      Nothing)))
  }

  lemma RecipeParamDecodes(c: Cursor, field: string, lenient: bool)
    requires Sane(c)
    ensures DecodeRowAt(RECIPE_PARAM, c, field + ".", field, lenient) ==
              DecodeRecipeParam(c, field, lenient).Map(PackRecipeParam)
  {
    hide Cursor.At, Cursor.Hop, Errors, ListAt, RequireArity, Each, EachFrom;
    hide Decode, DecodeAt, DecodeRow, DecodeRowAt, DecodeSlots, Rest;
    hide DecodeASCII, DecodeItem, DecodeScalarItem, DecodeBool, DecodeByteAs, DecodeUint;
    var prefix := field + ".";
    OpenFixed(RECIPE_PARAM, c, prefix, field, lenient);
    if RequireArity(c, field, 2, lenient).Err? { return; }
    var rest := StepLeaf(RECIPE_PARAM.slots, c, 0, 2, prefix, field, lenient);
    if DecodeASCII(c.At([0]), prefix + "RCPPARNM").Err? { return; }
    rest := StepLeaf(rest, c, 1, 2, prefix, field, lenient);
    if DecodeItem(c.At([1]), prefix + "RCPPARVAL").Err? { return; }
    Finish(rest, c, 2, 2, prefix, field, lenient);
  }

  /** A repeat of groups of this kind. */
  lemma RecipeParamRepeatDecodes(c: Cursor, field: string, lenient: bool)
    requires Sane(c)
    ensures DecodeAt(Repeat(Group("RecipeParam", RECIPE_PARAM)), c, field, lenient) ==
              Each(c, field, WithConfig(lenient, DecodeRecipeParam)).Map(PackMany(PackRecipeParam))
  {
    forall c: Cursor, field: string | Sane(c)
      ensures DecodeRowAt(RECIPE_PARAM, c, field + ".", field, lenient) ==
                DecodeRecipeParam(c, field, lenient).Map(PackRecipeParam)
    {
      RecipeParamDecodes(c, field, lenient);
    }
    GroupsImplement("RecipeParam", RECIPE_PARAM, DecodeRecipeParam, lenient, PackRecipeParam);
    assert EachOf(WithConfig(lenient, DecodeRecipeParam))(c, field) ==
             Each(c, field, WithConfig(lenient, DecodeRecipeParam));
  }

  lemma RecipeParamIsInjective()
    ensures Injective(PackRecipeParam)
  {
  }

  lemma RecipeParamBuildsAt(g: RecipeParam)
    ensures RowTyped(RECIPE_PARAM, PackRecipeParam(g))
    ensures BuildRow(RECIPE_PARAM, PackRecipeParam(g), "RecipeParam" + ".") == RecipeParamItem(g)
  {
    hide Spelled, Typed, RowTyped, SlotsTyped, Build, BuildRow, BuildSlots;
    hide L, A, B, BOOLEAN, U, Present;
    var owner, v := "RecipeParam" + ".", PackRecipeParam(g);
    var items := [
      A(g.rcpparnm),
      Present(g.rcpparval, owner + "RCPPARVAL")
    ];
    SpellEnd(owner, items);
    SpellLeaf(RECIPE_PARAM.slots.rest, v.fields.rest, 1, owner, items, 1);
    SpellLeaf(RECIPE_PARAM.slots, v.fields, 2, owner, items, 0);
    SpellRow(RECIPE_PARAM, v, owner, items);
  }

  lemma RecipeParamRepeatBuilds(gs: seq<RecipeParam>, place: string)
    ensures Typed(Repeat(Group("RecipeParam", RECIPE_PARAM)), PackMany(PackRecipeParam)(gs))
    ensures Build(Repeat(Group("RecipeParam", RECIPE_PARAM)), PackMany(PackRecipeParam)(gs), place) ==
              L(MapItems(gs, RecipeParamItem))
  {
    forall g: RecipeParam, place: string
      ensures BuildsAt(RecipeParamItem, Group("RecipeParam", RECIPE_PARAM), PackRecipeParam, g, place)
    {
      RecipeParamBuildsAt(g);
    }
    EachBuilds(Group("RecipeParam", RECIPE_PARAM), RecipeParamItem, PackRecipeParam, gs, place);
  }

  lemma RecipeParamItemsOnTheWire(g: RecipeParam, owner: string, items: seq<Item>)
    requires items == [
               A(g.rcpparnm),
               Present(g.rcpparval, owner + "RCPPARVAL")
             ]
    requires forall i :: 0 <= i < |items| ==> Usable(items[i])
    ensures items == [
              Text(g.rcpparnm),
              g.rcpparval
            ]
  {
    hide Errors, ChildErrors, Usable, WithoutNil, Present;
    assert Usable(items[0]);
    TextOnTheWire(g.rcpparnm);
    assert Usable(items[1]);
    PresentUsable(g.rcpparval, owner + "RCPPARVAL");
  }

  /** Each field of a group that is sent stands at its own position of the list. */
  lemma RecipeParamOnTheWire(g: RecipeParam)
    requires Errors(RecipeParamItem(g)) == []
    ensures RecipeParamItem(g) ==
              List([
                Text(g.rcpparnm),
                g.rcpparval
              ])
  {
    hide Errors, ChildErrors, Usable, WithoutNil, Present;
    var items := [
      A(g.rcpparnm),
      Present(g.rcpparval, "RecipeParam" + "." + "RCPPARVAL")
    ];
    ListOnTheWire(items);
    RecipeParamItemsOnTheWire(g, "RecipeParam" + ".", items);
  }

  /** A group that can be sent is read back from its item. */
  lemma RecipeParamComesBack(g: RecipeParam, field: string)
    requires RowFits(RECIPE_PARAM, PackRecipeParam(g))
    ensures Usable(RecipeParamItem(g)) && DecodeRecipeParam(Cursor(RecipeParamItem(g)), field, false) == Ok(g)
  {
    hide RowFits, DecodeRow, DecodeRecipeParam, BuildRow, RecipeParamItem, Errors;
    GroupsAreWellFormed();
    RecipeParamBuildsAt(g);
    RowRoundTrip(RECIPE_PARAM, PackRecipeParam(g), "RecipeParam" + ".", field + ".", field);
    RecipeParamDecodes(Cursor(RecipeParamItem(g)), field, false);
    RecipeParamIsInjective();
  }

  // ----- RecipeDescriptor -----

  /** A recipe section; S15F24 sends an absent one as L[0]. */
  datatype RecipeDescriptor = RecipeDescriptor(rcpdescnm: string, rcpdesctime: string, rcpdesclth: Item)

  const RECIPE_DESCRIPTOR: Row :=
    Row(3,
        Field("RCPDESCNM", Leaf(KText),
        Field("RCPDESCTIME", Leaf(KText),
        Field("RCPDESCLTH", Leaf(KScalar),
        End))))

  function DecodeRecipeDescriptor(c: Cursor, field: string, lenient: bool): Outcome<RecipeDescriptor> {
    var _ :- RequireArity(c, field, 3, lenient);
    var rcpdescnm :- DecodeASCII(c.At([0]), field + "." + "RCPDESCNM");
    var rcpdesctime :- DecodeASCII(c.At([1]), field + "." + "RCPDESCTIME");
    var rcpdesclth :- DecodeScalarItem(c.At([2]), field + "." + "RCPDESCLTH");
    Ok(RecipeDescriptor(rcpdescnm, rcpdesctime, rcpdesclth))
  }

  function RecipeDescriptorItem(g: RecipeDescriptor): Item {
    L([
      A(g.rcpdescnm),
      A(g.rcpdesctime),
      Present(g.rcpdesclth, "RecipeDescriptor" + "." + "RCPDESCLTH")
    ])
  }

  function PackRecipeDescriptor(g: RecipeDescriptor): Value {
    RowV(true,
      And(TextV(g.rcpdescnm),
      And(TextV(g.rcpdesctime),
      And(ItemV(g.rcpdesclth),
      Nothing))))
  }

  lemma RecipeDescriptorDecodes(c: Cursor, field: string, lenient: bool)
    requires Sane(c)
    ensures DecodeRowAt(RECIPE_DESCRIPTOR, c, field + ".", field, lenient) ==
              DecodeRecipeDescriptor(c, field, lenient).Map(PackRecipeDescriptor)
  {
    hide Cursor.At, Cursor.Hop, Errors, ListAt, RequireArity, Each, EachFrom;
    hide Decode, DecodeAt, DecodeRow, DecodeRowAt, DecodeSlots, Rest;
    hide DecodeASCII, DecodeItem, DecodeScalarItem, DecodeBool, DecodeByteAs, DecodeUint;
    var prefix := field + ".";
    OpenFixed(RECIPE_DESCRIPTOR, c, prefix, field, lenient);
    if RequireArity(c, field, 3, lenient).Err? { return; }
    var rest := StepLeaf(RECIPE_DESCRIPTOR.slots, c, 0, 3, prefix, field, lenient);
    if DecodeASCII(c.At([0]), prefix + "RCPDESCNM").Err? { return; }
    rest := StepLeaf(rest, c, 1, 3, prefix, field, lenient);
    if DecodeASCII(c.At([1]), prefix + "RCPDESCTIME").Err? { return; }
    rest := StepLeaf(rest, c, 2, 3, prefix, field, lenient);
    if DecodeScalarItem(c.At([2]), prefix + "RCPDESCLTH").Err? { return; }
    Finish(rest, c, 3, 3, prefix, field, lenient);
  }

  /** An optional group of this kind. */
  lemma OptionalRecipeDescriptorDecodes(c: Cursor, field: string, lenient: bool)
    requires Sane(c)
    ensures DecodeAt(OptionalGroup("RecipeDescriptor", RECIPE_DESCRIPTOR), c, field, lenient) ==
              DecodeOptionalGroup(c, field, 3, lenient, DecodeRecipeDescriptor).Map(PackOption(PackRecipeDescriptor))
  {
    forall c: Cursor, field: string | Sane(c)
      ensures DecodeRowAt(RECIPE_DESCRIPTOR, c, field + ".", field, lenient) ==
                DecodeRecipeDescriptor(c, field, lenient).Map(PackRecipeDescriptor)
    {
      RecipeDescriptorDecodes(c, field, lenient);
    }
    OptionalGroupImplements("RecipeDescriptor", RECIPE_DESCRIPTOR, DecodeRecipeDescriptor, lenient, PackRecipeDescriptor);
    assert OptionalGroupOf(lenient, 3, DecodeRecipeDescriptor)(c, field) ==
             DecodeOptionalGroup(c, field, 3, lenient, DecodeRecipeDescriptor);
  }

  lemma RecipeDescriptorIsInjective()
    ensures Injective(PackRecipeDescriptor)
  {
  }

  lemma RecipeDescriptorBuilds()
    ensures Builds(RecipeDescriptorItem, Group("RecipeDescriptor", RECIPE_DESCRIPTOR), PackRecipeDescriptor)
  {
    forall g: RecipeDescriptor, place: string
      ensures BuildsAt(RecipeDescriptorItem, Group("RecipeDescriptor", RECIPE_DESCRIPTOR), PackRecipeDescriptor, g, place)
    {
      RecipeDescriptorBuildsAt(g);
    }
  }

  lemma RecipeDescriptorBuildsAt(g: RecipeDescriptor)
    ensures RowTyped(RECIPE_DESCRIPTOR, PackRecipeDescriptor(g))
    ensures BuildRow(RECIPE_DESCRIPTOR, PackRecipeDescriptor(g), "RecipeDescriptor" + ".") == RecipeDescriptorItem(g)
  {
    hide Spelled, Typed, RowTyped, SlotsTyped, Build, BuildRow, BuildSlots;
    hide L, A, B, BOOLEAN, U, Present;
    var owner, v := "RecipeDescriptor" + ".", PackRecipeDescriptor(g);
    var items := [
      A(g.rcpdescnm),
      A(g.rcpdesctime),
      Present(g.rcpdesclth, owner + "RCPDESCLTH")
    ];
    SpellEnd(owner, items);
    SpellLeaf(RECIPE_DESCRIPTOR.slots.rest.rest, v.fields.rest.rest, 1, owner, items, 2);
    SpellLeaf(RECIPE_DESCRIPTOR.slots.rest, v.fields.rest, 2, owner, items, 1);
    SpellLeaf(RECIPE_DESCRIPTOR.slots, v.fields, 3, owner, items, 0);
    SpellRow(RECIPE_DESCRIPTOR, v, owner, items);
  }

  lemma RecipeDescriptorItemsOnTheWire(g: RecipeDescriptor, owner: string, items: seq<Item>)
    requires items == [
               A(g.rcpdescnm),
               A(g.rcpdesctime),
               Present(g.rcpdesclth, owner + "RCPDESCLTH")
             ]
    requires forall i :: 0 <= i < |items| ==> Usable(items[i])
    ensures items == [
              Text(g.rcpdescnm),
              Text(g.rcpdesctime),
              g.rcpdesclth
            ]
  {
    hide Errors, ChildErrors, Usable, WithoutNil, Present;
    assert Usable(items[0]);
    TextOnTheWire(g.rcpdescnm);
    assert Usable(items[1]);
    TextOnTheWire(g.rcpdesctime);
    assert Usable(items[2]);
    PresentUsable(g.rcpdesclth, owner + "RCPDESCLTH");
  }

  /** Each field of a group that is sent stands at its own position of the list. */
  lemma RecipeDescriptorOnTheWire(g: RecipeDescriptor)
    requires Errors(RecipeDescriptorItem(g)) == []
    ensures RecipeDescriptorItem(g) ==
              List([
                Text(g.rcpdescnm),
                Text(g.rcpdesctime),
                g.rcpdesclth
              ])
  {
    hide Errors, ChildErrors, Usable, WithoutNil, Present;
    var items := [
      A(g.rcpdescnm),
      A(g.rcpdesctime),
      Present(g.rcpdesclth, "RecipeDescriptor" + "." + "RCPDESCLTH")
    ];
    ListOnTheWire(items);
    RecipeDescriptorItemsOnTheWire(g, "RecipeDescriptor" + ".", items);
  }

  /** A group that can be sent is read back from its item. */
  lemma RecipeDescriptorComesBack(g: RecipeDescriptor, field: string)
    requires RowFits(RECIPE_DESCRIPTOR, PackRecipeDescriptor(g))
    ensures Usable(RecipeDescriptorItem(g)) && DecodeRecipeDescriptor(Cursor(RecipeDescriptorItem(g)), field, false) == Ok(g)
  {
    hide RowFits, DecodeRow, DecodeRecipeDescriptor, BuildRow, RecipeDescriptorItem, Errors;
    GroupsAreWellFormed();
    RecipeDescriptorBuildsAt(g);
    RowRoundTrip(RECIPE_DESCRIPTOR, PackRecipeDescriptor(g), "RecipeDescriptor" + ".", field + ".", field);
    RecipeDescriptorDecodes(Cursor(RecipeDescriptorItem(g)), field, false);
    RecipeDescriptorIsInjective();
  }

  // ----- Deadband -----

  /** The upper and lower bounds of a limit. */
  datatype Deadband = Deadband(upperdb: Item, lowerdb: Item)

  const DEADBAND: Row :=
    Row(2,
        Field("UPPERDB", Leaf(KScalar),
        Field("LOWERDB", Leaf(KScalar),
        End)))

  function DecodeDeadband(c: Cursor, field: string, lenient: bool): Outcome<Deadband> {
    var _ :- RequireArity(c, field, 2, lenient);
    var upperdb :- DecodeScalarItem(c.At([0]), field + "." + "UPPERDB");
    var lowerdb :- DecodeScalarItem(c.At([1]), field + "." + "LOWERDB");
    Ok(Deadband(upperdb, lowerdb))
  }

  function DeadbandItem(g: Deadband): Item {
    L([
      Present(g.upperdb, "Deadband" + "." + "UPPERDB"),
      Present(g.lowerdb, "Deadband" + "." + "LOWERDB")
    ])
  }

  function PackDeadband(g: Deadband): Value {
    RowV(true,
      And(ItemV(g.upperdb),
      And(ItemV(g.lowerdb),
      Nothing)))
  }

  lemma DeadbandDecodes(c: Cursor, field: string, lenient: bool)
    requires Sane(c)
    ensures DecodeRowAt(DEADBAND, c, field + ".", field, lenient) ==
              DecodeDeadband(c, field, lenient).Map(PackDeadband)
  {
    hide Cursor.At, Cursor.Hop, Errors, ListAt, RequireArity, Each, EachFrom;
    hide Decode, DecodeAt, DecodeRow, DecodeRowAt, DecodeSlots, Rest;
    hide DecodeASCII, DecodeItem, DecodeScalarItem, DecodeBool, DecodeByteAs, DecodeUint;
    var prefix := field + ".";
    OpenFixed(DEADBAND, c, prefix, field, lenient);
    if RequireArity(c, field, 2, lenient).Err? { return; }
    var rest := StepLeaf(DEADBAND.slots, c, 0, 2, prefix, field, lenient);
    if DecodeScalarItem(c.At([0]), prefix + "UPPERDB").Err? { return; }
    rest := StepLeaf(rest, c, 1, 2, prefix, field, lenient);
    if DecodeScalarItem(c.At([1]), prefix + "LOWERDB").Err? { return; }
    Finish(rest, c, 2, 2, prefix, field, lenient);
  }

  /** An optional group of this kind. */
  lemma OptionalDeadbandDecodes(c: Cursor, field: string, lenient: bool)
    requires Sane(c)
    ensures DecodeAt(OptionalGroup("Deadband", DEADBAND), c, field, lenient) ==
              DecodeOptionalGroup(c, field, 2, lenient, DecodeDeadband).Map(PackOption(PackDeadband))
  {
    forall c: Cursor, field: string | Sane(c)
      ensures DecodeRowAt(DEADBAND, c, field + ".", field, lenient) ==
                DecodeDeadband(c, field, lenient).Map(PackDeadband)
    {
      DeadbandDecodes(c, field, lenient);
    }
    OptionalGroupImplements("Deadband", DEADBAND, DecodeDeadband, lenient, PackDeadband);
    assert OptionalGroupOf(lenient, 2, DecodeDeadband)(c, field) ==
             DecodeOptionalGroup(c, field, 2, lenient, DecodeDeadband);
  }

  lemma DeadbandIsInjective()
    ensures Injective(PackDeadband)
  {
  }

  lemma DeadbandBuilds()
    ensures Builds(DeadbandItem, Group("Deadband", DEADBAND), PackDeadband)
  {
    forall g: Deadband, place: string
      ensures BuildsAt(DeadbandItem, Group("Deadband", DEADBAND), PackDeadband, g, place)
    {
      DeadbandBuildsAt(g);
    }
  }

  lemma DeadbandBuildsAt(g: Deadband)
    ensures RowTyped(DEADBAND, PackDeadband(g))
    ensures BuildRow(DEADBAND, PackDeadband(g), "Deadband" + ".") == DeadbandItem(g)
  {
    hide Spelled, Typed, RowTyped, SlotsTyped, Build, BuildRow, BuildSlots;
    hide L, A, B, BOOLEAN, U, Present;
    var owner, v := "Deadband" + ".", PackDeadband(g);
    var items := [
      Present(g.upperdb, owner + "UPPERDB"),
      Present(g.lowerdb, owner + "LOWERDB")
    ];
    SpellEnd(owner, items);
    SpellLeaf(DEADBAND.slots.rest, v.fields.rest, 1, owner, items, 1);
    SpellLeaf(DEADBAND.slots, v.fields, 2, owner, items, 0);
    SpellRow(DEADBAND, v, owner, items);
  }

  lemma DeadbandItemsOnTheWire(g: Deadband, owner: string, items: seq<Item>)
    requires items == [
               Present(g.upperdb, owner + "UPPERDB"),
               Present(g.lowerdb, owner + "LOWERDB")
             ]
    requires forall i :: 0 <= i < |items| ==> Usable(items[i])
    ensures items == [
              g.upperdb,
              g.lowerdb
            ]
  {
    hide Errors, ChildErrors, Usable, WithoutNil, Present;
    assert Usable(items[0]);
    PresentUsable(g.upperdb, owner + "UPPERDB");
    assert Usable(items[1]);
    PresentUsable(g.lowerdb, owner + "LOWERDB");
  }

  /** Each field of a group that is sent stands at its own position of the list. */
  lemma DeadbandOnTheWire(g: Deadband)
    requires Errors(DeadbandItem(g)) == []
    ensures DeadbandItem(g) ==
              List([
                g.upperdb,
                g.lowerdb
              ])
  {
    hide Errors, ChildErrors, Usable, WithoutNil, Present;
    var items := [
      Present(g.upperdb, "Deadband" + "." + "UPPERDB"),
      Present(g.lowerdb, "Deadband" + "." + "LOWERDB")
    ];
    ListOnTheWire(items);
    DeadbandItemsOnTheWire(g, "Deadband" + ".", items);
  }

  /** A group that can be sent is read back from its item. */
  lemma DeadbandComesBack(g: Deadband, field: string)
    requires RowFits(DEADBAND, PackDeadband(g))
    ensures Usable(DeadbandItem(g)) && DecodeDeadband(Cursor(DeadbandItem(g)), field, false) == Ok(g)
  {
    hide RowFits, DecodeRow, DecodeDeadband, BuildRow, DeadbandItem, Errors;
    GroupsAreWellFormed();
    DeadbandBuildsAt(g);
    RowRoundTrip(DEADBAND, PackDeadband(g), "Deadband" + ".", field + ".", field);
    DeadbandDecodes(Cursor(DeadbandItem(g)), field, false);
    DeadbandIsInjective();
  }

  // ----- Limit -----

  /** A limit, whose deadband may be sent as L[0]. */
  datatype Limit = Limit(limitid: byte, deadband: Option<Deadband>)

  const LIMIT: Row :=
    Row(2,
        Field("LIMITID", Leaf(KByte),
        Field("DEADBAND", OptionalGroup("Deadband", DEADBAND),
        End)))

  function DecodeLimit(c: Cursor, field: string, lenient: bool): Outcome<Limit> {
    var _ :- RequireArity(c, field, 2, lenient);
    var limitid :- DecodeByteAs(c.At([0]), field + "." + "LIMITID");
    var deadband :- DecodeOptionalGroup(c.At([1]), field + "." + "DEADBAND", 2, lenient, DecodeDeadband);
    Ok(Limit(limitid, deadband))
  }

  function LimitItem(g: Limit): Item {
    L([
      B([g.limitid]),
      OptionalGroupItem(DeadbandItem)(g.deadband)
    ])
  }

  function PackLimit(g: Limit): Value {
    RowV(true,
      And(ByteV(g.limitid),
      And(PackOption(PackDeadband)(g.deadband),
      Nothing)))
  }

  lemma LimitDecodes(c: Cursor, field: string, lenient: bool)
    requires Sane(c)
    ensures DecodeRowAt(LIMIT, c, field + ".", field, lenient) ==
              DecodeLimit(c, field, lenient).Map(PackLimit)
  {
    hide Cursor.At, Cursor.Hop, Errors, ListAt, RequireArity, Each, EachFrom;
    hide Decode, DecodeAt, DecodeRow, DecodeRowAt, DecodeSlots, Rest;
    hide DecodeASCII, DecodeItem, DecodeScalarItem, DecodeBool, DecodeByteAs, DecodeUint;
    var prefix := field + ".";
    OpenFixed(LIMIT, c, prefix, field, lenient);
    if RequireArity(c, field, 2, lenient).Err? { return; }
    var rest := StepLeaf(LIMIT.slots, c, 0, 2, prefix, field, lenient);
    if DecodeByteAs(c.At([0]), prefix + "LIMITID").Err? { return; }
    rest := Step(rest, c, 1, 2, prefix, field, lenient);
    OptionalDeadbandDecodes(c.At([1]), prefix + "DEADBAND", lenient);
    if DecodeOptionalGroup(c.At([1]), prefix + "DEADBAND", 2, lenient, DecodeDeadband).Err? { return; }
    Finish(rest, c, 2, 2, prefix, field, lenient);
  }

  /** A repeat of groups of this kind. */
  lemma LimitRepeatDecodes(c: Cursor, field: string, lenient: bool)
    requires Sane(c)
    ensures DecodeAt(Repeat(Group("Limit", LIMIT)), c, field, lenient) ==
              Each(c, field, WithConfig(lenient, DecodeLimit)).Map(PackMany(PackLimit))
  {
    forall c: Cursor, field: string | Sane(c)
      ensures DecodeRowAt(LIMIT, c, field + ".", field, lenient) ==
                DecodeLimit(c, field, lenient).Map(PackLimit)
    {
      LimitDecodes(c, field, lenient);
    }
    GroupsImplement("Limit", LIMIT, DecodeLimit, lenient, PackLimit);
    assert EachOf(WithConfig(lenient, DecodeLimit))(c, field) ==
             Each(c, field, WithConfig(lenient, DecodeLimit));
  }

  lemma LimitIsInjective()
    ensures Injective(PackLimit)
  {
    DeadbandIsInjective();
    OptionIsInjective(PackDeadband);
  }

  lemma LimitBuildsAt(g: Limit)
    ensures RowTyped(LIMIT, PackLimit(g))
    ensures BuildRow(LIMIT, PackLimit(g), "Limit" + ".") == LimitItem(g)
  {
    hide Spelled, Typed, RowTyped, SlotsTyped, Build, BuildRow, BuildSlots;
    hide L, A, B, BOOLEAN, U, Present;
    var owner, v := "Limit" + ".", PackLimit(g);
    var items := [
      B([g.limitid]),
      OptionalGroupItem(DeadbandItem)(g.deadband)
    ];
    assert BuildsAt(OptionalGroupItem(DeadbandItem), OptionalGroup("Deadband", DEADBAND),
                    PackOption(PackDeadband), g.deadband, owner + "DEADBAND") by {
      DeadbandBuilds();
      OptionalGroupBuilds("Deadband", DEADBAND, DeadbandItem, PackDeadband);
    }
    SpellEnd(owner, items);
    SpellBuilt(LIMIT.slots.rest, v.fields.rest, 1, owner, items, 1,
               OptionalGroupItem(DeadbandItem), PackOption(PackDeadband), g.deadband);
    SpellLeaf(LIMIT.slots, v.fields, 2, owner, items, 0);
    SpellRow(LIMIT, v, owner, items);
  }

  lemma LimitRepeatBuilds(gs: seq<Limit>, place: string)
    ensures Typed(Repeat(Group("Limit", LIMIT)), PackMany(PackLimit)(gs))
    ensures Build(Repeat(Group("Limit", LIMIT)), PackMany(PackLimit)(gs), place) ==
              L(MapItems(gs, LimitItem))
  {
    forall g: Limit, place: string
      ensures BuildsAt(LimitItem, Group("Limit", LIMIT), PackLimit, g, place)
    {
      LimitBuildsAt(g);
    }
    EachBuilds(Group("Limit", LIMIT), LimitItem, PackLimit, gs, place);
  }

  lemma LimitItemsOnTheWire(g: Limit, owner: string, items: seq<Item>)
    requires items == [
               B([g.limitid]),
               OptionalGroupItem(DeadbandItem)(g.deadband)
             ]
    requires forall i :: 0 <= i < |items| ==> Usable(items[i])
    ensures items == [
              Binary([g.limitid]),
              if g.deadband.None? then List([]) else DeadbandItem(g.deadband.value)
            ]
  {
    hide Errors, ChildErrors, Usable, WithoutNil, Present;
    OptionalGroupOnTheWire(g.deadband, DeadbandItem);
  }

  /** Each field of a group that is sent stands at its own position of the list. */
  lemma LimitOnTheWire(g: Limit)
    requires Errors(LimitItem(g)) == []
    ensures LimitItem(g) ==
              List([
                Binary([g.limitid]),
                if g.deadband.None? then List([]) else DeadbandItem(g.deadband.value)
              ])
  {
    hide Errors, ChildErrors, Usable, WithoutNil, Present;
    OptionalGroupOnTheWire(g.deadband, DeadbandItem);
    var items := [
      B([g.limitid]),
      OptionalGroupItem(DeadbandItem)(g.deadband)
    ];
    ListOnTheWire(items);
    LimitItemsOnTheWire(g, "Limit" + ".", items);
  }

  /** A group that can be sent is read back from its item. */
  lemma LimitComesBack(g: Limit, field: string)
    requires RowFits(LIMIT, PackLimit(g))
    ensures Usable(LimitItem(g)) && DecodeLimit(Cursor(LimitItem(g)), field, false) == Ok(g)
  {
    hide RowFits, DecodeRow, DecodeLimit, BuildRow, LimitItem, Errors;
    GroupsAreWellFormed();
    LimitBuildsAt(g);
    RowRoundTrip(LIMIT, PackLimit(g), "Limit" + ".", field + ".", field);
    LimitDecodes(Cursor(LimitItem(g)), field, false);
    LimitIsInjective();
  }

  // ----- VariableLimits -----

  /** The limits of one variable. */
  datatype VariableLimits = VariableLimits(vid: Item, limits: seq<Limit>)

  const VARIABLE_LIMITS: Row :=
    Row(2,
        Field("VID", Leaf(KScalar),
        Field("LIMITS", Repeat(Group("Limit", LIMIT)),
        End)))

  function DecodeVariableLimits(c: Cursor, field: string, lenient: bool): Outcome<VariableLimits> {
    var _ :- RequireArity(c, field, 2, lenient);
    var vid :- DecodeScalarItem(c.At([0]), field + "." + "VID");
    var limits :- Each(c.At([1]), field + "." + "LIMITS", WithConfig(lenient, DecodeLimit));
    Ok(VariableLimits(vid, limits))
  }

  function VariableLimitsItem(g: VariableLimits): Item {
    L([
      Present(g.vid, "VariableLimits" + "." + "VID"),
      L(MapItems(g.limits, LimitItem))
    ])
  }

  function PackVariableLimits(g: VariableLimits): Value {
    RowV(true,
      And(ItemV(g.vid),
      And(PackMany(PackLimit)(g.limits),
      Nothing)))
  }

  lemma VariableLimitsDecodes(c: Cursor, field: string, lenient: bool)
    requires Sane(c)
    ensures DecodeRowAt(VARIABLE_LIMITS, c, field + ".", field, lenient) ==
              DecodeVariableLimits(c, field, lenient).Map(PackVariableLimits)
  {
    hide Cursor.At, Cursor.Hop, Errors, ListAt, RequireArity, Each, EachFrom;
    hide Decode, DecodeAt, DecodeRow, DecodeRowAt, DecodeSlots, Rest;
    hide DecodeASCII, DecodeItem, DecodeScalarItem, DecodeBool, DecodeByteAs, DecodeUint;
    var prefix := field + ".";
    OpenFixed(VARIABLE_LIMITS, c, prefix, field, lenient);
    if RequireArity(c, field, 2, lenient).Err? { return; }
    var rest := StepLeaf(VARIABLE_LIMITS.slots, c, 0, 2, prefix, field, lenient);
    if DecodeScalarItem(c.At([0]), prefix + "VID").Err? { return; }
    rest := Step(rest, c, 1, 2, prefix, field, lenient);
    LimitRepeatDecodes(c.At([1]), prefix + "LIMITS", lenient);
    if Each(c.At([1]), prefix + "LIMITS", WithConfig(lenient, DecodeLimit)).Err? { return; }
    Finish(rest, c, 2, 2, prefix, field, lenient);
  }

  /** A repeat of groups of this kind. */
  lemma VariableLimitsRepeatDecodes(c: Cursor, field: string, lenient: bool)
    requires Sane(c)
    ensures DecodeAt(Repeat(Group("VariableLimits", VARIABLE_LIMITS)), c, field, lenient) ==
              Each(c, field, WithConfig(lenient, DecodeVariableLimits)).Map(PackMany(PackVariableLimits))
  {
    forall c: Cursor, field: string | Sane(c)
      ensures DecodeRowAt(VARIABLE_LIMITS, c, field + ".", field, lenient) ==
                DecodeVariableLimits(c, field, lenient).Map(PackVariableLimits)
    {
      VariableLimitsDecodes(c, field, lenient);
    }
    GroupsImplement("VariableLimits", VARIABLE_LIMITS, DecodeVariableLimits, lenient, PackVariableLimits);
    assert EachOf(WithConfig(lenient, DecodeVariableLimits))(c, field) ==
             Each(c, field, WithConfig(lenient, DecodeVariableLimits));
  }

  lemma VariableLimitsIsInjective()
    ensures Injective(PackVariableLimits)
  {
    LimitIsInjective();
    ManyIsInjective(PackLimit);
  }

  lemma VariableLimitsBuildsAt(g: VariableLimits)
    ensures RowTyped(VARIABLE_LIMITS, PackVariableLimits(g))
    ensures BuildRow(VARIABLE_LIMITS, PackVariableLimits(g), "VariableLimits" + ".") == VariableLimitsItem(g)
  {
    hide Spelled, Typed, RowTyped, SlotsTyped, Build, BuildRow, BuildSlots;
    hide L, A, B, BOOLEAN, U, Present;
    var owner, v := "VariableLimits" + ".", PackVariableLimits(g);
    var items := [
      Present(g.vid, owner + "VID"),
      L(MapItems(g.limits, LimitItem))
    ];
    LimitRepeatBuilds(g.limits, owner + "LIMITS");
    SpellEnd(owner, items);
    SpellField(VARIABLE_LIMITS.slots.rest, v.fields.rest, 1, owner, items, 1);
    SpellLeaf(VARIABLE_LIMITS.slots, v.fields, 2, owner, items, 0);
    SpellRow(VARIABLE_LIMITS, v, owner, items);
  }

  lemma VariableLimitsRepeatBuilds(gs: seq<VariableLimits>, place: string)
    ensures Typed(Repeat(Group("VariableLimits", VARIABLE_LIMITS)), PackMany(PackVariableLimits)(gs))
    ensures Build(Repeat(Group("VariableLimits", VARIABLE_LIMITS)), PackMany(PackVariableLimits)(gs), place) ==
              L(MapItems(gs, VariableLimitsItem))
  {
    forall g: VariableLimits, place: string
      ensures BuildsAt(VariableLimitsItem, Group("VariableLimits", VARIABLE_LIMITS), PackVariableLimits, g, place)
    {
      VariableLimitsBuildsAt(g);
    }
    EachBuilds(Group("VariableLimits", VARIABLE_LIMITS), VariableLimitsItem, PackVariableLimits, gs, place);
  }

  lemma VariableLimitsItemsOnTheWire(g: VariableLimits, owner: string, items: seq<Item>)
    requires items == [
               Present(g.vid, owner + "VID"),
               L(MapItems(g.limits, LimitItem))
             ]
    requires forall i :: 0 <= i < |items| ==> Usable(items[i])
    ensures items == [
              g.vid,
              List(MapItems(g.limits, LimitItem))
            ]
  {
    hide Errors, ChildErrors, Usable, WithoutNil, Present;
    assert Usable(items[0]);
    PresentUsable(g.vid, owner + "VID");
    assert Usable(items[1]);
    RepeatOnTheWire(g.limits, LimitItem);
  }

  /** Each field of a group that is sent stands at its own position of the list. */
  lemma VariableLimitsOnTheWire(g: VariableLimits)
    requires Errors(VariableLimitsItem(g)) == []
    ensures VariableLimitsItem(g) ==
              List([
                g.vid,
                List(MapItems(g.limits, LimitItem))
              ])
  {
    hide Errors, ChildErrors, Usable, WithoutNil, Present;
    var items := [
      Present(g.vid, "VariableLimits" + "." + "VID"),
      L(MapItems(g.limits, LimitItem))
    ];
    ListOnTheWire(items);
    VariableLimitsItemsOnTheWire(g, "VariableLimits" + ".", items);
  }

  /** A group that can be sent is read back from its item. */
  lemma VariableLimitsComesBack(g: VariableLimits, field: string)
    requires RowFits(VARIABLE_LIMITS, PackVariableLimits(g))
    ensures Usable(VariableLimitsItem(g)) && DecodeVariableLimits(Cursor(VariableLimitsItem(g)), field, false) == Ok(g)
  {
    hide RowFits, DecodeRow, DecodeVariableLimits, BuildRow, VariableLimitsItem, Errors;
    GroupsAreWellFormed();
    VariableLimitsBuildsAt(g);
    RowRoundTrip(VARIABLE_LIMITS, PackVariableLimits(g), "VariableLimits" + ".", field + ".", field);
    VariableLimitsDecodes(Cursor(VariableLimitsItem(g)), field, false);
    VariableLimitsIsInjective();
  }

  // ----- ProcessJob -----

  /** A process job, whose recipe is a list nested in the job. */
  datatype ProcessJob = ProcessJob(
    prjobid: string,
    mf: Item,
    material: Item,
    prrecipemethod: Uint8,
    rcpspec: string,
    recipeparams: seq<RecipeParam>,
    prprocessstart: bool,
    prpauseevent: Item)

  const PROCESS_JOB_RECIPE: Row :=
    Row(3,
        Field("PRRECIPEMETHOD", Leaf(KUint(W1)),
        Field("RCPSPEC", Leaf(KText),
        Field("RECIPEPARAMS", Repeat(Group("RecipeParam", RECIPE_PARAM)),
        End))))

  const PROCESS_JOB: Row :=
    Row(6,
        Field("PRJOBID", Leaf(KText),
        Field("MF", Leaf(KScalar),
        Field("material", Leaf(KAny),
        Nested(PROCESS_JOB_RECIPE,
        Field("PRPROCESSSTART", Leaf(KBool),
        Field("PRPAUSEEVENT", Leaf(KAny),
        End)))))))

  /** The nested list of a job, its recipe. */
  function DecodeProcessJobRecipe(c: Cursor, field: string, lenient: bool): Outcome<(Uint8, string, seq<RecipeParam>)> {
    var _ :- RequireArity(c.At([3]), field + Index(3), 3, lenient);
    var prrecipemethod :- DecodeUint8(c.At([3, 0]), field + "." + "PRRECIPEMETHOD");
    var rcpspec :- DecodeASCII(c.At([3, 1]), field + "." + "RCPSPEC");
    var recipeparams :- Each(c.At([3, 2]), field + "." + "RECIPEPARAMS", WithConfig(lenient, DecodeRecipeParam));
    Ok((prrecipemethod, rcpspec, recipeparams))
  }

  function DecodeProcessJob(c: Cursor, field: string, lenient: bool): Outcome<ProcessJob> {
    var _ :- RequireArity(c, field, 6, lenient);
    var prjobid :- DecodeASCII(c.At([0]), field + "." + "PRJOBID");
    var mf :- DecodeScalarItem(c.At([1]), field + "." + "MF");
    var material :- DecodeItem(c.At([2]), field + "." + "material");
    var (prrecipemethod, rcpspec, recipeparams) :- DecodeProcessJobRecipe(c, field, lenient);
    var prprocessstart :- DecodeBool(c.At([4]), field + "." + "PRPROCESSSTART");
    var prpauseevent :- DecodeItem(c.At([5]), field + "." + "PRPAUSEEVENT");
    Ok(ProcessJob(prjobid, mf, material, prrecipemethod, rcpspec, recipeparams, prprocessstart, prpauseevent))
  }

  function ProcessJobItem(g: ProcessJob): Item {
    L([
      A(g.prjobid),
      Present(g.mf, "ProcessJob" + "." + "MF"),
      Present(g.material, "ProcessJob" + "." + "material"),
      L([
        U(W1, g.prrecipemethod),
        A(g.rcpspec),
        L(MapItems(g.recipeparams, RecipeParamItem))
      ]),
      BOOLEAN([g.prprocessstart]),
      Present(g.prpauseevent, "ProcessJob" + "." + "PRPAUSEEVENT")
    ])
  }

  function PackRecipe(g: ProcessJob): Value {
    RowV(true,
      And(UintV(g.prrecipemethod),
      And(TextV(g.rcpspec),
      And(PackMany(PackRecipeParam)(g.recipeparams),
      Nothing))))
  }

  function PackProcessJob(g: ProcessJob): Value {
    RowV(true,
      And(TextV(g.prjobid),
      And(ItemV(g.mf),
      And(ItemV(g.material),
      And(PackRecipe(g),
      And(BoolV(g.prprocessstart),
      And(ItemV(g.prpauseevent),
      Nothing)))))))
  }

  lemma ProcessJobRecipeDecodes(c: Cursor, field: string, lenient: bool)
    requires Open(c) && 6 <= |c.item.items|
    ensures DecodeRowAt(PROCESS_JOB_RECIPE, c.At([3]), field + ".", field + Index(3), lenient) ==
              DecodeProcessJobRecipe(c, field, lenient).Map((r: (Uint8, string, seq<RecipeParam>)) =>
                RowV(true, And(UintV(r.0), And(TextV(r.1), And(PackMany(PackRecipeParam)(r.2), Nothing)))))
  {
    hide Cursor.At, Cursor.Hop, Errors, ListAt, RequireArity, Each, EachFrom;
    hide Decode, DecodeAt, DecodeRow, DecodeRowAt, DecodeSlots, Rest;
    hide DecodeASCII, DecodeItem, DecodeScalarItem, DecodeBool, DecodeByteAs, DecodeUint;
    var prefix, place, inner := field + ".", field + Index(3), c.At([3]);
    HopReaches(c, 3);
    OpenFixed(PROCESS_JOB_RECIPE, inner, prefix, place, lenient);
    if RequireArity(inner, place, 3, lenient).Err? { return; }
    forall j: nat ensures c.At([3, j]) == inner.At([j]) { HopTwice(c, 3, j); }
    var rest := StepLeaf(PROCESS_JOB_RECIPE.slots, inner, 0, 3, prefix, place, lenient);
    if DecodeUint8(inner.At([0]), prefix + "PRRECIPEMETHOD").Err? { return; }
    rest := StepLeaf(rest, inner, 1, 3, prefix, place, lenient);
    if DecodeASCII(inner.At([1]), prefix + "RCPSPEC").Err? { return; }
    rest := Step(rest, inner, 2, 3, prefix, place, lenient);
    RecipeParamRepeatDecodes(inner.At([2]), prefix + "RECIPEPARAMS", lenient);
    if Each(inner.At([2]), prefix + "RECIPEPARAMS", WithConfig(lenient, DecodeRecipeParam)).Err? { return; }
    Finish(rest, inner, 3, 3, prefix, place, lenient);
  }

  lemma ProcessJobDecodes(c: Cursor, field: string, lenient: bool)
    requires Sane(c)
    ensures DecodeRowAt(PROCESS_JOB, c, field + ".", field, lenient) ==
              DecodeProcessJob(c, field, lenient).Map(PackProcessJob)
  {
    hide Cursor.At, Cursor.Hop, Errors, ListAt, RequireArity, Each, EachFrom;
    hide Decode, DecodeAt, DecodeRow, DecodeRowAt, DecodeSlots, Rest;
    hide DecodeASCII, DecodeItem, DecodeScalarItem, DecodeBool, DecodeByteAs, DecodeUint;
    var prefix := field + ".";
    OpenFixed(PROCESS_JOB, c, prefix, field, lenient);
    if RequireArity(c, field, 6, lenient).Err? { return; }
    var rest := StepLeaf(PROCESS_JOB.slots, c, 0, 6, prefix, field, lenient);
    if DecodeASCII(c.At([0]), prefix + "PRJOBID").Err? { return; }
    rest := StepLeaf(rest, c, 1, 6, prefix, field, lenient);
    if DecodeScalarItem(c.At([1]), prefix + "MF").Err? { return; }
    rest := StepLeaf(rest, c, 2, 6, prefix, field, lenient);
    if DecodeItem(c.At([2]), prefix + "material").Err? { return; }
    rest := Step(rest, c, 3, 6, prefix, field, lenient);
    ProcessJobRecipeDecodes(c, field, lenient);
    if DecodeProcessJobRecipe(c, field, lenient).Err? { return; }
    rest := StepLeaf(rest, c, 4, 6, prefix, field, lenient);
    if DecodeBool(c.At([4]), prefix + "PRPROCESSSTART").Err? { return; }
    rest := StepLeaf(rest, c, 5, 6, prefix, field, lenient);
    if DecodeItem(c.At([5]), prefix + "PRPAUSEEVENT").Err? { return; }
    Finish(rest, c, 6, 6, prefix, field, lenient);
  }

  /** A repeat of groups of this kind. */
  lemma ProcessJobRepeatDecodes(c: Cursor, field: string, lenient: bool)
    requires Sane(c)
    ensures DecodeAt(Repeat(Group("ProcessJob", PROCESS_JOB)), c, field, lenient) ==
              Each(c, field, WithConfig(lenient, DecodeProcessJob)).Map(PackMany(PackProcessJob))
  {
    forall c: Cursor, field: string | Sane(c)
      ensures DecodeRowAt(PROCESS_JOB, c, field + ".", field, lenient) ==
                DecodeProcessJob(c, field, lenient).Map(PackProcessJob)
    {
      ProcessJobDecodes(c, field, lenient);
    }
    GroupsImplement("ProcessJob", PROCESS_JOB, DecodeProcessJob, lenient, PackProcessJob);
    assert EachOf(WithConfig(lenient, DecodeProcessJob))(c, field) ==
             Each(c, field, WithConfig(lenient, DecodeProcessJob));
  }

  lemma ProcessJobIsInjective()
    ensures Injective(PackProcessJob)
  {
    RecipeParamIsInjective();
    ManyIsInjective(PackRecipeParam);
  }

  lemma ProcessJobRecipeBuilds(g: ProcessJob)
    ensures RowTyped(PROCESS_JOB_RECIPE, PackRecipe(g))
    ensures BuildRow(PROCESS_JOB_RECIPE, PackRecipe(g), "ProcessJob" + ".") ==
              L([
                U(W1, g.prrecipemethod),
                A(g.rcpspec),
                L(MapItems(g.recipeparams, RecipeParamItem))
              ])
  {
    hide Spelled, Typed, RowTyped, SlotsTyped, Build, BuildRow, BuildSlots;
    hide L, A, B, BOOLEAN, U, Present;
    var owner, v := "ProcessJob" + ".", PackRecipe(g);
    var items := [
      U(W1, g.prrecipemethod),
      A(g.rcpspec),
      L(MapItems(g.recipeparams, RecipeParamItem))
    ];
    RecipeParamRepeatBuilds(g.recipeparams, owner + "RECIPEPARAMS");
    SpellEnd(owner, items);
    SpellField(PROCESS_JOB_RECIPE.slots.rest.rest, v.fields.rest.rest, 1, owner, items, 2);
    SpellLeaf(PROCESS_JOB_RECIPE.slots.rest, v.fields.rest, 2, owner, items, 1);
    SpellLeaf(PROCESS_JOB_RECIPE.slots, v.fields, 3, owner, items, 0);
    SpellRow(PROCESS_JOB_RECIPE, v, owner, items);
  }

  lemma ProcessJobBuildsAt(g: ProcessJob)
    ensures RowTyped(PROCESS_JOB, PackProcessJob(g))
    ensures BuildRow(PROCESS_JOB, PackProcessJob(g), "ProcessJob" + ".") == ProcessJobItem(g)
  {
    hide Spelled, Typed, RowTyped, SlotsTyped, Build, BuildRow, BuildSlots;
    hide L, A, B, BOOLEAN, U, Present;
    var owner, v := "ProcessJob" + ".", PackProcessJob(g);
    ProcessJobRecipeBuilds(g);
    var items := [
      A(g.prjobid),
      Present(g.mf, owner + "MF"),
      Present(g.material, owner + "material"),
      L([
        U(W1, g.prrecipemethod),
        A(g.rcpspec),
        L(MapItems(g.recipeparams, RecipeParamItem))
      ]),
      BOOLEAN([g.prprocessstart]),
      Present(g.prpauseevent, owner + "PRPAUSEEVENT")
    ];
    var s0, v0 := PROCESS_JOB.slots, v.fields;
    var s1, v1 := s0.rest, v0.rest;
    var s2, v2 := s1.rest, v1.rest;
    var s3, v3 := s2.rest, v2.rest;
    var s4, v4 := s3.rest, v3.rest;
    var s5, v5 := s4.rest, v4.rest;
    SpellEnd(owner, items);
    SpellLeaf(s5, v5, 1, owner, items, 5);
    SpellLeaf(s4, v4, 2, owner, items, 4);
    SpellNested(s3, v3, 3, owner, items, 3);
    SpellLeaf(s2, v2, 4, owner, items, 2);
    SpellLeaf(s1, v1, 5, owner, items, 1);
    SpellLeaf(s0, v0, 6, owner, items, 0);
    SpellRow(PROCESS_JOB, v, owner, items);
  }

  lemma ProcessJobRepeatBuilds(gs: seq<ProcessJob>, place: string)
    ensures Typed(Repeat(Group("ProcessJob", PROCESS_JOB)), PackMany(PackProcessJob)(gs))
    ensures Build(Repeat(Group("ProcessJob", PROCESS_JOB)), PackMany(PackProcessJob)(gs), place) ==
              L(MapItems(gs, ProcessJobItem))
  {
    forall g: ProcessJob, place: string
      ensures BuildsAt(ProcessJobItem, Group("ProcessJob", PROCESS_JOB), PackProcessJob, g, place)
    {
      ProcessJobBuildsAt(g);
    }
    EachBuilds(Group("ProcessJob", PROCESS_JOB), ProcessJobItem, PackProcessJob, gs, place);
  }

  lemma ProcessJobItemsOnTheWire(g: ProcessJob, owner: string, items: seq<Item>)
    requires items == [
               A(g.prjobid),
               Present(g.mf, owner + "MF"),
               Present(g.material, owner + "material"),
               L([
                 U(W1, g.prrecipemethod),
                 A(g.rcpspec),
                 L(MapItems(g.recipeparams, RecipeParamItem))
               ]),
               BOOLEAN([g.prprocessstart]),
               Present(g.prpauseevent, owner + "PRPAUSEEVENT")
             ]
    requires forall i :: 0 <= i < |items| ==> Usable(items[i])
    ensures items == [
              Text(g.prjobid),
              g.mf,
              g.material,
              List([
                Uints(W1, [g.prrecipemethod]),
                Text(g.rcpspec),
                List(MapItems(g.recipeparams, RecipeParamItem))
              ]),
              Boolean([g.prprocessstart]),
              g.prpauseevent
            ]
  {
    hide Errors, ChildErrors, Usable, WithoutNil, Present;
    var inner := [
      U(W1, g.prrecipemethod),
      A(g.rcpspec),
      L(MapItems(g.recipeparams, RecipeParamItem))
    ];
    assert Usable(items[0]);
    TextOnTheWire(g.prjobid);
    assert Usable(items[1]);
    PresentUsable(g.mf, owner + "MF");
    assert Usable(items[2]);
    PresentUsable(g.material, owner + "material");
    assert Usable(items[3]);
    NestedOnTheWire(inner);
    assert Usable(inner[1]);
    TextOnTheWire(g.rcpspec);
    assert Usable(inner[2]);
    RepeatOnTheWire(g.recipeparams, RecipeParamItem);
    assert Usable(items[5]);
    PresentUsable(g.prpauseevent, owner + "PRPAUSEEVENT");
  }

  /** Each field of a group that is sent stands at its own position of the list. */
  lemma ProcessJobOnTheWire(g: ProcessJob)
    requires Errors(ProcessJobItem(g)) == []
    ensures ProcessJobItem(g) ==
              List([
                Text(g.prjobid),
                g.mf,
                g.material,
                List([
                  Uints(W1, [g.prrecipemethod]),
                  Text(g.rcpspec),
                  List(MapItems(g.recipeparams, RecipeParamItem))
                ]),
                Boolean([g.prprocessstart]),
                g.prpauseevent
              ])
  {
    hide Errors, ChildErrors, Usable, WithoutNil, Present;
    var items := [
      A(g.prjobid),
      Present(g.mf, "ProcessJob" + "." + "MF"),
      Present(g.material, "ProcessJob" + "." + "material"),
      L([
        U(W1, g.prrecipemethod),
        A(g.rcpspec),
        L(MapItems(g.recipeparams, RecipeParamItem))
      ]),
      BOOLEAN([g.prprocessstart]),
      Present(g.prpauseevent, "ProcessJob" + "." + "PRPAUSEEVENT")
    ];
    ListOnTheWire(items);
    ProcessJobItemsOnTheWire(g, "ProcessJob" + ".", items);
  }

  /** A group that can be sent is read back from its item. */
  lemma ProcessJobComesBack(g: ProcessJob, field: string)
    requires RowFits(PROCESS_JOB, PackProcessJob(g))
    ensures Usable(ProcessJobItem(g)) && DecodeProcessJob(Cursor(ProcessJobItem(g)), field, false) == Ok(g)
  {
    hide RowFits, DecodeRow, DecodeProcessJob, BuildRow, ProcessJobItem, Errors;
    GroupsAreWellFormed();
    ProcessJobBuildsAt(g);
    RowRoundTrip(PROCESS_JOB, PackProcessJob(g), "ProcessJob" + ".", field + ".", field);
    ProcessJobDecodes(Cursor(ProcessJobItem(g)), field, false);
    ProcessJobIsInjective();
  }

  lemma ErrorInfoFields()
    ensures Tagged(ERROR_INFO.slots, 7_069_082_069)
    ensures Tagged(ERROR_INFO.slots.rest, 7_069_082_084)
    ensures ERROR_INFO.slots.rest.rest == End
  {
  }

  /** The names of one struct are distinct. */
  lemma ErrorInfoNamesDiffer()
    ensures SlotNamesDistinct(ERROR_INFO.slots)
  {
    hide SlotNamesDistinct, GoodName, FieldTags, Tagged, ERROR_INFO;
    ErrorInfoFields();
    var tags := NoNames();
    tags := NamesStep(ERROR_INFO.slots.rest, 7_069_082_084, tags);
    tags := NamesStep(ERROR_INFO.slots, 7_069_082_069, tags);
  }

  lemma AttributeFields()
    ensures Tagged(ATTRIBUTE.slots, 6_065_084_068)
    ensures Tagged(ATTRIBUTE.slots.rest, 8_065_084_065)
    ensures ATTRIBUTE.slots.rest.rest == End
  {
  }

  /** The names of one struct are distinct. */
  lemma AttributeNamesDiffer()
    ensures SlotNamesDistinct(ATTRIBUTE.slots)
  {
    hide SlotNamesDistinct, GoodName, FieldTags, Tagged, ATTRIBUTE;
    AttributeFields();
    var tags := NoNames();
    tags := NamesStep(ATTRIBUTE.slots.rest, 8_065_084_065, tags);
    tags := NamesStep(ATTRIBUTE.slots, 6_065_084_068, tags);
  }

  lemma RecipeParamFields()
    ensures Tagged(RECIPE_PARAM.slots, 8_082_080_077)
    ensures Tagged(RECIPE_PARAM.slots.rest, 9_082_080_076)
    ensures RECIPE_PARAM.slots.rest.rest == End
  {
  }

  /** The names of one struct are distinct. */
  lemma RecipeParamNamesDiffer()
    ensures SlotNamesDistinct(RECIPE_PARAM.slots)
  {
    hide SlotNamesDistinct, GoodName, FieldTags, Tagged, RECIPE_PARAM;
    RecipeParamFields();
    var tags := NoNames();
    tags := NamesStep(RECIPE_PARAM.slots.rest, 9_082_080_076, tags);
    tags := NamesStep(RECIPE_PARAM.slots, 8_082_080_077, tags);
  }

  lemma RecipeDescriptorFieldsFrom0()
    ensures Tagged(RECIPE_DESCRIPTOR.slots, 9_082_080_077)
    ensures Tagged(RECIPE_DESCRIPTOR.slots.rest, 11_082_080_069)
  {
  }

  lemma RecipeDescriptorFieldsFrom2()
    ensures Tagged(RECIPE_DESCRIPTOR.slots.rest.rest, 10_082_080_072)
    ensures RECIPE_DESCRIPTOR.slots.rest.rest.rest == End
  {
  }

  /** The names of one struct are distinct. */
  lemma RecipeDescriptorNamesDiffer()
    ensures SlotNamesDistinct(RECIPE_DESCRIPTOR.slots)
  {
    hide SlotNamesDistinct, GoodName, FieldTags, Tagged, RECIPE_DESCRIPTOR;
    RecipeDescriptorFieldsFrom0();
    RecipeDescriptorFieldsFrom2();
    var tags := NoNames();
    tags := NamesStep(RECIPE_DESCRIPTOR.slots.rest.rest, 10_082_080_072, tags);
    tags := NamesStep(RECIPE_DESCRIPTOR.slots.rest, 11_082_080_069, tags);
    tags := NamesStep(RECIPE_DESCRIPTOR.slots, 9_082_080_077, tags);
  }

  lemma DeadbandFields()
    ensures Tagged(DEADBAND.slots, 7_085_080_066)
    ensures Tagged(DEADBAND.slots.rest, 7_076_087_066)
    ensures DEADBAND.slots.rest.rest == End
  {
  }

  /** The names of one struct are distinct. */
  lemma DeadbandNamesDiffer()
    ensures SlotNamesDistinct(DEADBAND.slots)
  {
    hide SlotNamesDistinct, GoodName, FieldTags, Tagged, DEADBAND;
    DeadbandFields();
    var tags := NoNames();
    tags := NamesStep(DEADBAND.slots.rest, 7_076_087_066, tags);
    tags := NamesStep(DEADBAND.slots, 7_085_080_066, tags);
  }

  lemma LimitFields()
    ensures Tagged(LIMIT.slots, 7_076_077_068)
    ensures Tagged(LIMIT.slots.rest, 8_068_065_068)
    ensures LIMIT.slots.rest.rest == End
  {
    assert NamesDistinct(OptionalGroup("Deadband", DEADBAND)) by { DeadbandNamesDiffer(); }
  }

  /** The names of one struct are distinct. */
  lemma LimitNamesDiffer()
    ensures SlotNamesDistinct(LIMIT.slots)
  {
    hide SlotNamesDistinct, GoodName, FieldTags, Tagged, LIMIT;
    LimitFields();
    var tags := NoNames();
    tags := NamesStep(LIMIT.slots.rest, 8_068_065_068, tags);
    tags := NamesStep(LIMIT.slots, 7_076_077_068, tags);
  }

  lemma VariableLimitsFields()
    ensures Tagged(VARIABLE_LIMITS.slots, 3_086_068_068)
    ensures Tagged(VARIABLE_LIMITS.slots.rest, 6_076_077_083)
    ensures VARIABLE_LIMITS.slots.rest.rest == End
  {
    assert NamesDistinct(Repeat(Group("Limit", LIMIT))) by { LimitNamesDiffer(); }
  }

  /** The names of one struct are distinct. */
  lemma VariableLimitsNamesDiffer()
    ensures SlotNamesDistinct(VARIABLE_LIMITS.slots)
  {
    hide SlotNamesDistinct, GoodName, FieldTags, Tagged, VARIABLE_LIMITS;
    VariableLimitsFields();
    var tags := NoNames();
    tags := NamesStep(VARIABLE_LIMITS.slots.rest, 6_076_077_083, tags);
    tags := NamesStep(VARIABLE_LIMITS.slots, 3_086_068_068, tags);
  }

  lemma ProcessJobInnerFieldsFrom0()
    ensures Tagged(PROCESS_JOB_RECIPE.slots, 14_080_082_068)
    ensures Tagged(PROCESS_JOB_RECIPE.slots.rest, 7_082_080_067)
  {
  }

  lemma ProcessJobInnerFieldsFrom2()
    ensures Tagged(PROCESS_JOB_RECIPE.slots.rest.rest, 12_082_067_083)
    ensures PROCESS_JOB_RECIPE.slots.rest.rest.rest == End
  {
    assert NamesDistinct(Repeat(Group("RecipeParam", RECIPE_PARAM))) by { RecipeParamNamesDiffer(); }
  }

  lemma ProcessJobFieldsFrom0()
    ensures Tagged(PROCESS_JOB.slots, 7_080_074_068)
    ensures Tagged(PROCESS_JOB.slots.rest, 2)
    ensures Tagged(PROCESS_JOB.slots.rest.rest, 8_109_116_108)
  {
  }

  lemma ProcessJobFieldsFrom3()
    ensures PROCESS_JOB.slots.rest.rest.rest.Nested? && PROCESS_JOB.slots.rest.rest.rest.row == PROCESS_JOB_RECIPE
    ensures Tagged(PROCESS_JOB.slots.rest.rest.rest.rest, 14_080_080_084)
  {
  }

  lemma ProcessJobFieldsFrom5()
    ensures Tagged(PROCESS_JOB.slots.rest.rest.rest.rest.rest, 12_080_080_084)
    ensures PROCESS_JOB.slots.rest.rest.rest.rest.rest.rest == End
  {
  }

  /** The names of one struct are distinct. */
  lemma ProcessJobNamesDiffer()
    ensures SlotNamesDistinct(PROCESS_JOB.slots)
  {
    hide SlotNamesDistinct, GoodName, FieldTags, Tagged, PROCESS_JOB_RECIPE, PROCESS_JOB;
    ProcessJobInnerFieldsFrom0();
    ProcessJobInnerFieldsFrom2();
    ProcessJobFieldsFrom0();
    ProcessJobFieldsFrom3();
    ProcessJobFieldsFrom5();
    var inner := NoNames();
    inner := NamesStep(PROCESS_JOB_RECIPE.slots.rest.rest, 12_082_067_083, inner);
    inner := NamesStep(PROCESS_JOB_RECIPE.slots.rest, 7_082_080_067, inner);
    inner := NamesStep(PROCESS_JOB_RECIPE.slots, 14_080_082_068, inner);
    var tags := NoNames();
    tags := NamesStep(PROCESS_JOB.slots.rest.rest.rest.rest.rest, 12_080_080_084, tags);
    tags := NamesStep(PROCESS_JOB.slots.rest.rest.rest.rest, 14_080_080_084, tags);
    tags := NamesNested(PROCESS_JOB.slots.rest.rest.rest, inner, tags);
    tags := NamesStep(PROCESS_JOB.slots.rest.rest, 8_109_116_108, tags);
    tags := NamesStep(PROCESS_JOB.slots.rest, 2, tags);
    tags := NamesStep(PROCESS_JOB.slots, 7_080_074_068, tags);
  }

  lemma GroupsAreWellFormed()
    ensures WellFormedRow(ERROR_INFO)
    ensures WellFormedRow(ATTRIBUTE)
    ensures WellFormedRow(RECIPE_PARAM)
    ensures WellFormedRow(RECIPE_DESCRIPTOR)
    ensures WellFormedRow(DEADBAND)
    ensures WellFormedRow(LIMIT)
    ensures WellFormedRow(VARIABLE_LIMITS)
    ensures WellFormedRow(PROCESS_JOB)
  {
    assert WellFormedRow(PROCESS_JOB_RECIPE);
    assert WellFormedRow(ERROR_INFO);
    assert WellFormedRow(ATTRIBUTE);
    assert WellFormedRow(RECIPE_PARAM);
    assert WellFormedRow(RECIPE_DESCRIPTOR);
    assert WellFormedRow(DEADBAND);
    assert WellFormedRow(LIMIT);
    assert WellFormedRow(VARIABLE_LIMITS);
    var s0 := PROCESS_JOB.slots;
    var s1 := s0.rest;
    var s2 := s1.rest;
    var s3 := s2.rest;
    var s4 := s3.rest;
    var s5 := s4.rest;
    assert Len(s5) == 1 && WellFormedSlots(s5);
    assert Len(s4) == 2 && WellFormedSlots(s4);
    assert Len(s3) == 3 && WellFormedSlots(s3);
    assert Len(s2) == 4 && WellFormedSlots(s2);
    assert Len(s1) == 5 && WellFormedSlots(s1);
    assert Len(s0) == 6 && WellFormedSlots(s0);
  }
}
