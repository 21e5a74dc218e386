/**
 S2F45 (Define Variable Limit Attributes): a repeat of variables, each with a repeat of limits,
 each with a deadband that may be left out.
 */
module Stream2 {
  import opened Secs2
  import opened Decimal
  import opened Decoding
  import opened Shapes
  import opened Building
  import opened Places
  import opened Options
  import opened RoundTrip
  import opened Refinement
  import opened Groups

  // ----- S2F45 -----

  datatype S2F45Body = S2F45Body(
    dataid: Item,
    variables: seq<VariableLimits>)

  const S2F45_BODY: Row :=
    Row(2,
        Field("DATAID", Leaf(KScalar),
        Field("VARIABLES", Repeat(Group("VariableLimits", VARIABLE_LIMITS)),
        End)))

  /** The body S2F45 sends. */
  function S2F45(
    dataid: Item,
    variables: seq<VariableLimits>): Item
  {
    L([
      Present(dataid, "S2F45" + " " + "DATAID"),
      L(MapItems(variables, VariableLimitsItem))
    ])
  }

  /** The struct laid out as the value of its shape. */
  function PackS2F45(m: S2F45Body): Value {
    RowV(true,
      And(ItemV(m.dataid),
      And(PackMany(PackVariableLimits)(m.variables),
      Nothing)))
  }

  /** The fields in declaration order, returning at the first error with what was filled in so far. */
  method DecodeS2F45(shared: DecodeConfig, item: Item, opts: seq<DecodeOption>)
    returns (out: S2F45Body, err: Option<Error>)
    requires !shared.allowTrailing
    ensures Reports(err, PackS2F45(out), DecodeBody("S2F45", S2F45_BODY, item, Lenient(opts)))
  {
    hide Cursor.At, Cursor.Hop, Errors, ListAt, RequireArity, OptionalArity, Each, EachFrom, PresentAt, DecodeOptional;
    hide Decode, DecodeAt, DecodeBody, DecodeRow, DecodeRowAt, DecodeSlots, Rest, Zeros, PackMany, PackOption;
    hide Sane, Open, Index, NewCursor;
    hide DecodeASCII, DecodeItem, DecodeScalarItem, DecodeBool, DecodeByteAs, DecodeUint;
    out := S2F45Body(Nil(false), []);
    var root := NewCursor(item);
    var cfg := NewDecodeConfig(shared, opts);
    var lenient := cfg.allowTrailing;
    var place := "S2F45" + " body";
    BodyAt("S2F45", S2F45_BODY, item, lenient);
    OpenFixed(S2F45_BODY, root, "", place, lenient);
    var arity := RequireArity(root, place, 2, lenient);
    if arity.Err? { return out, Some(arity.error); }
    ghost var rest := StepLeaf(S2F45_BODY.slots, root, 0, 2, "", place, lenient);
    rest := Step(rest, root, 1, 2, "", place, lenient);
    Finish(rest, root, 2, 2, "", place, lenient);
    var dataid := DecodeScalarItem(root.At([0]), "DATAID");
    if dataid.Err? { return out, Some(dataid.error); }
    out := out.(dataid := dataid.value);
    VariableLimitsRepeatDecodes(root.At([1]), "VARIABLES", lenient);
    var variables := DecodeEach(root.At([1]), "VARIABLES", WithConfig(lenient, DecodeVariableLimits));
    if variables.Err? { return out, Some(variables.error); }
    out := out.(variables := variables.value);
    return out, None;
  }

  /** The builder sends what the shape builds from the same values. */
  lemma S2F45Builds(m: S2F45Body)
    ensures RowTyped(S2F45_BODY, PackS2F45(m))
    ensures BuildBody("S2F45", S2F45_BODY, PackS2F45(m)) ==
              S2F45(m.dataid, m.variables)
  {
    hide Spelled, Typed, RowTyped, SlotsTyped, Build, BuildRow, BuildSlots;
    hide L, A, B, BOOLEAN, U, Present, PresentEach, OptionalItem, PackOption, PackMany, MapItems, RowItems;
    var owner, v := "S2F45" + " ", PackS2F45(m);
    var items := [
      Present(m.dataid, owner + "DATAID"),
      L(MapItems(m.variables, VariableLimitsItem))
    ];
    VariableLimitsRepeatBuilds(m.variables, owner + "VARIABLES");
    SpellEnd(owner, items);
    SpellField(S2F45_BODY.slots.rest, v.fields.rest, 1, owner, items, 1);
    SpellLeaf(S2F45_BODY.slots, v.fields, 2, owner, items, 0);
    SpellRow(S2F45_BODY, v, owner, items);
  }

  lemma S2F45IsWellFormed()
    ensures Len(S2F45_BODY.slots) == 2 && S2F45_BODY.short == 2 && WellFormedRow(S2F45_BODY)
  {
    GroupsAreWellFormed();
    assert Len(S2F45_BODY.slots.rest) == 1 && WellFormedSlots(S2F45_BODY.slots.rest);
    assert Len(S2F45_BODY.slots) == 2 && WellFormedSlots(S2F45_BODY.slots);
  }

  lemma S2F45LayoutIsInjective(a: S2F45Body, b: S2F45Body)
    requires PackS2F45(a) == PackS2F45(b)
    ensures a == b
  {
    hide PackMany, PackOption;
    VariableLimitsIsInjective();
    ManyIsInjective(PackVariableLimits);
  }

  /** Of all arguments, exactly those that can be sent come back, and come back unchanged. */
  method S2F45RoundTrip(shared: DecodeConfig, m: S2F45Body) returns (out: S2F45Body, err: Option<Error>)
    requires !shared.allowTrailing
    ensures err.None? <==> RowFits(S2F45_BODY, PackS2F45(m))
    ensures err.None? ==> out == m
  {
    hide DecodeBody, BuildBody, RowTyped, RowFits, PackMany, PackOption;
    S2F45IsWellFormed();
    S2F45Builds(m);
    BodyRoundTripExactly("S2F45", S2F45_BODY, PackS2F45(m));
    var body := S2F45(m.dataid, m.variables);
    out, err := DecodeS2F45(shared, body, []);
    if err.None? { S2F45LayoutIsInjective(out, m); }
  }

  lemma S2F45ItemsOnTheWire(m: S2F45Body, owner: string, items: seq<Item>)
    requires items == [
               Present(m.dataid, owner + "DATAID"),
               L(MapItems(m.variables, VariableLimitsItem))
             ]
    requires forall i :: 0 <= i < |items| ==> Usable(items[i])
    ensures items == [
              m.dataid,
              List(MapItems(m.variables, VariableLimitsItem))
            ]
  {
    hide Errors, ChildErrors, Usable, WithoutNil, Present;
    assert Usable(items[0]);
    PresentUsable(m.dataid, owner + "DATAID");
    assert Usable(items[1]);
    RepeatOnTheWire(m.variables, VariableLimitsItem);
  }

  /** Each argument of a body that is sent stands at its own position. */
  lemma S2F45OnTheWire(m: S2F45Body)
    requires Errors(S2F45(m.dataid, m.variables)) == []
    ensures S2F45(m.dataid, m.variables) ==
              List([
                m.dataid,
                List(MapItems(m.variables, VariableLimitsItem))
              ])
  {
    hide Errors, ChildErrors, Usable, WithoutNil, Present;
    var items := [
      Present(m.dataid, "S2F45" + " " + "DATAID"),
      L(MapItems(m.variables, VariableLimitsItem))
    ];
    ListOnTheWire(items);
    S2F45ItemsOnTheWire(m, "S2F45" + " ", items);
  }

  lemma S2F45Fields()
    ensures GoodName("S2F45")
    ensures Tagged(S2F45_BODY.slots, 6_068_084_068)
    ensures Tagged(S2F45_BODY.slots.rest, 9_086_082_083)
    ensures S2F45_BODY.slots.rest.rest == End
  {
    assert NamesDistinct(Repeat(Group("VariableLimits", VARIABLE_LIMITS))) by { VariableLimitsNamesDiffer(); }
  }

  /** The names of one struct are distinct. */
  lemma S2F45NamesDiffer()
    ensures GoodName("S2F45") && SlotNamesDistinct(S2F45_BODY.slots)
  {
    hide SlotNamesDistinct, GoodName, FieldTags, Tagged, S2F45_BODY;
    S2F45Fields();
    var tags := NoNames();
    tags := NamesStep(S2F45_BODY.slots.rest, 9_086_082_083, tags);
    tags := NamesStep(S2F45_BODY.slots, 6_068_084_068, tags);
  }

  /** The error names the first failing position of the body, its indices included, and no other position. */
  lemma S2F45ErrorNamesTheFirstFailure(item: Item, lenient: bool, p: Path)
    requires DecodeBody("S2F45", S2F45_BODY, item, lenient).Err?
    requires PlaceInRow(S2F45_BODY, "", "S2F45" + " body", p) ==
               Some(DecodeBody("S2F45", S2F45_BODY, item, lenient).error.place)
    ensures FirstFailingInRow(S2F45_BODY, item, lenient, p)
  {
    hide DecodeBody, PlaceInRow, SlotNamesDistinct, WellFormedRow, FirstFailingInRow, GoodName;
    S2F45IsWellFormed();
    S2F45NamesDiffer();
    ErrorNamesTheFirstFailure("S2F45", S2F45_BODY, item, lenient, p);
  }

  /** Decoding a body and building it again normalises it, and with AllowTrailing prunes it. */
  method S2F45Rebuild(shared: DecodeConfig, item: Item, opts: seq<DecodeOption>)
    returns (rebuilt: Item, err: Option<Error>)
    requires !shared.allowTrailing && Clean(item)
    ensures err.None? <==> RowConforms(S2F45_BODY, Kept(S2F45_BODY, item, Lenient(opts)))
    ensures err.None? ==> rebuilt == NormaliseRow(S2F45_BODY, Kept(S2F45_BODY, item, Lenient(opts)))
  {
    hide DecodeBody, BuildBody, RowTyped, RowFits, RowConforms, NormaliseRow, Kept;
    S2F45IsWellFormed();
    BodyRebuildExactly("S2F45", S2F45_BODY, item, Lenient(opts));
    rebuilt := item;
    var out;
    out, err := DecodeS2F45(shared, item, opts);
    if err.None? {
      S2F45Builds(out);
      rebuilt := S2F45(out.dataid, out.variables);
    }
  }

  /**
   A list in a scalar position is sent without an error, and then refused by the body's own decoder:
   any list as DATAID, the empty one included.
   */
  lemma S2F45ListIsSentAndRefused(items: seq<Item>, lenient: bool)
    requires Usable(List(items))
    ensures Errors(S2F45(List(items), [])) == []
    ensures DecodeBody("S2F45", S2F45_BODY, S2F45(List(items), []), lenient) == Refuse("DATAID", ListExcluded)
  {
    var body := S2F45(List(items), []);
    assert MapItems([], VariableLimitsItem) == [];
    assert body == List([List(items), List([])]) by { UsableList([List(items), List([])]); UsableList([]); }
    ListErrorFree(body.items);
  }
}
