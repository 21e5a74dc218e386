/**
 S16F15 (PRJobMultiCreate): a repeat of process jobs, each with a recipe nested in it.
 */
module Stream16 {
  import opened Secs2
  import opened Decimal
  import opened Decoding
  import opened Shapes
  import opened Building
  import opened Places
  import opened Options
  import opened RoundTrip
  import opened Refinement
  import opened Groups

  // ----- S16F15 -----

  datatype S16F15Body = S16F15Body(
    dataid: Item,
    jobs: seq<ProcessJob>)

  const S16F15_BODY: Row :=
    Row(2,
        Field("DATAID", Leaf(KScalar),
        Field("JOBS", Repeat(Group("ProcessJob", PROCESS_JOB)),
        End)))

  /** The body S16F15 sends. */
  function S16F15(
    dataid: Item,
    jobs: seq<ProcessJob>): Item
  {
    L([
      Present(dataid, "S16F15" + " " + "DATAID"),
      L(MapItems(jobs, ProcessJobItem))
    ])
  }

  /** The struct laid out as the value of its shape. */
  function PackS16F15(m: S16F15Body): Value {
    RowV(true,
      And(ItemV(m.dataid),
      And(PackMany(PackProcessJob)(m.jobs),
      Nothing)))
  }

  /** The fields in declaration order, returning at the first error with what was filled in so far. */
  method DecodeS16F15(shared: DecodeConfig, item: Item, opts: seq<DecodeOption>)
    returns (out: S16F15Body, err: Option<Error>)
    requires !shared.allowTrailing
    ensures Reports(err, PackS16F15(out), DecodeBody("S16F15", S16F15_BODY, item, Lenient(opts)))
  {
    hide Cursor.At, Cursor.Hop, Errors, ListAt, RequireArity, OptionalArity, Each, EachFrom, PresentAt, DecodeOptional;
    hide Decode, DecodeAt, DecodeBody, DecodeRow, DecodeRowAt, DecodeSlots, Rest, Zeros, PackMany, PackOption;
    hide Sane, Open, Index, NewCursor;
    hide DecodeASCII, DecodeItem, DecodeScalarItem, DecodeBool, DecodeByteAs, DecodeUint;
    out := S16F15Body(Nil(false), []);
    var root := NewCursor(item);
    var cfg := NewDecodeConfig(shared, opts);
    var lenient := cfg.allowTrailing;
    var place := "S16F15" + " body";
    BodyAt("S16F15", S16F15_BODY, item, lenient);
    OpenFixed(S16F15_BODY, root, "", place, lenient);
    var arity := RequireArity(root, place, 2, lenient);
    if arity.Err? { return out, Some(arity.error); }
    ghost var rest := StepLeaf(S16F15_BODY.slots, root, 0, 2, "", place, lenient);
    rest := Step(rest, root, 1, 2, "", place, lenient);
    Finish(rest, root, 2, 2, "", place, lenient);
    var dataid := DecodeScalarItem(root.At([0]), "DATAID");
    if dataid.Err? { return out, Some(dataid.error); }
    out := out.(dataid := dataid.value);
    ProcessJobRepeatDecodes(root.At([1]), "JOBS", lenient);
    var jobs := DecodeEach(root.At([1]), "JOBS", WithConfig(lenient, DecodeProcessJob));
    if jobs.Err? { return out, Some(jobs.error); }
    out := out.(jobs := jobs.value);
    return out, None;
  }

  /** The builder sends what the shape builds from the same values. */
  lemma S16F15Builds(m: S16F15Body)
    ensures RowTyped(S16F15_BODY, PackS16F15(m))
    ensures BuildBody("S16F15", S16F15_BODY, PackS16F15(m)) ==
              S16F15(m.dataid, m.jobs)
  {
    hide Spelled, Typed, RowTyped, SlotsTyped, Build, BuildRow, BuildSlots;
    hide L, A, B, BOOLEAN, U, Present, PresentEach, OptionalItem, PackOption, PackMany, MapItems, RowItems;
    var owner, v := "S16F15" + " ", PackS16F15(m);
    var items := [
      Present(m.dataid, owner + "DATAID"),
      L(MapItems(m.jobs, ProcessJobItem))
    ];
    ProcessJobRepeatBuilds(m.jobs, owner + "JOBS");
    SpellEnd(owner, items);
    SpellField(S16F15_BODY.slots.rest, v.fields.rest, 1, owner, items, 1);
    SpellLeaf(S16F15_BODY.slots, v.fields, 2, owner, items, 0);
    SpellRow(S16F15_BODY, v, owner, items);
  }

  lemma S16F15IsWellFormed()
    ensures Len(S16F15_BODY.slots) == 2 && S16F15_BODY.short == 2 && WellFormedRow(S16F15_BODY)
  {
    GroupsAreWellFormed();
    assert Len(S16F15_BODY.slots.rest) == 1 && WellFormedSlots(S16F15_BODY.slots.rest);
    assert Len(S16F15_BODY.slots) == 2 && WellFormedSlots(S16F15_BODY.slots);
  }

  lemma S16F15LayoutIsInjective(a: S16F15Body, b: S16F15Body)
    requires PackS16F15(a) == PackS16F15(b)
    ensures a == b
  {
    hide PackMany, PackOption;
    ProcessJobIsInjective();
    ManyIsInjective(PackProcessJob);
  }

  /** Of all arguments, exactly those that can be sent come back, and come back unchanged. */
  method S16F15RoundTrip(shared: DecodeConfig, m: S16F15Body) returns (out: S16F15Body, err: Option<Error>)
    requires !shared.allowTrailing
    ensures err.None? <==> RowFits(S16F15_BODY, PackS16F15(m))
    ensures err.None? ==> out == m
  {
    hide DecodeBody, BuildBody, RowTyped, RowFits, PackMany, PackOption;
    S16F15IsWellFormed();
    S16F15Builds(m);
    BodyRoundTripExactly("S16F15", S16F15_BODY, PackS16F15(m));
    var body := S16F15(m.dataid, m.jobs);
    out, err := DecodeS16F15(shared, body, []);
    if err.None? { S16F15LayoutIsInjective(out, m); }
  }

  lemma S16F15ItemsOnTheWire(m: S16F15Body, owner: string, items: seq<Item>)
    requires items == [
               Present(m.dataid, owner + "DATAID"),
               L(MapItems(m.jobs, ProcessJobItem))
             ]
    requires forall i :: 0 <= i < |items| ==> Usable(items[i])
    ensures items == [
              m.dataid,
              List(MapItems(m.jobs, ProcessJobItem))
            ]
  {
    hide Errors, ChildErrors, Usable, WithoutNil, Present;
    assert Usable(items[0]);
    PresentUsable(m.dataid, owner + "DATAID");
    assert Usable(items[1]);
    RepeatOnTheWire(m.jobs, ProcessJobItem);
  }

  /** Each argument of a body that is sent stands at its own position. */
  lemma S16F15OnTheWire(m: S16F15Body)
    requires Errors(S16F15(m.dataid, m.jobs)) == []
    ensures S16F15(m.dataid, m.jobs) ==
              List([
                m.dataid,
                List(MapItems(m.jobs, ProcessJobItem))
              ])
  {
    hide Errors, ChildErrors, Usable, WithoutNil, Present;
    var items := [
      Present(m.dataid, "S16F15" + " " + "DATAID"),
      L(MapItems(m.jobs, ProcessJobItem))
    ];
    ListOnTheWire(items);
    S16F15ItemsOnTheWire(m, "S16F15" + " ", items);
  }

  lemma S16F15Fields()
    ensures GoodName("S16F15")
    ensures Tagged(S16F15_BODY.slots, 6_068_084_068)
    ensures Tagged(S16F15_BODY.slots.rest, 4_074_066_083)
    ensures S16F15_BODY.slots.rest.rest == End
  {
    assert NamesDistinct(Repeat(Group("ProcessJob", PROCESS_JOB))) by { ProcessJobNamesDiffer(); }
  }

  /** The names of one struct are distinct. */
  lemma S16F15NamesDiffer()
    ensures GoodName("S16F15") && SlotNamesDistinct(S16F15_BODY.slots)
  {
    hide SlotNamesDistinct, GoodName, FieldTags, Tagged, S16F15_BODY;
    S16F15Fields();
    var tags := NoNames();
    tags := NamesStep(S16F15_BODY.slots.rest, 4_074_066_083, tags);
    tags := NamesStep(S16F15_BODY.slots, 6_068_084_068, tags);
  }

  /** The error names the first failing position of the body, its indices included, and no other position. */
  lemma S16F15ErrorNamesTheFirstFailure(item: Item, lenient: bool, p: Path)
    requires DecodeBody("S16F15", S16F15_BODY, item, lenient).Err?
    requires PlaceInRow(S16F15_BODY, "", "S16F15" + " body", p) ==
               Some(DecodeBody("S16F15", S16F15_BODY, item, lenient).error.place)
    ensures FirstFailingInRow(S16F15_BODY, item, lenient, p)
  {
    hide DecodeBody, PlaceInRow, SlotNamesDistinct, WellFormedRow, FirstFailingInRow, GoodName;
    S16F15IsWellFormed();
    S16F15NamesDiffer();
    ErrorNamesTheFirstFailure("S16F15", S16F15_BODY, item, lenient, p);
  }

  /** Decoding a body and building it again normalises it, and with AllowTrailing prunes it. */
  method S16F15Rebuild(shared: DecodeConfig, item: Item, opts: seq<DecodeOption>)
    returns (rebuilt: Item, err: Option<Error>)
    requires !shared.allowTrailing && Clean(item)
    ensures err.None? <==> RowConforms(S16F15_BODY, Kept(S16F15_BODY, item, Lenient(opts)))
    ensures err.None? ==> rebuilt == NormaliseRow(S16F15_BODY, Kept(S16F15_BODY, item, Lenient(opts)))
  {
    hide DecodeBody, BuildBody, RowTyped, RowFits, RowConforms, NormaliseRow, Kept;
    S16F15IsWellFormed();
    BodyRebuildExactly("S16F15", S16F15_BODY, item, Lenient(opts));
    rebuilt := item;
    var out;
    out, err := DecodeS16F15(shared, item, opts);
    if err.None? {
      S16F15Builds(out);
      rebuilt := S16F15(out.dataid, out.jobs);
    }
  }
}
