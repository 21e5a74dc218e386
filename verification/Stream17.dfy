/**
 S17F5 (Trace Create Request): a trigger list sent full, with two flags that may be zero-length, or empty.
 */
module Stream17 {
  import opened Secs2
  import opened Decimal
  import opened Decoding
  import opened Shapes
  import opened Building
  import opened Places
  import opened Options
  import opened RoundTrip
  import opened Refinement
  import opened Groups

  // ----- S17F5 -----

  datatype S17F5Body = S17F5Body(
    dataid: Item,
    trid: Item,
    ceed: bool,
    rptids: seq<Item>,
    trsper: Item,
    totsmp: Item,
    repgsz: Item,
    startevntsrc: string,
    startceid: Item,
    stopevntsrc: string,
    stopceid: Item,
    trautod: Option<bool>,
    rptoc: Option<bool>)

  const S17F5_TRIGGER: Row :=
    Row(0,
        Field("TOTSMP", Leaf(KScalar),
        Field("REPGSZ", Leaf(KScalar),
        Field("STARTEVNTSRC", Leaf(KText),
        Field("STARTCEID", Leaf(KScalar),
        Field("STOPEVNTSRC", Leaf(KText),
        Field("STOPCEID", Leaf(KScalar),
        Field("TRAUTOD", Optional(KBool),
        Field("RPTOC", Optional(KBool),
        End)))))))))

  const S17F5_BODY: Row :=
    Row(6,
        Field("DATAID", Leaf(KScalar),
        Field("TRID", Leaf(KScalar),
        Field("CEED", Leaf(KBool),
        Field("RPTIDS", Repeat(Leaf(KScalar)),
        Field("TRSPER", Leaf(KScalar),
        Nested(S17F5_TRIGGER,
        End)))))))

  /** The body S17F5 sends. */
  function S17F5(
    dataid: Item,
    trid: Item,
    ceed: bool,
    rptids: seq<Item>,
    trsper: Item,
    totsmp: Item,
    repgsz: Item,
    startevntsrc: string,
    startceid: Item,
    stopevntsrc: string,
    stopceid: Item,
    trautod: Option<bool>,
    rptoc: Option<bool>): Item
  {
    L([
      Present(dataid, "S17F5" + " " + "DATAID"),
      Present(trid, "S17F5" + " " + "TRID"),
      BOOLEAN([ceed]),
      L(PresentEach(rptids, "S17F5" + " " + "RPTIDS")),
      Present(trsper, "S17F5" + " " + "TRSPER"),
      L([
        Present(totsmp, "S17F5" + " " + "TOTSMP"),
        Present(repgsz, "S17F5" + " " + "REPGSZ"),
        A(startevntsrc),
        Present(startceid, "S17F5" + " " + "STARTCEID"),
        A(stopevntsrc),
        Present(stopceid, "S17F5" + " " + "STOPCEID"),
        OptionalItem(trautod, BoolItem, BOOLEAN([])),
        OptionalItem(rptoc, BoolItem, BOOLEAN([]))
      ])
    ])
  }

  /** The short form: no trigger, so an empty list in its place. */
  function S17F5Untriggered(
    dataid: Item,
    trid: Item,
    ceed: bool,
    rptids: seq<Item>,
    trsper: Item): Item
  {
    L([
      Present(dataid, "S17F5" + " " + "DATAID"),
      Present(trid, "S17F5" + " " + "TRID"),
      BOOLEAN([ceed]),
      L(PresentEach(rptids, "S17F5" + " " + "RPTIDS")),
      Present(trsper, "S17F5" + " " + "TRSPER"),
      L([])
    ])
  }

  /** The form of a decoded body: an open item is nil only where the short form leaves it out. */
  predicate S17F5IsFull(m: S17F5Body) {
    !m.totsmp.Nil?
  }

  function PackS17F5Trigger(full: bool, m: S17F5Body): Value {
    RowV(full,
      And(ItemV(m.totsmp),
      And(ItemV(m.repgsz),
      And(TextV(m.startevntsrc),
      And(ItemV(m.startceid),
      And(TextV(m.stopevntsrc),
      And(ItemV(m.stopceid),
      And(PackOption(PackBool)(m.trautod),
      And(PackOption(PackBool)(m.rptoc),
      Nothing)))))))))
  }

  /** The struct laid out as the value of its shape. */
  function PackS17F5(full: bool, m: S17F5Body): Value {
    RowV(true,
      And(ItemV(m.dataid),
      And(ItemV(m.trid),
      And(BoolV(m.ceed),
      And(PackMany(PackItem)(m.rptids),
      And(ItemV(m.trsper),
      And(PackS17F5Trigger(full, m),
      Nothing)))))))
  }

  /** The full list is read field after field, each hop in range. */
  lemma S17F5InnerSteps(c: Cursor, place: string, lenient: bool)
    requires Open(c) && 8 <= |c.item.items|
    ensures forall k: nat :: k < 8 ==> Sane(c.At([k]))
    ensures Rest(S17F5_TRIGGER.slots, c, 0, 8, "", place, lenient) ==
              Glue(DecodeLeaf(KScalar, c.At([0]), "TOTSMP"),
              Glue(DecodeLeaf(KScalar, c.At([1]), "REPGSZ"),
              Glue(DecodeLeaf(KText, c.At([2]), "STARTEVNTSRC"),
              Glue(DecodeLeaf(KScalar, c.At([3]), "STARTCEID"),
              Glue(DecodeLeaf(KText, c.At([4]), "STOPEVNTSRC"),
              Glue(DecodeLeaf(KScalar, c.At([5]), "STOPCEID"),
              Glue(DecodeAt(Optional(KBool), c.At([6]), "TRAUTOD", lenient),
              Glue(DecodeAt(Optional(KBool), c.At([7]), "RPTOC", lenient), Ok(Nothing)))))))))
  {
    hide Cursor.At, Cursor.Hop, Errors, Glue, Rest, Decode, DecodeAt, DecodeRow, DecodeRowAt, DecodeSlots, DecodeLeaf;
    forall k: nat | k < 8 ensures Sane(c.At([k])) { HopReaches(c, k); }
    var rest := StepLeaf(S17F5_TRIGGER.slots, c, 0, 8, "", place, lenient);
    rest := StepLeaf(rest, c, 1, 8, "", place, lenient);
    rest := StepLeaf(rest, c, 2, 8, "", place, lenient);
    rest := StepLeaf(rest, c, 3, 8, "", place, lenient);
    rest := StepLeaf(rest, c, 4, 8, "", place, lenient);
    rest := StepLeaf(rest, c, 5, 8, "", place, lenient);
    rest := Step(rest, c, 6, 8, "", place, lenient);
    rest := Step(rest, c, 7, 8, "", place, lenient);
    Finish(rest, c, 8, 8, "", place, lenient);
  }

  /** The full list is read field after field, each hop in range. */
  lemma S17F5Steps(c: Cursor, place: string, lenient: bool)
    requires Open(c) && 6 <= |c.item.items|
    ensures forall k: nat :: k < 6 ==> Sane(c.At([k]))
    ensures Rest(S17F5_BODY.slots, c, 0, 6, "", place, lenient) ==
              Glue(DecodeLeaf(KScalar, c.At([0]), "DATAID"),
              Glue(DecodeLeaf(KScalar, c.At([1]), "TRID"),
              Glue(DecodeLeaf(KBool, c.At([2]), "CEED"),
              Glue(DecodeAt(Repeat(Leaf(KScalar)), c.At([3]), "RPTIDS", lenient),
              Glue(DecodeLeaf(KScalar, c.At([4]), "TRSPER"),
              Glue(DecodeRowAt(S17F5_TRIGGER, c.At([5]), "", place + Index(5), lenient), Ok(Nothing)))))))
  {
    hide Cursor.At, Cursor.Hop, Errors, Glue, Rest, Decode, DecodeAt, DecodeRow, DecodeRowAt, DecodeSlots, DecodeLeaf;
    forall k: nat | k < 6 ensures Sane(c.At([k])) { HopReaches(c, k); }
    var rest := StepLeaf(S17F5_BODY.slots, c, 0, 6, "", place, lenient);
    rest := StepLeaf(rest, c, 1, 6, "", place, lenient);
    rest := StepLeaf(rest, c, 2, 6, "", place, lenient);
    rest := Step(rest, c, 3, 6, "", place, lenient);
    rest := StepLeaf(rest, c, 4, 6, "", place, lenient);
    rest := Step(rest, c, 5, 6, "", place, lenient);
    Finish(rest, c, 6, 6, "", place, lenient);
  }

  /** The fields the short form omits. */
  lemma S17F5InnerZeros()
    ensures Zeros(S17F5_TRIGGER.slots) ==
              And(ItemV(Nil(false)),
              And(ItemV(Nil(false)),
              And(TextV(""),
              And(ItemV(Nil(false)),
              And(TextV(""),
              And(ItemV(Nil(false)),
              And(PackOption(PackBool)(None),
              And(PackOption(PackBool)(None),
              Nothing))))))))
  {
    var s0 := S17F5_TRIGGER.slots;
    var s1 := s0.rest;
    var s2 := s1.rest;
    var s3 := s2.rest;
    var s4 := s3.rest;
    var s5 := s4.rest;
    var s6 := s5.rest;
    var s7 := s6.rest;
    assert Zeros(s7).And?;
    assert Zeros(s5).And?;
    assert Zeros(s3).And?;
    assert Zeros(s1).And?;
  }

  lemma S17F5InnerShort(c: Cursor, place: string, lenient: bool)
    requires Open(c)
    ensures Rest(S17F5_TRIGGER.slots, c, 0, 0, "", place, lenient) ==
              Ok(Zeros(S17F5_TRIGGER.slots))
  {
    Finish(S17F5_TRIGGER.slots, c, 0, 0, "", place, lenient);
  }

  /** The fields in declaration order, returning at the first error with what was filled in so far. */
  method DecodeS17F5(shared: DecodeConfig, item: Item, opts: seq<DecodeOption>)
    returns (out: S17F5Body, err: Option<Error>)
    requires !shared.allowTrailing
    ensures Reports(err, PackS17F5(S17F5IsFull(out), out), DecodeBody("S17F5", S17F5_BODY, item, Lenient(opts)))
  {
    hide Cursor.At, Cursor.Hop, Errors, ListAt, RequireArity, OptionalArity, Each, EachFrom, PresentAt, DecodeOptional;
    hide Decode, DecodeAt, DecodeBody, DecodeRow, DecodeRowAt, DecodeSlots, Rest, Zeros, PackMany, PackOption;
    hide Sane, Open, Index, NewCursor;
    hide DecodeASCII, DecodeItem, DecodeScalarItem, DecodeBool, DecodeByteAs, DecodeUint;
    hide S17F5_BODY, S17F5_TRIGGER;
    out := S17F5Body(
      Nil(false), Nil(false), false, [], Nil(false), Nil(false), Nil(false), "", Nil(false), "",
      Nil(false), None, None);
    var root := NewCursor(item);
    var cfg := NewDecodeConfig(shared, opts);
    var lenient := cfg.allowTrailing;
    var place := "S17F5" + " body";
    BodyAt("S17F5", S17F5_BODY, item, lenient);
    S17F5IsWellFormed();
    OpenFixed(S17F5_BODY, root, "", place, lenient);
    var arity := RequireArity(root, place, 6, lenient);
    if arity.Err? { return out, Some(arity.error); }
    S17F5Steps(root, place, lenient);
    var dataid := DecodeScalarItem(root.At([0]), "DATAID");
    if dataid.Err? { return out, Some(dataid.error); }
    out := out.(dataid := dataid.value);
    var trid := DecodeScalarItem(root.At([1]), "TRID");
    if trid.Err? { return out, Some(trid.error); }
    out := out.(trid := trid.value);
    var ceed := DecodeBool(root.At([2]), "CEED");
    if ceed.Err? { return out, Some(ceed.error); }
    out := out.(ceed := ceed.value);
    ScalarsImplement(root.At([3]), "RPTIDS", lenient);
    var rptids := DecodeEach(root.At([3]), "RPTIDS", DecodeScalarItem);
    if rptids.Err? { return out, Some(rptids.error); }
    out := out.(rptids := rptids.value);
    var trsper := DecodeScalarItem(root.At([4]), "TRSPER");
    if trsper.Err? { return out, Some(trsper.error); }
    out := out.(trsper := trsper.value);
    ghost var inner := root.At([5]);
    forall j: nat ensures root.At([5, j]) == inner.At([j]) { HopTwice(root, 5, j); }
    OpenBounded(S17F5_TRIGGER, inner, "", place + Index(5), lenient);
    var n1 := OptionalArity(root.At([5]), place + Index(5), 0, 8, lenient);
    if n1.Err? { return out, Some(n1.error); }
    if n1.value == 8 {
      S17F5InnerSteps(inner, place + Index(5), lenient);
    } else {
      S17F5InnerShort(inner, place + Index(5), lenient);
      S17F5InnerZeros();
    }
    if n1.value == 8 {
      var totsmp := DecodeScalarItem(root.At([5, 0]), "TOTSMP");
      if totsmp.Err? { return out, Some(totsmp.error); }
      out := out.(totsmp := totsmp.value);
      var repgsz := DecodeScalarItem(root.At([5, 1]), "REPGSZ");
      if repgsz.Err? { return out, Some(repgsz.error); }
      out := out.(repgsz := repgsz.value);
      var startevntsrc := DecodeASCII(root.At([5, 2]), "STARTEVNTSRC");
      if startevntsrc.Err? { return out, Some(startevntsrc.error); }
      out := out.(startevntsrc := startevntsrc.value);
      var startceid := DecodeScalarItem(root.At([5, 3]), "STARTCEID");
      if startceid.Err? { return out, Some(startceid.error); }
      out := out.(startceid := startceid.value);
      var stopevntsrc := DecodeASCII(root.At([5, 4]), "STOPEVNTSRC");
      if stopevntsrc.Err? { return out, Some(stopevntsrc.error); }
      out := out.(stopevntsrc := stopevntsrc.value);
      var stopceid := DecodeScalarItem(root.At([5, 5]), "STOPCEID");
      if stopceid.Err? { return out, Some(stopceid.error); }
      out := out.(stopceid := stopceid.value);
      OptionalBoolImplements(inner.At([6]), "TRAUTOD", lenient);
      var trautod := DecodeOptional(root.At([5, 6]), "TRAUTOD", KBool, DecodeBool);
      if trautod.Err? { return out, Some(trautod.error); }
      out := out.(trautod := trautod.value);
      OptionalBoolImplements(inner.At([7]), "RPTOC", lenient);
      var rptoc := DecodeOptional(root.At([5, 7]), "RPTOC", KBool, DecodeBool);
      if rptoc.Err? { return out, Some(rptoc.error); }
      out := out.(rptoc := rptoc.value);
      ScalarIsPresent(inner.At([0]), "TOTSMP");
    }
    return out, None;
  }

  lemma S17F5InnerBuilds(m: S17F5Body)
    ensures RowTyped(S17F5_TRIGGER, PackS17F5Trigger(true, m))
    ensures BuildRow(S17F5_TRIGGER, PackS17F5Trigger(true, m), "S17F5" + " ") ==
              L([
                Present(m.totsmp, "S17F5" + " " + "TOTSMP"),
                Present(m.repgsz, "S17F5" + " " + "REPGSZ"),
                A(m.startevntsrc),
                Present(m.startceid, "S17F5" + " " + "STARTCEID"),
                A(m.stopevntsrc),
                Present(m.stopceid, "S17F5" + " " + "STOPCEID"),
                OptionalItem(m.trautod, BoolItem, BOOLEAN([])),
                OptionalItem(m.rptoc, BoolItem, BOOLEAN([]))
              ])
  {
    hide Spelled, Typed, RowTyped, SlotsTyped, Build, BuildRow, BuildSlots;
    hide L, A, B, BOOLEAN, U, Present, PresentEach, OptionalItem, PackOption, PackMany, MapItems, RowItems;
    var owner, v := "S17F5" + " ", PackS17F5Trigger(true, m);
    var items := [
      Present(m.totsmp, owner + "TOTSMP"),
      Present(m.repgsz, owner + "REPGSZ"),
      A(m.startevntsrc),
      Present(m.startceid, owner + "STARTCEID"),
      A(m.stopevntsrc),
      Present(m.stopceid, owner + "STOPCEID"),
      OptionalItem(m.trautod, BoolItem, BOOLEAN([])),
      OptionalItem(m.rptoc, BoolItem, BOOLEAN([]))
    ];
    OptionalBoolBuilds(m.trautod, owner + "TRAUTOD");
    OptionalBoolBuilds(m.rptoc, owner + "RPTOC");
    var s0, v0 := S17F5_TRIGGER.slots, v.fields;
    var s1, v1 := s0.rest, v0.rest;
    var s2, v2 := s1.rest, v1.rest;
    var s3, v3 := s2.rest, v2.rest;
    var s4, v4 := s3.rest, v3.rest;
    var s5, v5 := s4.rest, v4.rest;
    var s6, v6 := s5.rest, v5.rest;
    var s7, v7 := s6.rest, v6.rest;
    SpellEnd(owner, items);
    SpellField(s7, v7, 1, owner, items, 7);
    SpellField(s6, v6, 2, owner, items, 6);
    SpellLeaf(s5, v5, 3, owner, items, 5);
    SpellLeaf(s4, v4, 4, owner, items, 4);
    SpellLeaf(s3, v3, 5, owner, items, 3);
    SpellLeaf(s2, v2, 6, owner, items, 2);
    SpellLeaf(s1, v1, 7, owner, items, 1);
    SpellLeaf(s0, v0, 8, owner, items, 0);
    SpellRow(S17F5_TRIGGER, v, owner, items);
  }

  /** The builder sends what the shape builds from the same values. */
  lemma S17F5Builds(m: S17F5Body)
    ensures RowTyped(S17F5_BODY, PackS17F5(true, m))
    ensures BuildBody("S17F5", S17F5_BODY, PackS17F5(true, m)) ==
              S17F5(
                m.dataid, m.trid, m.ceed, m.rptids, m.trsper, m.totsmp, m.repgsz, m.startevntsrc,
                m.startceid, m.stopevntsrc, m.stopceid, m.trautod, m.rptoc)
  {
    hide Spelled, Typed, RowTyped, SlotsTyped, Build, BuildRow, BuildSlots;
    hide L, A, B, BOOLEAN, U, Present, PresentEach, OptionalItem, PackOption, PackMany, MapItems, RowItems;
    var owner, v := "S17F5" + " ", PackS17F5(true, m);
    S17F5InnerBuilds(m);
    var items := [
      Present(m.dataid, owner + "DATAID"),
      Present(m.trid, owner + "TRID"),
      BOOLEAN([m.ceed]),
      L(PresentEach(m.rptids, owner + "RPTIDS")),
      Present(m.trsper, owner + "TRSPER"),
      L([
        Present(m.totsmp, owner + "TOTSMP"),
        Present(m.repgsz, owner + "REPGSZ"),
        A(m.startevntsrc),
        Present(m.startceid, owner + "STARTCEID"),
        A(m.stopevntsrc),
        Present(m.stopceid, owner + "STOPCEID"),
        OptionalItem(m.trautod, BoolItem, BOOLEAN([])),
        OptionalItem(m.rptoc, BoolItem, BOOLEAN([]))
      ])
    ];
    ScalarsBuild(m.rptids, owner + "RPTIDS");
    var s0, v0 := S17F5_BODY.slots, v.fields;
    var s1, v1 := s0.rest, v0.rest;
    var s2, v2 := s1.rest, v1.rest;
    var s3, v3 := s2.rest, v2.rest;
    var s4, v4 := s3.rest, v3.rest;
    var s5, v5 := s4.rest, v4.rest;
    SpellEnd(owner, items);
    SpellNested(s5, v5, 1, owner, items, 5);
    SpellLeaf(s4, v4, 2, owner, items, 4);
    SpellField(s3, v3, 3, owner, items, 3);
    SpellLeaf(s2, v2, 4, owner, items, 2);
    SpellLeaf(s1, v1, 5, owner, items, 1);
    SpellLeaf(s0, v0, 6, owner, items, 0);
    SpellRow(S17F5_BODY, v, owner, items);
  }

  lemma S17F5UntriggeredInnerBuilds(m: S17F5Body)
    requires m == S17F5Body(
      m.dataid, m.trid, m.ceed, m.rptids, m.trsper, Nil(false), Nil(false), "", Nil(false), "", Nil(false),
      None, None)
    ensures RowTyped(S17F5_TRIGGER, PackS17F5Trigger(false, m))
    ensures BuildRow(S17F5_TRIGGER, PackS17F5Trigger(false, m), "S17F5" + " ") == L([])
  {
    hide Spelled, Typed, RowTyped, SlotsTyped, Build, BuildRow, BuildSlots;
    hide L, A, B, BOOLEAN, U, Present, PresentEach, OptionalItem, PackOption, PackMany, MapItems, RowItems;
    var owner, v := "S17F5" + " ", PackS17F5Trigger(false, m);
    var items: seq<Item> := [];
    S17F5InnerZeros();
    SpellZeros(S17F5_TRIGGER.slots, owner, items);
    SpellRow(S17F5_TRIGGER, v, owner, items);
  }

  lemma S17F5UntriggeredBuilds(m: S17F5Body)
    requires m == S17F5Body(
      m.dataid, m.trid, m.ceed, m.rptids, m.trsper, Nil(false), Nil(false), "", Nil(false), "", Nil(false),
      None, None)
    ensures RowTyped(S17F5_BODY, PackS17F5(false, m))
    ensures BuildBody("S17F5", S17F5_BODY, PackS17F5(false, m)) ==
              S17F5Untriggered(m.dataid, m.trid, m.ceed, m.rptids, m.trsper)
  {
    hide Spelled, Typed, RowTyped, SlotsTyped, Build, BuildRow, BuildSlots;
    hide L, A, B, BOOLEAN, U, Present, PresentEach, OptionalItem, PackOption, PackMany, MapItems, RowItems;
    var owner, v := "S17F5" + " ", PackS17F5(false, m);
    S17F5UntriggeredInnerBuilds(m);
    var items := [
      Present(m.dataid, owner + "DATAID"),
      Present(m.trid, owner + "TRID"),
      BOOLEAN([m.ceed]),
      L(PresentEach(m.rptids, owner + "RPTIDS")),
      Present(m.trsper, owner + "TRSPER"),
      L([])
    ];
    ScalarsBuild(m.rptids, owner + "RPTIDS");
    var s0, v0 := S17F5_BODY.slots, v.fields;
    var s1, v1 := s0.rest, v0.rest;
    var s2, v2 := s1.rest, v1.rest;
    var s3, v3 := s2.rest, v2.rest;
    var s4, v4 := s3.rest, v3.rest;
    var s5, v5 := s4.rest, v4.rest;
    SpellEnd(owner, items);
    SpellNested(s5, v5, 1, owner, items, 5);
    SpellLeaf(s4, v4, 2, owner, items, 4);
    SpellField(s3, v3, 3, owner, items, 3);
    SpellLeaf(s2, v2, 4, owner, items, 2);
    SpellLeaf(s1, v1, 5, owner, items, 1);
    SpellLeaf(s0, v0, 6, owner, items, 0);
    SpellRow(S17F5_BODY, v, owner, items);
  }

  lemma S17F5IsWellFormed()
    ensures Len(S17F5_BODY.slots) == 6 && S17F5_BODY.short == 6 && WellFormedRow(S17F5_BODY)
    ensures Len(S17F5_TRIGGER.slots) == 8 && S17F5_TRIGGER.short == 0
  {
    var t0 := S17F5_TRIGGER.slots;
    var t1 := t0.rest;
    var t2 := t1.rest;
    var t3 := t2.rest;
    var t4 := t3.rest;
    var t5 := t4.rest;
    var t6 := t5.rest;
    var t7 := t6.rest;
    assert Len(t7) == 1 && WellFormedSlots(t7);
    assert Len(t6) == 2 && WellFormedSlots(t6);
    assert Len(t5) == 3 && WellFormedSlots(t5);
    assert Len(t4) == 4 && WellFormedSlots(t4);
    assert Len(t3) == 5 && WellFormedSlots(t3);
    assert Len(t2) == 6 && WellFormedSlots(t2);
    assert Len(t1) == 7 && WellFormedSlots(t1);
    assert Len(t0) == 8 && WellFormedSlots(t0);
    var s0 := S17F5_BODY.slots;
    var s1 := s0.rest;
    var s2 := s1.rest;
    var s3 := s2.rest;
    var s4 := s3.rest;
    var s5 := s4.rest;
    assert Len(s5) == 1 && WellFormedSlots(s5);
    assert Len(s4) == 2 && WellFormedSlots(s4);
    assert Len(s3) == 3 && WellFormedSlots(s3);
    assert Len(s2) == 4 && WellFormedSlots(s2);
    assert Len(s1) == 5 && WellFormedSlots(s1);
    assert Len(s0) == 6 && WellFormedSlots(s0);
  }

  lemma S17F5LayoutIsInjective(f: bool, g: bool, a: S17F5Body, b: S17F5Body)
    requires PackS17F5(f, a) == PackS17F5(g, b)
    ensures a == b
  {
    hide PackMany, PackOption;
    ManyIsInjective(PackItem);
    OptionIsInjective(PackBool);
  }

  /** Of all arguments, exactly those that can be sent come back, and come back unchanged. */
  method S17F5RoundTrip(shared: DecodeConfig, m: S17F5Body) returns (out: S17F5Body, err: Option<Error>)
    requires !shared.allowTrailing
    ensures err.None? <==> RowFits(S17F5_BODY, PackS17F5(true, m))
    ensures err.None? ==> out == m
  {
    hide DecodeBody, BuildBody, RowTyped, RowFits, PackMany, PackOption;
    S17F5IsWellFormed();
    S17F5Builds(m);
    BodyRoundTripExactly("S17F5", S17F5_BODY, PackS17F5(true, m));
    var body := S17F5(
      m.dataid, m.trid, m.ceed, m.rptids, m.trsper, m.totsmp, m.repgsz, m.startevntsrc, m.startceid,
      m.stopevntsrc, m.stopceid, m.trautod, m.rptoc);
    out, err := DecodeS17F5(shared, body, []);
    if err.None? { S17F5LayoutIsInjective(S17F5IsFull(out), true, out, m); }
  }

  /** The short form comes back as the same arguments, with the zero value in every omitted field. */
  method S17F5UntriggeredRoundTrip(shared: DecodeConfig, m: S17F5Body) returns (out: S17F5Body, err: Option<Error>)
    requires !shared.allowTrailing
    requires m == S17F5Body(
      m.dataid, m.trid, m.ceed, m.rptids, m.trsper, Nil(false), Nil(false), "", Nil(false), "", Nil(false),
      None, None)
    ensures err.None? <==> RowFits(S17F5_BODY, PackS17F5(false, m))
    ensures err.None? ==> out == m && !S17F5IsFull(out)
  {
    hide DecodeBody, BuildBody, RowTyped, RowFits, PackMany, PackOption;
    S17F5IsWellFormed();
    S17F5UntriggeredBuilds(m);
    BodyRoundTripExactly("S17F5", S17F5_BODY, PackS17F5(false, m));
    var body := S17F5Untriggered(m.dataid, m.trid, m.ceed, m.rptids, m.trsper);
    out, err := DecodeS17F5(shared, body, []);
    if err.None? { S17F5LayoutIsInjective(S17F5IsFull(out), false, out, m); }
  }

  lemma S17F5ItemsOnTheWire(m: S17F5Body, owner: string, items: seq<Item>)
    requires items == [
               Present(m.dataid, owner + "DATAID"),
               Present(m.trid, owner + "TRID"),
               BOOLEAN([m.ceed]),
               L(PresentEach(m.rptids, owner + "RPTIDS")),
               Present(m.trsper, owner + "TRSPER"),
               L([
                 Present(m.totsmp, owner + "TOTSMP"),
                 Present(m.repgsz, owner + "REPGSZ"),
                 A(m.startevntsrc),
                 Present(m.startceid, owner + "STARTCEID"),
                 A(m.stopevntsrc),
                 Present(m.stopceid, owner + "STOPCEID"),
                 OptionalItem(m.trautod, BoolItem, BOOLEAN([])),
                 OptionalItem(m.rptoc, BoolItem, BOOLEAN([]))
               ])
             ]
    requires forall i :: 0 <= i < |items| ==> Usable(items[i])
    ensures items == [
              m.dataid,
              m.trid,
              Boolean([m.ceed]),
              List(m.rptids),
              m.trsper,
              List([
                m.totsmp,
                m.repgsz,
                Text(m.startevntsrc),
                m.startceid,
                Text(m.stopevntsrc),
                m.stopceid,
                if m.trautod.None? then Boolean([]) else Boolean([m.trautod.value]),
                if m.rptoc.None? then Boolean([]) else Boolean([m.rptoc.value])
              ])
            ]
  {
    hide Errors, ChildErrors, Usable, WithoutNil, Present;
    var inner := [
      Present(m.totsmp, owner + "TOTSMP"),
      Present(m.repgsz, owner + "REPGSZ"),
      A(m.startevntsrc),
      Present(m.startceid, owner + "STARTCEID"),
      A(m.stopevntsrc),
      Present(m.stopceid, owner + "STOPCEID"),
      OptionalItem(m.trautod, BoolItem, BOOLEAN([])),
      OptionalItem(m.rptoc, BoolItem, BOOLEAN([]))
    ];
    assert Usable(items[0]);
    PresentUsable(m.dataid, owner + "DATAID");
    assert Usable(items[1]);
    PresentUsable(m.trid, owner + "TRID");
    assert Usable(items[3]);
    ItemsOnTheWire(m.rptids, owner + "RPTIDS");
    assert Usable(items[4]);
    PresentUsable(m.trsper, owner + "TRSPER");
    assert Usable(items[5]);
    NestedOnTheWire(inner);
    assert Usable(inner[0]);
    PresentUsable(m.totsmp, owner + "TOTSMP");
    assert Usable(inner[1]);
    PresentUsable(m.repgsz, owner + "REPGSZ");
    assert Usable(inner[2]);
    TextOnTheWire(m.startevntsrc);
    assert Usable(inner[3]);
    PresentUsable(m.startceid, owner + "STARTCEID");
    assert Usable(inner[4]);
    TextOnTheWire(m.stopevntsrc);
    assert Usable(inner[5]);
    PresentUsable(m.stopceid, owner + "STOPCEID");
  }

  /** Each argument of a body that is sent stands at its own position. */
  lemma S17F5OnTheWire(m: S17F5Body)
    requires Errors(S17F5(
      m.dataid, m.trid, m.ceed, m.rptids, m.trsper, m.totsmp, m.repgsz, m.startevntsrc, m.startceid,
      m.stopevntsrc, m.stopceid, m.trautod, m.rptoc)) == []
    ensures S17F5(
      m.dataid, m.trid, m.ceed, m.rptids, m.trsper, m.totsmp, m.repgsz, m.startevntsrc, m.startceid,
      m.stopevntsrc, m.stopceid, m.trautod, m.rptoc) ==
              List([
                m.dataid,
                m.trid,
                Boolean([m.ceed]),
                List(m.rptids),
                m.trsper,
                List([
                  m.totsmp,
                  m.repgsz,
                  Text(m.startevntsrc),
                  m.startceid,
                  Text(m.stopevntsrc),
                  m.stopceid,
                  if m.trautod.None? then Boolean([]) else Boolean([m.trautod.value]),
                  if m.rptoc.None? then Boolean([]) else Boolean([m.rptoc.value])
                ])
              ])
  {
    hide Errors, ChildErrors, Usable, WithoutNil, Present;
    var items := [
      Present(m.dataid, "S17F5" + " " + "DATAID"),
      Present(m.trid, "S17F5" + " " + "TRID"),
      BOOLEAN([m.ceed]),
      L(PresentEach(m.rptids, "S17F5" + " " + "RPTIDS")),
      Present(m.trsper, "S17F5" + " " + "TRSPER"),
      L([
        Present(m.totsmp, "S17F5" + " " + "TOTSMP"),
        Present(m.repgsz, "S17F5" + " " + "REPGSZ"),
        A(m.startevntsrc),
        Present(m.startceid, "S17F5" + " " + "STARTCEID"),
        A(m.stopevntsrc),
        Present(m.stopceid, "S17F5" + " " + "STOPCEID"),
        OptionalItem(m.trautod, BoolItem, BOOLEAN([])),
        OptionalItem(m.rptoc, BoolItem, BOOLEAN([]))
      ])
    ];
    ListOnTheWire(items);
    S17F5ItemsOnTheWire(m, "S17F5" + " ", items);
  }

  lemma S17F5InnerFieldsFrom0()
    ensures Tagged(S17F5_TRIGGER.slots, 6_084_084_080)
    ensures Tagged(S17F5_TRIGGER.slots.rest, 6_082_080_090)
  {
  }

  lemma S17F5InnerFieldsFrom2()
    ensures Tagged(S17F5_TRIGGER.slots.rest.rest, 12_083_065_067)
    ensures Tagged(S17F5_TRIGGER.slots.rest.rest.rest, 9_083_065_068)
  {
  }

  lemma S17F5InnerFieldsFrom4()
    ensures Tagged(S17F5_TRIGGER.slots.rest.rest.rest.rest, 11_083_079_067)
    ensures Tagged(S17F5_TRIGGER.slots.rest.rest.rest.rest.rest, 8_083_079_068)
  {
  }

  lemma S17F5InnerFieldsFrom6()
    ensures Tagged(S17F5_TRIGGER.slots.rest.rest.rest.rest.rest.rest, 7_084_065_068)
    ensures Tagged(S17F5_TRIGGER.slots.rest.rest.rest.rest.rest.rest.rest, 5_082_084_067)
    ensures S17F5_TRIGGER.slots.rest.rest.rest.rest.rest.rest.rest.rest == End
  {
  }

  lemma S17F5FieldsFrom0()
    ensures GoodName("S17F5")
    ensures Tagged(S17F5_BODY.slots, 6_068_084_068)
    ensures Tagged(S17F5_BODY.slots.rest, 4_084_073_068)
    ensures Tagged(S17F5_BODY.slots.rest.rest, 4_067_069_068)
  {
  }

  lemma S17F5FieldsFrom3()
    ensures Tagged(S17F5_BODY.slots.rest.rest.rest, 6_082_084_083)
    ensures Tagged(S17F5_BODY.slots.rest.rest.rest.rest, 6_084_083_082)
    ensures S17F5_BODY.slots.rest.rest.rest.rest.rest.Nested? && S17F5_BODY.slots.rest.rest.rest.rest.rest.row == S17F5_TRIGGER
    ensures S17F5_BODY.slots.rest.rest.rest.rest.rest.rest == End
  {
  }

  /** The names of one struct are distinct. */
  lemma S17F5NamesDiffer()
    ensures GoodName("S17F5") && SlotNamesDistinct(S17F5_BODY.slots)
  {
    hide SlotNamesDistinct, GoodName, FieldTags, Tagged, S17F5_TRIGGER, S17F5_BODY;
    S17F5InnerFieldsFrom0();
    S17F5InnerFieldsFrom2();
    S17F5InnerFieldsFrom4();
    S17F5InnerFieldsFrom6();
    S17F5FieldsFrom0();
    S17F5FieldsFrom3();
    var inner := NoNames();
    inner := NamesStep(S17F5_TRIGGER.slots.rest.rest.rest.rest.rest.rest.rest, 5_082_084_067, inner);
    inner := NamesStep(S17F5_TRIGGER.slots.rest.rest.rest.rest.rest.rest, 7_084_065_068, inner);
    inner := NamesStep(S17F5_TRIGGER.slots.rest.rest.rest.rest.rest, 8_083_079_068, inner);
    inner := NamesStep(S17F5_TRIGGER.slots.rest.rest.rest.rest, 11_083_079_067, inner);
    inner := NamesStep(S17F5_TRIGGER.slots.rest.rest.rest, 9_083_065_068, inner);
    inner := NamesStep(S17F5_TRIGGER.slots.rest.rest, 12_083_065_067, inner);
    inner := NamesStep(S17F5_TRIGGER.slots.rest, 6_082_080_090, inner);
    inner := NamesStep(S17F5_TRIGGER.slots, 6_084_084_080, inner);
    var tags := NoNames();
    tags := NamesNested(S17F5_BODY.slots.rest.rest.rest.rest.rest, inner, tags);
    tags := NamesStep(S17F5_BODY.slots.rest.rest.rest.rest, 6_084_083_082, tags);
    tags := NamesStep(S17F5_BODY.slots.rest.rest.rest, 6_082_084_083, tags);
    tags := NamesStep(S17F5_BODY.slots.rest.rest, 4_067_069_068, tags);
    tags := NamesStep(S17F5_BODY.slots.rest, 4_084_073_068, tags);
    tags := NamesStep(S17F5_BODY.slots, 6_068_084_068, tags);
  }

  /** The error names the first failing position of the body, its indices included, and no other position. */
  lemma S17F5ErrorNamesTheFirstFailure(item: Item, lenient: bool, p: Path)
    requires DecodeBody("S17F5", S17F5_BODY, item, lenient).Err?
    requires PlaceInRow(S17F5_BODY, "", "S17F5" + " body", p) ==
               Some(DecodeBody("S17F5", S17F5_BODY, item, lenient).error.place)
    ensures FirstFailingInRow(S17F5_BODY, item, lenient, p)
  {
    hide DecodeBody, PlaceInRow, SlotNamesDistinct, WellFormedRow, FirstFailingInRow, GoodName;
    S17F5IsWellFormed();
    S17F5NamesDiffer();
    ErrorNamesTheFirstFailure("S17F5", S17F5_BODY, item, lenient, p);
  }

  /** A struct laid out as the short form holds the zero value in every omitted field. */
  lemma S17F5UntriggeredIsZero(m: S17F5Body)
    requires RowTyped(S17F5_BODY, PackS17F5(false, m))
    ensures m == S17F5Body(
      m.dataid, m.trid, m.ceed, m.rptids, m.trsper, Nil(false), Nil(false), "", Nil(false), "", Nil(false),
      None, None)
  {
    S17F5InnerZeros();
    var fields := PackS17F5(false, m).fields;
    assert SlotsTyped(S17F5_BODY.slots.rest, fields.rest, 5);
    assert SlotsTyped(S17F5_BODY.slots.rest.rest, fields.rest.rest, 4);
    assert SlotsTyped(S17F5_BODY.slots.rest.rest.rest, fields.rest.rest.rest, 3);
    assert SlotsTyped(S17F5_BODY.slots.rest.rest.rest.rest, fields.rest.rest.rest.rest, 2);
    assert SlotsTyped(S17F5_BODY.slots.rest.rest.rest.rest.rest, fields.rest.rest.rest.rest.rest, 1);
    assert RowTyped(S17F5_TRIGGER, fields.rest.rest.rest.rest.rest.value);
  }

  /** Decoding a body and building it again normalises it, and with AllowTrailing prunes it. */
  method S17F5Rebuild(shared: DecodeConfig, item: Item, opts: seq<DecodeOption>)
    returns (rebuilt: Item, err: Option<Error>)
    requires !shared.allowTrailing && Clean(item)
    ensures err.None? <==> RowConforms(S17F5_BODY, Kept(S17F5_BODY, item, Lenient(opts)))
    ensures err.None? ==> rebuilt == NormaliseRow(S17F5_BODY, Kept(S17F5_BODY, item, Lenient(opts)))
  {
    hide DecodeBody, BuildBody, RowTyped, RowFits, RowConforms, NormaliseRow, Kept;
    S17F5IsWellFormed();
    BodyRebuildExactly("S17F5", S17F5_BODY, item, Lenient(opts));
    rebuilt := item;
    var out;
    out, err := DecodeS17F5(shared, item, opts);
    if err.None? && S17F5IsFull(out) {
      S17F5Builds(out);
      rebuilt := S17F5(
        out.dataid, out.trid, out.ceed, out.rptids, out.trsper, out.totsmp, out.repgsz, out.startevntsrc,
        out.startceid, out.stopevntsrc, out.stopceid, out.trautod, out.rptoc);
    } else if err.None? {
      S17F5UntriggeredIsZero(out);
      S17F5UntriggeredBuilds(out);
      rebuilt := S17F5Untriggered(out.dataid, out.trid, out.ceed, out.rptids, out.trsper);
    }
  }
}
