/**
 The message catalog and the accepting replies of gem/catalog.go,
 over any pair of tables; the two maps stand for the generated ones.
 */
module Catalog {
  import opened Secs2
  import opened Decoding
  import opened Shapes
  import opened Building
  import opened RoundTrip
  import opened Bodies
  import opened Refinement
  import opened Groups
  import opened Stream1
  import opened Stream6
  import opened Stream13
  import opened Stream15

  /** A role is a byte of which only two values are roles. */
  type Role = byte

  const ROLE_HOST: Role := 1
  const ROLE_EQUIPMENT: Role := 2

  type Direction = byte

  const HOST_TO_EQUIPMENT: Direction := 1
  const EQUIPMENT_TO_HOST: Direction := 2
  const BIDIRECTIONAL: Direction := 3

  predicate ValidRole(r: Role) {
    r == ROLE_HOST || r == ROLE_EQUIPMENT
  }

  function Peer(r: Role): Role {
    if r == ROLE_HOST then ROLE_EQUIPMENT else ROLE_HOST
  }

  predicate Allows(d: Direction, sender: Role) {
    if d == HOST_TO_EQUIPMENT then sender == ROLE_HOST
    else if d == EQUIPMENT_TO_HOST then sender == ROLE_EQUIPMENT
    else if d == BIDIRECTIONAL then ValidRole(sender)
    else false
  }

  /** The peer is the other of the two roles; only a role sends, and both sides send exactly the bidirectional messages. */
  lemma OneSideOrBoth(d: Direction, r: Role)
    ensures ValidRole(r) ==> ValidRole(Peer(r)) && Peer(r) != r && Peer(Peer(r)) == r
    ensures ValidRole(r) ==> (Allows(d, r) && Allows(d, Peer(r)) <==> d == BIDIRECTIONAL)
    ensures ValidRole(r) ==> (Allows(d, r) || Allows(d, Peer(r)) <==> 1 <= d <= 3)
    ensures Allows(d, r) ==> ValidRole(r)
    ensures ValidRole(r) <==> r == 1 || r == 2
    ensures Allows(1, r) <==> r == 1
    ensures Allows(2, r) <==> r == 2
  {
  }

  /** The body of a form: the message's title and what its `Body:` line declares. */
  datatype Form = Form(title: string, body: Body)

  datatype MessageInfo = MessageInfo(
    stream: byte,
    function_: byte,
    direction: Direction,
    replyExpected: bool,
    replyFunction: byte,
    form: Option<Form>)

  datatype Message = Message(stream: byte, function_: byte, wait: bool, item: Item)

  type Key = (byte, byte)

  /** One entry for each role. */
  datatype Pair<+T> = Pair(host: T, equipment: T) {
    function Of(r: Role): T
      requires ValidRole(r)
    {
      if r == ROLE_HOST then host else equipment
    }
  }

  /** A builder call of the table of accepting replies: the form whose builder it calls, and the code that accepts. */
  datatype Call = Call(info: MessageInfo, code: Value)

  /** The catalog, and for each reply the call that accepts, where the replier's form is an acknowledgement. */
  datatype Tables = Tables(catalog: map<Key, Pair<MessageInfo>>, accept: map<Key, Pair<Option<Call>>>)

  // ----- accepting calls -----

  /** The arguments of an accepting call: the code for the leaf, and nothing for every repeat. */
  function AcceptArgs(b: Body, code: Value): Value {
    match b
    case ListBody(row) => RowV(true, AcceptSlots(row.slots, code))
    case SingleBody(_, s) => AcceptField(s, code)
  }

  function AcceptField(s: Shape, code: Value): Value {
    if s.Leaf? then code else Zero(s)
  }

  function AcceptSlots(slots: Slots, code: Value): Values {
    match slots
    case End => Nothing
    case Field(_, s, rest) => And(AcceptField(s, code), AcceptSlots(rest, code))
    case Nested(row, rest) => And(RowV(true, AcceptSlots(row.slots, code)), AcceptSlots(rest, code))
  }

  /** The arguments have the types the builder declares. */
  predicate Compiles(call: Call) {
    call.info.form.Some? ==> BodyTyped(call.info.form.value.body, AcceptArgs(call.info.form.value.body, call.code))
  }

  predicate TablesCompile(t: Tables) {
    forall key :: key in t.accept ==>
                    (t.accept[key].host.Some? ==> Compiles(t.accept[key].host.value)) &&
                    (t.accept[key].equipment.Some? ==> Compiles(t.accept[key].equipment.value))
  }

  /** The message a builder makes: its form's stream and function, the W-bit of a form that expects a reply, and its body. */
  function Send(call: Call): Message
    requires Compiles(call)
  {
    var info := call.info;
    Message(info.stream, info.function_, info.replyExpected,
            match info.form
            case None => Empty
            case Some(f) => BuildWhole(f.title, f.body, AcceptArgs(f.body, call.code)))
  }

  /** A sent message has its form's stream and function, and asks for a reply exactly when the form expects one. */
  lemma SendsAsDeclared(call: Call)
    requires Compiles(call)
    ensures var m := Send(call);
            && m.stream == call.info.stream && m.function_ == call.info.function_
            && (m.wait <==> call.info.replyExpected)
  {
  }

  // ----- lookup and reply -----

  function Lookup(t: Tables, stream: byte, function_: byte, sender: Role): Option<MessageInfo> {
    if !ValidRole(sender) then None
    else if (stream, function_) !in t.catalog then None
    else Some(t.catalog[(stream, function_)].Of(sender))
  }

  /** Byte addition: the successor of 255 is 0. */
  function Next(function_: byte): byte {
    (function_ + 1) % 0x100
  }

  function Builder(t: Tables, key: Key, replier: Role): Option<Call>
    requires ValidRole(replier)
  {
    if key in t.accept then t.accept[key].Of(replier) else None
  }

  function AcceptReply(t: Tables, stream: byte, function_: byte, replier: Role): Option<Message>
    requires TablesCompile(t)
  {
    if !ValidRole(replier) || function_ % 2 == 0 then None
    else
      var sender := Peer(replier);
      var primary := Lookup(t, stream, function_, sender);
      if primary.None? || primary.value.replyFunction != Next(function_) ||
         !Allows(primary.value.direction, sender) || !primary.value.replyExpected then None
      else
        var reply := Lookup(t, stream, Next(function_), replier);
        if reply.None? || !Allows(reply.value.direction, replier) then None
        else
          var build := Builder(t, (stream, Next(function_)), replier);
          if build.None? then None else Some(Send(build.value))
  }

  /** Each role has its own form of a message and its own accepting call: the host the first, equipment the second. */
  lemma EachRoleItsOwn(t: Tables, stream: byte, function_: byte, sender: Role)
    ensures var key := (stream, function_);
            && ROLE_HOST == 1 && ROLE_EQUIPMENT == 2
            && (key in t.catalog ==> Lookup(t, stream, function_, 1) == Some(t.catalog[key].host))
            && (key in t.catalog ==> Lookup(t, stream, function_, 2) == Some(t.catalog[key].equipment))
            && (key !in t.catalog || sender == 0 || sender > 2 ==> Lookup(t, stream, function_, sender) == None)
            && (key in t.accept ==> Builder(t, key, ROLE_HOST) == t.accept[key].host)
            && (key in t.accept ==> Builder(t, key, ROLE_EQUIPMENT) == t.accept[key].equipment)
            && (key !in t.accept ==> Builder(t, key, ROLE_HOST) == Builder(t, key, ROLE_EQUIPMENT) == None)
  {
  }

  // ----- well-formed tables -----

  /**
   Each entry describes its own key; a reply function is the one after the primary's or none,
   and a form of a reply expects none itself.
   */
  predicate EntryFits(key: Key, info: MessageInfo) {
    && info.stream == key.0 && info.function_ == key.1
    && key.1 < 0xFF
    && (info.replyFunction == 0 || (key.1 % 2 == 1 && info.replyFunction == key.1 + 1))
    && (key.1 % 2 == 0 ==> !info.replyExpected)
  }

  /**
   A body that can carry an acceptance: leaves of a declared type that can hold the code,
   repeats, and lists nested around these.
   */
  predicate Annotated(b: Body, code: Value) {
    match b
    case ListBody(row) => SlotsAnnotated(row.slots, code)
    case SingleBody(_, s) => FieldAnnotated(s, code)
  }

  predicate FieldAnnotated(s: Shape, code: Value) {
    match s
    case Leaf(kind) => LeafFits(kind, code) && !code.ItemV?
    case Repeat(_) => true
    case Items => true
    case _ => false
  }

  predicate SlotsAnnotated(slots: Slots, code: Value) {
    match slots
    case End => true
    case Field(_, s, rest) => FieldAnnotated(s, code) && SlotsAnnotated(rest, code)
    case Nested(row, rest) => SlotsAnnotated(row.slots, code) && SlotsAnnotated(rest, code)
  }

  /** Any leaf of a declared type may carry the code it can hold, alone or beside repeats. */
  lemma AnyTypedLeafMayAccept(kind: Kind, code: Value, name: string, other: string, elem: Shape)
    requires LeafFits(kind, code) && !code.ItemV?
    ensures Annotated(SingleBody(name, Leaf(kind)), code)
    ensures Annotated(ListBody(Row(2, Field(name, Leaf(kind), Field(other, Repeat(elem), End)))), code)
    ensures Annotated(ListBody(Row(2, Field(name, Leaf(kind), Field(other, Items, End)))), code)
    ensures Annotated(ListBody(Row(0, End)), code)
  {
    assert SlotsAnnotated(Field(other, Repeat(elem), End), code) && SlotsAnnotated(Field(other, Items, End), code);
  }

  /** A call in the table of accepting replies calls the builder of the catalog's own form for its key and role. */
  predicate CallFits(t: Tables, key: Key, replier: Role, call: Option<Call>)
    requires ValidRole(replier)
  {
    call.Some? ==>
      && key in t.catalog && call.value.info == t.catalog[key].Of(replier)
      && (call.value.info.form.Some? ==>
            var body := call.value.info.form.value.body;
            WellFormedBody(body) && Annotated(body, call.value.code))
  }

  predicate WellFormedTables(t: Tables) {
    && (forall key :: key in t.catalog ==>
                        EntryFits(key, t.catalog[key].host) && EntryFits(key, t.catalog[key].equipment))
    && (forall key :: key in t.accept ==>
                        CallFits(t, key, ROLE_HOST, t.accept[key].host) &&
                        CallFits(t, key, ROLE_EQUIPMENT, t.accept[key].equipment))
  }

  // ----- accepting calls make bodies that decode -----

  /** Every list a decoded body holds is empty. */
  predicate NothingReported(v: Value)
    decreases v
  {
    match v
    case ManyV(vs) => vs == []
    case SomeV(x) => NothingReported(x)
    case RowV(_, fields) => NothingInFields(fields)
    case _ => true
  }

  predicate NothingInFields(vs: Values)
    decreases vs
  {
    vs.And? ==> NothingReported(vs.value) && NothingInFields(vs.rest)
  }

  function FieldAt(vs: Values, k: nat): Option<Value> {
    if vs.Nothing? then None else if k == 0 then Some(vs.value) else FieldAt(vs.rest, k - 1)
  }

  /** One element in a repeat of a body, nested or not, is a report. */
  lemma {:induction false} AnyElementIsAReport(vs: Values, k: nat)
    requires FieldAt(vs, k).Some? && !NothingReported(FieldAt(vs, k).value)
    ensures forall full: bool :: !NothingReported(RowV(full, vs))
    ensures forall x: Value, xs: seq<Value> :: !NothingReported(ManyV([x] + xs))
    decreases k
  {
    if k > 0 {
      AnyElementIsAReport(vs.rest, k - 1);
      assert !NothingReported(RowV(true, vs.rest));
    }
  }

  lemma {:induction false} AcceptSlotsFit(slots: Slots, code: Value)
    requires WellFormedSlots(slots) && SlotsAnnotated(slots, code)
    ensures SlotsFit(slots, AcceptSlots(slots, code), Len(slots))
    ensures NothingInFields(AcceptSlots(slots, code))
  {
    match slots
    case End =>
    case Field(_, _, rest) => AcceptSlotsFit(rest, code);
    case Nested(row, rest) =>
      AcceptSlotsFit(row.slots, code);
      AcceptSlotsFit(rest, code);
  }

  /** An accepting call passes arguments that can be sent, and that report nothing. */
  lemma AcceptArgsFit(b: Body, code: Value)
    requires WellFormedBody(b) && Annotated(b, code)
    ensures BodyFits(b, AcceptArgs(b, code)) && NothingReported(AcceptArgs(b, code))
  {
    if b.ListBody? {
      AcceptSlotsFit(b.row.slots, code);
    }
  }

  /** Well-formed tables hold calls whose arguments have the declared types. */
  lemma WellFormedTablesCompile(t: Tables)
    requires WellFormedTables(t)
    ensures TablesCompile(t)
  {
    hide BodyFits, BodyTyped, WellFormedBody, Annotated, AcceptArgs;
    forall key | key in t.accept
      ensures t.accept[key].host.Some? ==> Compiles(t.accept[key].host.value)
      ensures t.accept[key].equipment.Some? ==> Compiles(t.accept[key].equipment.value)
    {
      CallCompiles(t, key, ROLE_HOST, t.accept[key].host);
      CallCompiles(t, key, ROLE_EQUIPMENT, t.accept[key].equipment);
    }
  }

  lemma CallCompiles(t: Tables, key: Key, replier: Role, call: Option<Call>)
    requires ValidRole(replier) && CallFits(t, key, replier, call)
    ensures call.Some? ==> Compiles(call.value)
  {
    if call.Some? && call.value.info.form.Some? {
      AcceptArgsFit(call.value.info.form.value.body, call.value.code);
    }
  }

  // ----- what AcceptReply promises -----

  /** The conditions the documentation gives, with the reply's function one above the primary's. */
  predicate CanAccept(t: Tables, stream: byte, function_: byte, replier: Role) {
    && ValidRole(replier)
    && function_ % 2 == 1
    && (stream, function_) in t.catalog
    && var primary := t.catalog[(stream, function_)].Of(Peer(replier));
       && primary.replyFunction != 0
       && Allows(primary.direction, Peer(replier))
       && primary.replyExpected
       && function_ < 0xFF
       && var key := (stream, (function_ + 1) as byte);
          && key in t.catalog
          && Allows(t.catalog[key].Of(replier).direction, replier)
          && Builder(t, key, replier).Some?
  }

  /** The body a form's own decoder reads, in either mode: the accepting code, with every list empty. */
  predicate DecodesAsAcceptance(form: Option<Form>, item: Item, code: Value) {
    match form
    case None => item == Empty
    case Some(f) =>
      var args := AcceptArgs(f.body, code);
      && DecodeWhole(f.title, f.body, item, false) == Ok(args)
      && DecodeWhole(f.title, f.body, item, true) == Ok(args)
      && NothingReported(args)
  }

  /**
   An accepting reply exists exactly when the documented conditions hold.
   It then has the primary's stream, the function after the primary's, and a clear W-bit,
   and the replier's own form decodes it to the accepting code.
   */
  lemma AcceptReplyIsExact(t: Tables, stream: byte, function_: byte, replier: Role)
    requires WellFormedTables(t)
    ensures TablesCompile(t)
    ensures AcceptReply(t, stream, function_, replier).Some? <==> CanAccept(t, stream, function_, replier)
    ensures AcceptReply(t, stream, function_, replier).Some? ==>
              var m := AcceptReply(t, stream, function_, replier).value;
              var reply := Lookup(t, stream, m.function_, replier);
              && m.stream == stream && m.function_ == function_ + 1 && !m.wait
              && reply.Some?
              && DecodesAsAcceptance(reply.value.form, m.item, Builder(t, (stream, m.function_), replier).value.code)
  {
    hide DecodesAsAcceptance, BodyTyped, BodyFits, WellFormedBody, Annotated, AcceptArgs, BuildWhole;
    WellFormedTablesCompile(t);
    if AcceptReply(t, stream, function_, replier).Some? {
      var key := (stream, Next(function_));
      assert key in t.accept;
      SentCallDecodes(t, key, replier, Builder(t, key, replier));
    }
  }

  lemma SentCallDecodes(t: Tables, key: Key, replier: Role, call: Option<Call>)
    requires ValidRole(replier) && CallFits(t, key, replier, call) && call.Some? && Compiles(call.value)
    ensures DecodesAsAcceptance(call.value.info.form, Send(call.value).item, call.value.code)
  {
    hide DecodeWhole, BodyFits, WellFormedBody, Annotated, AcceptArgs, BuildWhole;
    if call.value.info.form.Some? {
      var f, code := call.value.info.form.value, call.value.code;
      AcceptArgsFit(f.body, code);
      RoundTripExactly(f.title, f.body, AcceptArgs(f.body, code));
      StrictSuccessIsLenientSuccess(f.title, f.body, Send(call.value).item);
    }
  }

  /**
   Function 255 must stay out of the tables: whatever they hold, as long as each call makes the message of its own key,
   the reply's function is one above the primary's exactly when the primary's is not 255.
   */
  lemma FunctionWrapsExactlyAt255(t: Tables, stream: byte, function_: byte, replier: Role)
    requires TablesCompile(t)
    requires forall key :: key in t.accept ==>
                             (t.accept[key].host.Some? ==> t.accept[key].host.value.info.function_ == key.1) &&
                             (t.accept[key].equipment.Some? ==> t.accept[key].equipment.value.info.function_ == key.1)
    requires AcceptReply(t, stream, function_, replier).Some?
    ensures AcceptReply(t, stream, function_, replier).value.function_ == function_ + 1 <==> function_ != 0xFF
  {
    hide Compiles;
    assert (stream, Next(function_)) in t.accept;
  }

  /** Tables with a function 255 for which AcceptReply returns a function 0, since 0 also stands for no reply function. */
  lemma Function255IsMisanswered()
    ensures exists t: Tables ::
              TablesCompile(t) &&
              AcceptReply(t, 9, 0xFF, ROLE_HOST) == Some(Message(9, 0, false, Empty)) &&
              t.catalog[(9, 0xFF)].host.replyFunction == 0
  {
    var primary := MessageInfo(9, 0xFF, BIDIRECTIONAL, true, 0, None);
    var abort := MessageInfo(9, 0, BIDIRECTIONAL, false, 0, None);
    var answer := Some(Call(abort, NoneV));
    var t := Tables(map[(9, 0xFF) := Pair(primary, primary), (9, 0) := Pair(abort, abort)],
                    map[(9, 0) := Pair(answer, answer)]);
    assert TablesCompile(t);
    assert AcceptReply(t, 9, 0xFF, ROLE_HOST) == Some(Message(9, 0, false, Empty));
  }

  // ----- some rows of the generated tables -----

  /** S13F14 and S15F42: an acknowledge code and a list of errors. */
  function AckRow(name: string): Row {
    Row(2, Field(name, Leaf(KUint(W1)), Field("ERRORS", Repeat(Group("ErrorInfo", ERROR_INFO)), End)))
  }

  function AckValue(code: Uint8): Value {
    RowV(true, And(UintV(code), And(ManyV([]), Nothing)))
  }

  function AckItem(code: Uint8): Item {
    L([U(W1, code), L([])])
  }

  lemma AckBuilds(title: string, name: string, code: Uint8)
    ensures RowTyped(AckRow(name), AckValue(code)) && BuildBody(title, AckRow(name), AckValue(code)) == AckItem(code)
  {
    hide Spelled, Typed, RowTyped, SlotsTyped, Build, BuildRow, BuildSlots, L, U;
    var row, v, owner := AckRow(name), AckValue(code), title + " ";
    var items := [U(W1, code), L([])];
    NoErrorsBuild(owner + "ERRORS");
    SpellEnd(owner, items);
    SpellField(row.slots.rest, v.fields.rest, 1, owner, items, 1);
    SpellLeaf(row.slots, v.fields, 2, owner, items, 0);
    assert Len(row.slots.rest) == 1;
    SpellRow(row, v, owner, items);
  }

  lemma NoErrorsBuild(place: string)
    ensures Typed(Repeat(Group("ErrorInfo", ERROR_INFO)), ManyV([]))
    ensures Build(Repeat(Group("ErrorInfo", ERROR_INFO)), ManyV([]), place) == L([])
  {
    assert BuildElements(Group("ErrorInfo", ERROR_INFO), [], place) == [];
  }

  lemma AckFormFits(name: string, code: Uint8)
    ensures WellFormedBody(ListBody(AckRow(name))) && Annotated(ListBody(AckRow(name)), UintV(code))
    ensures AcceptArgs(ListBody(AckRow(name)), UintV(code)) == AckValue(code)
  {
    var row := AckRow(name);
    assert WellFormedRow(row) by {
      GroupsAreWellFormed();
      assert Len(row.slots.rest) == 1 && WellFormedSlots(row.slots.rest);
    }
    assert SlotsAnnotated(row.slots.rest, UintV(code));
    assert AcceptSlots(row.slots.rest, UintV(code)) == And(ManyV([]), Nothing);
  }

  /**
   Table data and recorder modify requests, which either side sends; event reports, which only equipment sends;
   and the establishing of communications, which the two sides send in different forms.
   */
  function SampleTables(): Tables {
    var tds := MessageInfo(13, 13, BIDIRECTIONAL, true, 14, Some(Form("S13F13", ListBody(S13F13_BODY))));
    var tda := MessageInfo(13, 14, BIDIRECTIONAL, false, 0, Some(Form("S13F14", ListBody(AckRow("TBLACK")))));
    var rmr := MessageInfo(15, 41, BIDIRECTIONAL, true, 42, Some(Form("S15F41", ListBody(S15F41_BODY))));
    var rma := MessageInfo(15, 42, BIDIRECTIONAL, false, 0, Some(Form("S15F42", ListBody(AckRow("RMACK")))));
    var ers := MessageInfo(6, 11, EQUIPMENT_TO_HOST, true, 12, Some(Form("S6F11", ListBody(S6F11_BODY))));
    var era := MessageInfo(6, 12, HOST_TO_EQUIPMENT, false, 0, Some(Form("S6F12", S6F12_BODY)));
    var s13f14, s15f42 := Some(Call(tda, UintV(0))), Some(Call(rma, UintV(0)));
    var s6f12 := Some(Call(era, ByteV(0)));
    var crHost := MessageInfo(1, 13, BIDIRECTIONAL, true, 14, Some(Form("S1F13", S1F13_HOST)));
    var crEquipment := MessageInfo(1, 13, BIDIRECTIONAL, true, 14, Some(Form("S1F13", S1F13_EQUIPMENT)));
    var craHost := MessageInfo(1, 14, BIDIRECTIONAL, false, 0, Some(Form("S1F14", S1F14_HOST)));
    var craEquipment := MessageInfo(1, 14, BIDIRECTIONAL, false, 0, Some(Form("S1F14", S1F14_EQUIPMENT)));
    var s1f14 := Some(Call(craHost, ByteV(0)));
    Tables(map[(13, 13) := Pair(tds, tds), (13, 14) := Pair(tda, tda),
               (15, 41) := Pair(rmr, rmr), (15, 42) := Pair(rma, rma),
               (6, 11) := Pair(ers, ers), (6, 12) := Pair(era, era),
               (1, 13) := Pair(crHost, crEquipment), (1, 14) := Pair(craHost, craEquipment)],
           map[(13, 14) := Pair(s13f14, s13f14), (15, 42) := Pair(s15f42, s15f42),
               (6, 12) := Pair(s6f12, s6f12), (1, 14) := Pair(s1f14, None)])
  }

  /** These rows meet the conditions. */
  lemma SampleTablesAreWellFormed()
    ensures WellFormedTables(SampleTables())
  {
    hide CallFits, AckRow;
    SampleCallsFit();
  }

  lemma SampleCallsFit()
    ensures var t := SampleTables();
            forall key :: key in t.accept ==>
                            CallFits(t, key, ROLE_HOST, t.accept[key].host) &&
                            CallFits(t, key, ROLE_EQUIPMENT, t.accept[key].equipment)
  {
    hide WellFormedBody, Annotated, AckRow;
    AckFormFits("TBLACK", 0);
    AckFormFits("RMACK", 0);
    LeafFormFits();
  }

  lemma LeafFormFits()
    ensures WellFormedBody(S6F12_BODY) && Annotated(S6F12_BODY, ByteV(0))
    ensures WellFormedBody(S1F14_HOST) && Annotated(S1F14_HOST, ByteV(0))
  {
    assert Len(S1F14_HOST.row.slots.rest) == 1 && WellFormedSlots(S1F14_HOST.row.slots.rest);
    assert SlotsAnnotated(S1F14_HOST.row.slots.rest, ByteV(0));
  }

  /** Either side accepts an S15F41 with S15F42. */
  lemma RecorderReplies()
    ensures TablesCompile(SampleTables())
    ensures AcceptReply(SampleTables(), 15, 41, ROLE_HOST) == Some(Message(15, 42, false, AckItem(0)))
    ensures AcceptReply(SampleTables(), 15, 41, ROLE_EQUIPMENT) == Some(Message(15, 42, false, AckItem(0)))
  {
    hide BodyTyped, AcceptArgs, BuildWhole, AckRow, AckItem, WellFormedTables;
    SampleTablesAreWellFormed();
    WellFormedTablesCompile(SampleTables());
    assert AcceptArgs(ListBody(AckRow("RMACK")), UintV(0)) == AckValue(0) by { AckFormFits("RMACK", 0); }
    assert BodyTyped(ListBody(AckRow("RMACK")), AckValue(0)) &&
           BuildWhole("S15F42", ListBody(AckRow("RMACK")), AckValue(0)) == AckItem(0) by { AckSends("S15F42", "RMACK", 0); }
  }

  /** The host accepts an S6F11 with S6F12, a single byte; equipment is never sent one. */
  lemma EventReplies()
    ensures TablesCompile(SampleTables())
    ensures AcceptReply(SampleTables(), 6, 11, ROLE_HOST) == Some(Message(6, 12, false, S6F12(0)))
    ensures AcceptReply(SampleTables(), 6, 11, ROLE_EQUIPMENT) == None
  {
    hide BodyTyped, AcceptArgs, BuildWhole, AckRow, WellFormedTables;
    SampleTablesAreWellFormed();
    WellFormedTablesCompile(SampleTables());
    assert AcceptArgs(S6F12_BODY, ByteV(0)) == ByteV(0) && BodyTyped(S6F12_BODY, ByteV(0)) &&
           BuildWhole("S6F12", S6F12_BODY, ByteV(0)) == S6F12(0) by { LeafSends(0); }
  }

  lemma AckSends(title: string, name: string, code: Uint8)
    ensures BodyTyped(ListBody(AckRow(name)), AckValue(code))
    ensures BuildWhole(title, ListBody(AckRow(name)), AckValue(code)) == AckItem(code)
  {
    hide RowTyped, BuildBody, AckItem;
    AckBuilds(title, name, code);
  }

  lemma LeafSends(code: byte)
    ensures AcceptArgs(S6F12_BODY, ByteV(code)) == ByteV(code) && BodyTyped(S6F12_BODY, ByteV(code))
    ensures BuildWhole("S6F12", S6F12_BODY, ByteV(code)) == S6F12(code)
  {
  }

  /** The host accepts an S1F13 with its own S1F14; equipment has no accepting reply, since its form carries data. */
  lemma RolesAnswerDifferently()
    ensures TablesCompile(SampleTables())
    ensures AcceptReply(SampleTables(), 1, 13, ROLE_HOST) == Some(Message(1, 14, false, S1F14Host(0)))
    ensures AcceptReply(SampleTables(), 1, 13, ROLE_EQUIPMENT) == None
    ensures Lookup(SampleTables(), 1, 14, ROLE_HOST) != Lookup(SampleTables(), 1, 14, ROLE_EQUIPMENT)
  {
    hide BodyTyped, AcceptArgs, BuildWhole, AckRow, WellFormedTables;
    SampleTablesAreWellFormed();
    WellFormedTablesCompile(SampleTables());
    assert AcceptArgs(S1F14_HOST, ByteV(0)) == RowV(true, And(ByteV(0), And(RowV(true, Nothing), Nothing))) &&
           BodyTyped(S1F14_HOST, AcceptArgs(S1F14_HOST, ByteV(0))) &&
           BuildWhole("S1F14", S1F14_HOST, AcceptArgs(S1F14_HOST, ByteV(0))) == S1F14Host(0) by { HostSends("S1F14", 0); }
    assert IDENTITY.short == 2 && NO_IDENTITY.short == 0;
  }

  lemma HostSends(title: string, code: byte)
    ensures AcceptArgs(S1F14_HOST, ByteV(code)) == RowV(true, And(ByteV(code), And(RowV(true, Nothing), Nothing)))
    ensures BodyTyped(S1F14_HOST, AcceptArgs(S1F14_HOST, ByteV(code)))
    ensures BuildWhole(title, S1F14_HOST, AcceptArgs(S1F14_HOST, ByteV(code))) == S1F14Host(code)
  {
    var row, owner := S1F14_HOST.row, title + " ";
    var v := AcceptArgs(S1F14_HOST, ByteV(code));
    var none: seq<Item> := [];
    var items := [B([code]), L(none)];
    assert AcceptSlots(row.slots.rest, ByteV(code)) == And(RowV(true, Nothing), Nothing);
    SpellEnd(owner, none);
    SpellRow(NO_IDENTITY, v.fields.rest.value, owner, none);
    SpellEnd(owner, items);
    SpellNested(row.slots.rest, v.fields.rest, 1, owner, items, 1);
    SpellLeaf(row.slots, v.fields, 2, owner, items, 0);
    assert Len(row.slots.rest) == 1;
    SpellRow(row, v, owner, items);
  }
}
