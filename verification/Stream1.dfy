/**
 S1F3 (Selected Equipment Status Request), whose body is a repeat of identifiers,
 and the shapes of S1F13 and S1F14 (Establish Communications), which the two sides send in different forms.
 */
module Stream1 {
  import opened Secs2
  import opened Decoding
  import opened Shapes
  import opened Building
  import opened Options
  import opened Bodies
  import opened Refinement

  // ----- S1F13 and S1F14 -----

  const IDENTITY: Row :=
    Row(2,
        Field("MDLN", Leaf(KText),
        Field("SOFTREV", Leaf(KText),
        End)))

  /** The host sends an empty list where equipment identifies itself. */
  const NO_IDENTITY: Row := Row(0, End)

  const S1F13_EQUIPMENT: Body := ListBody(IDENTITY)
  const S1F13_HOST: Body := ListBody(NO_IDENTITY)

  const S1F14_EQUIPMENT: Body := ListBody(Row(2, Field("COMMACK", Leaf(KByte), Nested(IDENTITY, End))))
  const S1F14_HOST: Body := ListBody(Row(2, Field("COMMACK", Leaf(KByte), Nested(NO_IDENTITY, End))))

  /** The body S1F14Host sends. */
  function S1F14Host(commack: byte): Item {
    L([
      B([commack]),
      L([])
    ])
  }

  // ----- S1F3 -----

  datatype S1F3Body = S1F3Body(svids: seq<Item>)

  const S1F3_BODY: Body := SingleBody("SVIDS", Repeat(Leaf(KScalar)))

  /** The body S1F3 sends. */
  function S1F3(svids: seq<Item>): Item {
    L(PresentEach(svids, "S1F3" + " " + "SVIDS"))
  }

  /** No option changes how a repeat of scalars is decoded. */
  method DecodeS1F3(item: Item, opts: seq<DecodeOption>) returns (out: S1F3Body, err: Option<Error>)
    ensures Reports(err, PackMany(PackItem)(out.svids), DecodeWhole("S1F3", S1F3_BODY, item, Lenient(opts)))
  {
    out := S1F3Body([]);
    var root := NewCursor(item);
    ScalarsImplement(root, "SVIDS", Lenient(opts));
    hide Decode, Each, PackMany;
    var svids := DecodeEach(root, "SVIDS", DecodeScalarItem);
    if svids.Err? { return out, Some(svids.error); }
    out := out.(svids := svids.value);
    return out, None;
  }

  /** Of all arguments, exactly those that can be sent come back, and come back unchanged. */
  method S1F3RoundTrip(svids: seq<Item>) returns (out: S1F3Body, err: Option<Error>)
    ensures err.None? <==> BodyFits(S1F3_BODY, PackMany(PackItem)(svids))
    ensures err.None? ==> out.svids == svids
  {
    var v := PackMany(PackItem)(svids);
    ScalarsBuild(svids, "S1F3" + " " + "SVIDS");
    hide Typed, Build, BodyFits, PackMany;
    RoundTripExactly("S1F3", S1F3_BODY, v);
    hide DecodeWhole;
    out, err := DecodeS1F3(S1F3(svids), []);
    ManyIsInjective(PackItem);
  }
}
