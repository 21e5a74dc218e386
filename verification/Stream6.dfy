/**
 S6F12 (Event Report Acknowledge), whose body is a single byte, and the shape of the S6F11 (Event Report Send) it answers.
 */
module Stream6 {
  import opened Secs2
  import opened Decoding
  import opened Shapes
  import opened Options
  import opened Bodies
  import opened Refinement

  // ----- S6F11 -----

  const REPORT: Row :=
    Row(2,
        Field("RPTID", Leaf(KScalar),
        Field("VALUES", Items,
        End)))

  const S6F11_BODY: Row :=
    Row(3,
        Field("DATAID", Leaf(KScalar),
        Field("CEID", Leaf(KScalar),
        Field("REPORTS", Repeat(Group("Report", REPORT)),
        End))))

  // ----- S6F12 -----

  datatype S6F12Reply = S6F12Reply(ackc6: byte)

  const S6F12_BODY: Body := SingleBody("ACKC6", Leaf(KByte))

  /** The body S6F12 sends. */
  function S6F12(ackc6: byte): Item {
    B([ackc6])
  }

  /** No option changes how a single byte is decoded. */
  method DecodeS6F12(item: Item, opts: seq<DecodeOption>) returns (out: S6F12Reply, err: Option<Error>)
    ensures Reports(err, ByteV(out.ackc6), DecodeWhole("S6F12", S6F12_BODY, item, Lenient(opts)))
  {
    out := S6F12Reply(0);
    var root := NewCursor(item);
    var ackc6 := DecodeByteAs(root, "ACKC6");
    if ackc6.Err? { return out, Some(ackc6.error); }
    out := out.(ackc6 := ackc6.value);
    return out, None;
  }

  /** Every code comes back. */
  method S6F12RoundTrip(ackc6: byte) returns (out: S6F12Reply, err: Option<Error>)
    ensures err == None && out == S6F12Reply(ackc6)
  {
    RoundTripExactly("S6F12", S6F12_BODY, ByteV(ackc6));
    out, err := DecodeS6F12(S6F12(ackc6), []);
  }
}
