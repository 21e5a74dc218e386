/**
 Whole message bodies, of both kinds: a list of fields, or a single field that is the body itself,
 such as an acknowledge code or a repeat of identifiers.
 The theorems about shapes and rows, at the root of a body and for any item.
 */
module Bodies {
  import opened Secs2
  import opened Decoding
  import opened Shapes
  import opened Acceptance
  import opened Building
  import opened RoundTrip
  import opened Places
  import opened NilRepair
  import opened Sending

  /** What a message's `Body:` line declares. */
  datatype Body = ListBody(row: Row) | SingleBody(name: string, shape: Shape)

  predicate WellFormedBody(b: Body) {
    match b
    case ListBody(row) => WellFormedRow(row)
    case SingleBody(_, s) => WellFormed(s)
  }

  /** DecodeSxFy of the message `title`. */
  function DecodeWhole(title: string, b: Body, item: Item, lenient: bool): Outcome<Value> {
    match b
    case ListBody(row) => DecodeBody(title, row, item, lenient)
    case SingleBody(name, s) => Decode(s, item, name, lenient)
  }

  predicate BodyTyped(b: Body, v: Value) {
    match b
    case ListBody(row) => RowTyped(row, v)
    case SingleBody(_, s) => Typed(s, v)
  }

  /** The body SxFy sends. */
  function BuildWhole(title: string, b: Body, v: Value): Item
    requires BodyTyped(b, v)
  {
    match b
    case ListBody(row) => BuildBody(title, row, v)
    case SingleBody(name, s) => Build(s, v, title + " " + name)
  }

  predicate BodyConforms(b: Body, item: Item) {
    match b
    case ListBody(row) => RowConforms(row, item)
    case SingleBody(_, s) => Conforms(s, item)
  }

  function PruneBody(b: Body, item: Item): Item {
    match b
    case ListBody(row) => PruneRow(row, item)
    case SingleBody(_, s) => Prune(s, item)
  }

  predicate BodyPads(b: Body, item: Item, padded: Item) {
    match b
    case ListBody(row) => RowPads(row, item, padded)
    case SingleBody(_, s) => Pads(s, item, padded)
  }

  function NormaliseBody(b: Body, item: Item): Item {
    match b
    case ListBody(row) => NormaliseRow(row, item)
    case SingleBody(_, s) => Normalise(s, item)
  }

  /** The empty item is no child of a list, but it may be all there is of an open body. */
  predicate EmptyAlone(b: Body, v: Value) {
    && b.SingleBody? && b.shape.Leaf?
    && (b.shape.kind.KScalar? || b.shape.kind.KScalarOrEmpty? || b.shape.kind.KAny?)
    && v == ItemV(Empty)
  }

  predicate BodyFits(b: Body, v: Value)
    ensures BodyFits(b, v) ==> BodyTyped(b, v)
  {
    match b
    case ListBody(row) => RowFits(row, v)
    case SingleBody(_, s) => Fits(s, v) || EmptyAlone(b, v)
  }

  // ----- acceptance -----

  /** A strict decoder succeeds exactly on the error-free bodies of its shape, whatever it is given. */
  lemma StrictAcceptsExactly(title: string, b: Body, item: Item)
    requires WellFormedBody(b)
    ensures DecodeWhole(title, b, item, false).Ok? <==> Readable(item) && BodyConforms(b, item)
  {
    match b
    case ListBody(row) => StrictBodyAcceptsExactly(title, row, item);
    case SingleBody(name, s) =>
      if Readable(item) {
        AcceptsExactly(s, item, name);
      } else {
        OnlyReadableDecodes(s, item, name);
      }
  }

  lemma OnlyReadableDecodes(s: Shape, item: Item, place: string)
    requires WellFormed(s) && !Readable(item)
    ensures Decode(s, item, place, false).Err?
  {
  }

  /** The empty item is read at an open position, and nowhere else. */
  lemma EmptyDecodes(name: string, s: Shape, lenient: bool)
    requires WellFormed(s)
    ensures Prune(s, Empty) == Empty && Normalise(s, Empty) == Empty
    ensures Conforms(s, Empty) <==> EmptyAlone(SingleBody(name, s), ItemV(Empty))
    ensures var r := Decode(s, Empty, name, lenient);
            && r == Decode(s, Empty, name, false)
            && if Conforms(s, Empty) then r == Ok(ItemV(Empty)) else r.Err?
  {
    match s
    case Leaf(kind) => LeafAcceptsExactly(kind, Empty, name);
    case Optional(kind) => LeafAcceptsExactly(kind, Empty, name);
    case _ =>
  }

  /** AllowTrailing decodes an error-free body as the strict decoder decodes its pruned form, error for error. */
  lemma LenientIsStrictOfPruned(title: string, b: Body, item: Item)
    requires WellFormedBody(b) && Readable(item)
    ensures DecodeWhole(title, b, item, true) == DecodeWhole(title, b, PruneBody(b, item), false)
  {
    match b
    case ListBody(row) => LenientBodyIsStrictAfterPruning(title, row, item);
    case SingleBody(name, s) =>
      if Usable(item) {
        LenientIsStrictAfterPruning(s, item, name);
      } else {
        EmptyDecodes(name, s, true);
      }
  }

  /** A body the strict decoder accepts decodes to the same value with AllowTrailing. */
  lemma StrictSuccessIsLenientSuccess(title: string, b: Body, item: Item)
    requires WellFormedBody(b) && DecodeWhole(title, b, item, false).Ok?
    ensures DecodeWhole(title, b, item, true) == DecodeWhole(title, b, item, false)
  {
    hide DecodeWhole;
    StrictAcceptsExactly(title, b, item);
    match b {
      case ListBody(row) => ConformingRowIsPruned(row, item);
      case SingleBody(_, s) => ConformingIsPruned(s, item);
    }
    LenientIsStrictOfPruned(title, b, item);
  }

  /**
   Children appended anywhere past the declared ones never change a result:
   the padded body decodes as the body it was padded from, and as the strict decoder decodes a conforming one.
   */
  lemma PaddingNeverMatters(title: string, b: Body, item: Item, padded: Item)
    requires WellFormedBody(b) && Readable(item) && Readable(padded) && BodyPads(b, item, padded)
    ensures DecodeWhole(title, b, padded, true) == DecodeWhole(title, b, item, true)
    ensures BodyConforms(b, item) ==> DecodeWhole(title, b, padded, true) == DecodeWhole(title, b, item, false)
  {
    hide DecodeWhole, BodyConforms;
    LenientIsStrictOfPruned(title, b, item);
    LenientIsStrictOfPruned(title, b, padded);
    match b {
      case ListBody(row) => RowPaddingIsPruned(row, item, padded);
      case SingleBody(_, s) => PaddingIsPruned(s, item, padded);
    }
    if BodyConforms(b, item) {
      StrictAcceptsExactly(title, b, item);
      StrictSuccessIsLenientSuccess(title, b, item);
    }
  }

  lemma NilIsUnreachable(s: Shape, item: Item, place: string, lenient: bool)
    requires item.Nil?
    ensures Decode(s, item, place, lenient) == Refuse(place, Unreachable)
  {
    match s
    case Leaf(kind) =>
      match kind { case KText => case _ => }
    case _ =>
  }

  /** A body decoder reports an unreachable position only for a nil body, and then the body itself. */
  lemma OnlyANilBodyIsUnreachable(title: string, b: Body, item: Item, lenient: bool)
    ensures var r := DecodeWhole(title, b, item, lenient);
            (r.Err? && r.error.reason == Unreachable) <==> item.Nil?
    ensures item.Nil? ==>
              DecodeWhole(title, b, item, lenient) == Refuse(BodyPlace(title, b, []).value, Unreachable)
  {
    match b
    case ListBody(row) =>
      if !item.Nil? { EveryRowHopReaches(row, item, "", title + " body", lenient); }
    case SingleBody(name, s) =>
      if item.Nil? { NilIsUnreachable(s, item, name, lenient); } else { EveryHopReaches(s, item, name, lenient); }
  }

  // ----- round trips -----

  /** Of all arguments a builder takes, exactly those that can be sent come back from the strict decoder. */
  lemma RoundTripExactly(title: string, b: Body, v: Value)
    requires WellFormedBody(b) && BodyTyped(b, v)
    ensures DecodeWhole(title, b, BuildWhole(title, b, v), false) == Ok(v) <==> BodyFits(b, v)
    ensures DecodeWhole(title, b, BuildWhole(title, b, v), false).Ok? <==> BodyFits(b, v)
  {
    match b
    case ListBody(row) => BodyRoundTripExactly(title, row, v);
    case SingleBody(name, s) => SingleRoundTrip(name, s, v, title + " " + name);
  }

  lemma SingleRoundTrip(name: string, s: Shape, v: Value, owner: string)
    requires WellFormed(s) && Typed(s, v)
    ensures Decode(s, Build(s, v, owner), name, false) == Ok(v) <==> BodyFits(SingleBody(name, s), v)
    ensures Decode(s, Build(s, v, owner), name, false).Ok? <==> BodyFits(SingleBody(name, s), v)
  {
    var item := Build(s, v, owner);
    if Fits(s, v) {
      DecodeOfBuild(s, v, owner, name);
    } else if !EmptyAlone(SingleBody(name, s), v) {
      OnlyAloneIsEmpty(name, s, v, owner);
      hide Decode, Build, Fits, Conforms;
      if Decode(s, item, name, false).Ok? {
        StrictAcceptsExactly("", SingleBody(name, s), item);
        ConformingBuildFits(s, v, owner);
        assert false;
      }
    }
  }

  /** Among built items only the empty one is readable without being usable as a child. */
  lemma OnlyAloneIsEmpty(name: string, s: Shape, v: Value, owner: string)
    requires WellFormed(s) && Typed(s, v)
    ensures Build(s, v, owner) == Empty <==> EmptyAlone(SingleBody(name, s), v)
    ensures Build(s, v, owner) != Empty ==> ChildErrors(Build(s, v, owner)) == Errors(Build(s, v, owner))
  {
    BuiltIsPresent(s, v, owner);
  }

  /** Different values that can be sent have different bodies. */
  lemma BodiesAreDistinct(title: string, b: Body, v: Value, w: Value)
    requires WellFormedBody(b) && BodyFits(b, v) && BodyFits(b, w)
    requires BuildWhole(title, b, v) == BuildWhole(title, b, w)
    ensures v == w
  {
    RoundTripExactly(title, b, v);
    RoundTripExactly(title, b, w);
  }

  /** What a decoder keeps of a body: all of it, or with AllowTrailing its pruned form. */
  function KeptOf(b: Body, item: Item, lenient: bool): Item {
    if lenient then PruneBody(b, item) else item
  }

  /**
   In either mode a body decodes exactly when what is kept of it conforms;
   building it again then normalises what is kept, and decodes strictly to the same value.
   */
  lemma RebuildsExactly(title: string, b: Body, item: Item, lenient: bool)
    requires WellFormedBody(b) && (Clean(item) || item == Empty)
    ensures DecodeWhole(title, b, item, lenient).Ok? <==> BodyConforms(b, KeptOf(b, item, lenient))
    ensures DecodeWhole(title, b, item, lenient).Ok? ==>
              var v := DecodeWhole(title, b, item, lenient).value;
              && BodyFits(b, v)
              && BuildWhole(title, b, v) == NormaliseBody(b, KeptOf(b, item, lenient))
              && DecodeWhole(title, b, BuildWhole(title, b, v), false) == Ok(v)
  {
    match b
    case ListBody(row) =>
      if Clean(item) {
        BodyRebuildExactly(title, row, item, lenient);
      }
    case SingleBody(name, s) =>
      if Clean(item) {
        SingleRebuild(title, name, s, item, lenient);
      } else {
        EmptyDecodes(name, s, lenient);
      }
  }

  lemma SingleRebuild(title: string, name: string, s: Shape, item: Item, lenient: bool)
    requires WellFormed(s) && Clean(item)
    ensures var b := SingleBody(name, s);
            && (Decode(s, item, name, lenient).Ok? <==> Conforms(s, KeptOf(b, item, lenient)))
            && (Decode(s, item, name, lenient).Ok? ==>
                  var v := Decode(s, item, name, lenient).value;
                  && Fits(s, v)
                  && Build(s, v, title + " " + name) == Normalise(s, KeptOf(b, item, lenient))
                  && Decode(s, Build(s, v, title + " " + name), name, false) == Ok(v))
  {
    hide Decode, Build, Normalise, Conforms, Prune, Fits;
    var kept := KeptOf(SingleBody(name, s), item, lenient);
    CleanIsUsable(item);
    PruneClean(s, item);
    CleanIsUsable(kept);
    if lenient {
      LenientIsStrictAfterPruning(s, item, name);
    }
    AcceptsExactly(s, kept, name);
    if Decode(s, kept, name, false).Ok? {
      BuildOfDecode(s, kept, title + " " + name, name);
      DecodeOfBuild(s, Decode(s, kept, name, false).value, title + " " + name, name);
    }
  }

  // ----- bodies that are sent -----

  predicate BodyScalars(b: Body, v: Value)
    requires BodyTyped(b, v)
  {
    match b
    case ListBody(row) => RowScalars(row, v)
    case SingleBody(_, s) => Scalars(s, v)
  }

  predicate BodyWithinLimits(b: Body, v: Value)
    requires BodyTyped(b, v)
  {
    match b
    case ListBody(row) => RowWithinLimits(row, v)
    case SingleBody(_, s) => WithinLimits(s, v)
  }

  ghost predicate BodyPartsFine(title: string, b: Body, v: Value)
    requires BodyTyped(b, v)
  {
    match b
    case ListBody(row) => RowPartsFine(row, v, title + " ")
    case SingleBody(name, s) => PartsFine(s, v, title + " " + name)
  }

  /**
   A built body carries an error exactly when a supplied item at some position is nil, empty or already in error,
   or a size is past the limit. An empty item that is the whole body is none.
   */
  lemma SentExactly(title: string, b: Body, v: Value)
    requires WellFormedBody(b) && BodyTyped(b, v)
    ensures Errors(BuildWhole(title, b, v)) == [] <==>
            EmptyAlone(b, v) || (BodyWithinLimits(b, v) && BodyPartsFine(title, b, v))
  {
    match b
    case ListBody(row) =>
      BodyErrors(title, row, v);
      RowErrorFreeExactly(row, v, title + " ");
    case SingleBody(name, s) =>
      OnlyAloneIsEmpty(name, s, v, title + " " + name);
      BuiltErrors(s, v, title + " " + name);
      ErrorFreeExactly(s, v, title + " " + name);
  }

  /** A body that is sent is taken back by its own strict decoder exactly when no list stands in a scalar position. */
  lemma SentDecodesExactly(title: string, b: Body, v: Value)
    requires WellFormedBody(b) && BodyTyped(b, v) && Errors(BuildWhole(title, b, v)) == []
    ensures DecodeWhole(title, b, BuildWhole(title, b, v), false).Ok? <==> BodyScalars(b, v)
    ensures BodyScalars(b, v) ==> DecodeWhole(title, b, BuildWhole(title, b, v), false) == Ok(v)
  {
    hide DecodeWhole;
    RoundTripExactly(title, b, v);
    match b
    case ListBody(row) =>
      BodyErrors(title, row, v);
      RowFitsExactly(row, v, title + " ");
    case SingleBody(name, s) =>
      OnlyAloneIsEmpty(name, s, v, title + " " + name);
      BuiltErrors(s, v, title + " " + name);
      FitsExactly(s, v, title + " " + name);
  }

  // ----- errors -----

  function BodyPlace(title: string, b: Body, path: Path): Option<string> {
    match b
    case ListBody(row) => PlaceInRow(row, "", title + " body", path)
    case SingleBody(name, s) => PlaceOf(s, name, path)
  }

  predicate BodyFailsAt(b: Body, item: Item, path: Path, lenient: bool) {
    match b
    case ListBody(row) => RowFailsAt(row, item, path, lenient)
    case SingleBody(_, s) => FailsAt(s, item, path, lenient)
  }

  ghost predicate FirstFailingInBody(b: Body, item: Item, lenient: bool, p: Path) {
    match b
    case ListBody(row) => FirstFailingInRow(row, item, lenient, p)
    case SingleBody(_, s) => FirstFailing(s, item, lenient, p)
  }

  predicate BodyNamesDistinct(title: string, b: Body) {
    match b
    case ListBody(row) => GoodName(title) && SlotNamesDistinct(row.slots)
    case SingleBody(_, s) => NamesDistinct(s)
  }

  /** The error of a body decoder is about the first failing position, in either mode, whatever the item. */
  lemma FirstFailureIsReported(title: string, b: Body, item: Item, lenient: bool) returns (p: Path)
    requires WellFormedBody(b)
    ensures DecodeWhole(title, b, item, lenient).Ok? ==> forall q :: !BodyFailsAt(b, item, q, lenient)
    ensures DecodeWhole(title, b, item, lenient).Err? ==>
              FirstFailingInBody(b, item, lenient, p) &&
              BodyPlace(title, b, p) == Some(DecodeWhole(title, b, item, lenient).error.place)
  {
    hide DecodeBody, Decode, RowFailsAt, FailsAt, PlaceInRow, PlaceOf, FirstFailing, FirstFailingInRow;
    match b
    case ListBody(row) => p := BodyFirstFailureWins(title, row, item, lenient);
    case SingleBody(name, s) => p := FirstFailureWins(s, item, name, lenient);
  }

  /** An error names one position: a position whose name is the one reported is the first failing one. */
  lemma EveryErrorNamesTheFirstFailure(title: string, b: Body, item: Item, lenient: bool, p: Path)
    requires WellFormedBody(b) && BodyNamesDistinct(title, b) && DecodeWhole(title, b, item, lenient).Err?
    requires BodyPlace(title, b, p) == Some(DecodeWhole(title, b, item, lenient).error.place)
    ensures FirstFailingInBody(b, item, lenient, p)
  {
    hide DecodeBody, Decode, PlaceInRow, PlaceOf, FirstFailing, FirstFailingInRow;
    match b
    case ListBody(row) => ErrorNamesTheFirstFailure(title, row, item, lenient, p);
    case SingleBody(name, s) =>
      var first := FirstFailureWins(s, item, name, lenient);
      PlacesAreUnambiguous(s, name, first, p);
  }
}
