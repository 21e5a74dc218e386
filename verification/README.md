# Typed SECS-II message bodies

A Dafny model of the message codec of the Go package `gem`, which builds and decodes the bodies of SEMI E5 messages:
the helpers of `gem/decode.go`, groups of `gem/groups.go`, nine message bodies, and the reply selection of `gem/catalog.go`.

A body is a tree of SECS-II items.
A builder turns typed arguments into such a tree, and a decoder reads one back, checking every length and type on the way.
Decoding is strict, or with `AllowTrailing` it passes over children beyond the declared ones.

## How the model is laid out

- `Secs2`: items, the errors they carry, their constructors, and the cursor a decoder walks with.
- `Decimal`: indices as they appear in names.
- `Decoding`: the decode helpers over a cursor.
- `Shapes`: what a body declares (lists, repeats, groups, lists with a short form, fields that may be left out),
  the decoder of a shape, the language it accepts, and the pruned form of an item.
- `Building`: the builder of a shape, the values that can be sent, and the normal form of an item.
- `Acceptance`, `RoundTrip`, `Places`, `NilRepair`, `Sending`, `Forms`: the theorems, each by induction over all shapes and all items.
- `Bodies`: the same for whole bodies, which are a list of fields or a single field.
- `Options`: the settings object of a call and the one all strict calls share, on the heap.
- `Refinement`: what ties a decoder over a cursor, and a builder, to a shape.
- `Groups`, `Stream1`, `Stream2`, `Stream6`, `Stream12`, `Stream13`, `Stream15`, `Stream16`, `Stream17`: the decoders and builders of the code, step by step,
  each proved to be the decoder and the builder of its shape.
  A method `SxFyRoundTrip` or `SxFyRebuild` then puts the code's own builder and decoder together.
- `Catalog`: message lookup and accepting replies, over any well-formed tables.

The group decoders are functions, because `decodeEach` and `decodeOptionalGroup` take them as values.
Body decoders are methods that fill their result field by field and return early.
`nilItem`, `presentEach`, `decodeEach`, `valueItems`, `groupItems`, `indexedItems` and `newDecodeConfig` keep their loops.

## What the model takes as given

- A list holds its children's errors; an untyped nil child vanishes from a list, and a typed nil one puts it in error (`secs2/list.go:40-68`, `secs2/list.go:225-252`).
- Lists, texts and binaries are limited to 2^24 - 1 children or bytes, and a constructor past the limit returns an item in error (`secs2/item.go:12`).
- A character of a text stands for one byte.
- An item in error answers as a list that carries the error (`secs2/list.go:87-95`).
- Every declared shape meets `WellFormedRow`, which the generator checks: only numbers, booleans and single bytes may be sent zero-length (`tools/gemgen/load.go:887-927`). Unambiguous names need the names of one struct to be distinct, which it also checks (`tools/gemgen/load.go:946-997`).

## Where the code falls short of a wider claim

- A builder looks for nil items and errors, not for lists. A list given where only scalars may stand is sent, and the message's own decoder refuses it (`S2F45ListIsSentAndRefused`). Of the bodies sent without an error, exactly those with no list in a scalar position come back (`SentDecodesExactly`).
- A body carries an error exactly when a supplied item is nil, empty or in error or a size is past the limit (`SentExactly`), with one exception: the empty item is an error as a child, and none as the whole body.
- A text that may be left out would not survive when empty (`OptionalTextRoundTripsExactly`); no message declares one.
- `AcceptReply` adds one to a byte. For function 255 it would look for function 0, which also stands for "no reply" (`Function255IsMisanswered`); the reply is right exactly below 255 (`FunctionWrapsExactlyAt255`), and no catalog row has function 255.

## Model

| member | source | states |
|---|---|---|
| Secs2.ChildrenAreSound | secs2/list.go:225-252 | a list carries no error exactly when no child is nil, empty or itself in error |
| Secs2.ErrorFreeIsSound | secs2/list.go:225-252 | an item carries no error exactly when no child at any depth is nil, empty or failed |
| Secs2.OnlyNilVanishes | secs2/list.go:40-68 | a list loses exactly its untyped nil children and keeps the others in their order |
| Secs2.ConstructorsKeepTheirValues | secs2/ascii.go:31-43 | up to three length bytes a list, text, binary or boolean item holds its values as given, and past them it fails |
| Secs2.NumbersAreNearest | secs2/uint.go:44-70 | a number item holds the value of its width that is nearest to the one given |
| Secs2.HopExactly | secs2/cursor.go:91-126 | a hop reaches a child exactly when there is a list, the index is in range, and the child is not nil |
| Secs2.PathsCompose | secs2/cursor.go:91-126 | a path is walked one part after the other, so At(3, 2) is At(3).At(2) |
| Secs2.HopReaches | secs2/cursor.go:91-126 | below an error-free list a hop with an index in range reaches that child |
| Decimal.ItoaIsDecimal | gem/decode.go:187-201 | an index is rendered as its decimal numeral, without leading zeros |
| Decimal.ItoaInjective | gem/decode.go:528-537 | different indices are rendered differently |
| Decimal.IndicesInjective | gem/decode.go:187-201 | rendered index sequences of any length are equal only if the sequences are |
| Decoding.DecodeEach | gem/decode.go:187-201 | the loop that fills a slice returns every element in order, or the error of the first element that has one |
| Decoding.NarrowingUintIsExact | gem/decode.go:403-419 | the wrap-around test keeps exactly the unsigned values of the target width |
| Decoding.NarrowingIntIsExact | gem/decode.go:421-437 | the wrap-around test keeps exactly the two's-complement range of the target width |
| Decoding.DecodedNumberIsTheWireNumber | gem/decode.go:403-437 | a number decodes to itself, whatever width it was sent at, exactly when the declared width holds it, and is otherwise an overflow |
| Decoding.DecodedLeafIsTheWireValue | gem/decode.go:258-401 | a flag, a byte, a text, bytes or an open item decodes to exactly what is on the wire |
| Decoding.RefusedLeavesSayWhy | gem/decode.go:258-401 | a wrong type, a wrong number of values, a list, or a carried error is refused as such, at the field |
| Decoding.ListsAreTheirChildren | gem/decode.go:106-121 | an error-free list is handed over as its children; anything else is refused as no list or as carrying an error |
| Acceptance.AcceptsExactly | gem/decode.go:106-201 | for every shape and every error-free item the strict decoder succeeds exactly on the shape's language, at full depth |
| Acceptance.LenientIsStrictAfterPruning | gem/decode.go:125-161 | decoding with AllowTrailing gives the value, or the error at the same place, of strict decoding of the pruned item |
| Acceptance.ConformingIsPruned | gem/decode.go:228-248 | pruning leaves an item of the strict language unchanged |
| Acceptance.PaddingIsPruned | gem/decode.go:27-43 | children appended past the declared ones, at any depth, are cut by pruning |
| Acceptance.PrunedIsPadded | gem/decode.go:27-43 | pruning cuts nothing else: every item is its pruned form with children appended |
| Acceptance.AppendedChildrenArePruned | gem/decode.go:125-161 | children appended to a full list are what pruning cuts |
| Acceptance.EveryHopReaches | gem/decode.go:187-201 | in either mode no position inside an item that is there is reported as unreachable |
| RoundTrip.DecodeOfBuild | gem/doc.go:102-114 | for every shape, a value that can be sent is built error-free and decodes strictly to itself |
| RoundTrip.BuildOfDecode | gem/decode.go:261-437 | for every shape, building what was decoded from an error-free item gives the item with each typed number at its declared width and everything else unchanged |
| Bodies.StrictAcceptsExactly | gem/doc.go:115-142 | a strict decoder succeeds exactly on the error-free bodies of its shape, for list and single-field bodies and for any item at all |
| Bodies.LenientIsStrictOfPruned | gem/decode.go:27-43 | for every error-free body, decoding with AllowTrailing gives the value, or the error at the same place, of strict decoding of the pruned body |
| Bodies.StrictSuccessIsLenientSuccess | gem/decode.go:27-43 | what decodes strictly decodes to the same value with AllowTrailing |
| Bodies.PaddingNeverMatters | gem/decode.go:27-43 | children appended past the declared ones, at any depth, never change what AllowTrailing decodes, and a padded conforming body decodes as strict decoding of the body without them |
| Bodies.OnlyANilBodyIsUnreachable | gem/decode.go:106-161 | a body decoder reports an unreachable position exactly when the body is nil, and then it reports the body |
| Bodies.RoundTripExactly | gem/doc.go:102-114 | of all arguments a builder takes, exactly those that can be sent come back from its strict decoder, for list and single-field bodies |
| Bodies.BodiesAreDistinct | gem/doc.go:102-114 | different values that can be sent have different bodies |
| Bodies.RebuildsExactly | gem/decode.go:261-437 | in either mode a body decodes exactly when what is kept of it conforms, and building it again gives the normal form of what is kept, which decodes strictly to the same value |
| Bodies.SentExactly | gem/decode.go:502-587 | a built body carries an error exactly when a supplied item at some position is nil, empty or in error, or a size is past the limit |
| Bodies.SentDecodesExactly | gem/decode.go:274-291 | a body that is sent without an error is taken back by its own strict decoder exactly when no list stands in a scalar position |
| Bodies.FirstFailureIsReported | gem/s15_decode.go:1059-1088 | the reported error is about the first failing position of the body, in either mode and for any item |
| Bodies.EveryErrorNamesTheFirstFailure | gem/doc.go:115-142 | a position whose name is the one reported is the first failing position |
| Places.BeforeIsLexicographic | gem/decode.go:187-209 | declaration order is the lexicographic order of child indices |
| Places.BeforeIsStrict | gem/decode.go:187-209 | no two positions each come before the other, and a position never comes before itself or what it holds |
| Places.FailuresInRepeatsAreLocal | gem/decode.go:187-201 | whether an element fails does not depend on the elements beside it |
| Places.FailuresInRowsAreLocal | gem/decode.go:125-161 | whether a field fails does not depend on the fields beside it |
| Places.FirstFailureWins | gem/decode.go:187-209 | the reported error is about the failing position that comes first in declaration order, index by index, and success means that no position fails |
| Places.PlacesAreUnambiguous | gem/decode.go:187-201 | with sibling names distinct and free of brackets, dots and spaces, no two positions of a shape have the same name, over index sequences of any length |
| Places.BodyPlacesAreUnambiguous | tools/gemgen/load.go:946-997 | no two positions of a message body, its own nested lists included, have the same name |
| NilRepair.NilItemAt | gem/decode.go:528-537 | the loop renders the indices after the name, one bracketed index each |
| NilRepair.PresentEachOf | gem/decode.go:555-575 | the result is the caller's own slice when no element is nil, else a fresh slice with each nil element replaced under its own index; neither argument is written to |
| NilRepair.BuiltErrors | gem/decode.go:539-548 | for every shape and every argument tree, the built item carries exactly the complaints about its arguments, in declaration order |
| NilRepair.BodyErrors | gem/decode.go:502-587 | a built body carries exactly the complaints about its arguments, so an error if and only if there is one |
| NilRepair.PartsKeepTheirPlace | gem/decode.go:539-587 | each supplied item, or in place of a nil one the error that names it, stays at its own path, and each list keeps its declared length, however many siblings are nil |
| NilRepair.NamesAgree | gem/decode.go:525-575 | an item supplied to a builder and the item its decoder reads at the same path are named alike: after the name of the innermost group on one side and after its place on the other, by the same field and indices |
| Sending.FitsExactly | gem/decode.go:539-548 | a value can be sent and comes back exactly when there is nothing to complain about and no list stands in a scalar position |
| Sending.ErrorFreeExactly | gem/decode.go:539-587 | there is nothing to complain about exactly when no limit is passed and the item supplied at every position is usable |
| Forms.OmittedLeafIsUnambiguous | gem/decode.go:311-350 | nil is decoded exactly from the zero-length item of the declared type, and every other empty item is an error |
| Forms.OmittedLeavesAreZeroLength | gem/decode.go:311-333 | nil is decoded exactly from no byte, no flag, or a number item of no value, for any item at all |
| Forms.AnyWidthMayBeOmitted | gem/decode.go:311-333 | a number item of no value stands for nil at any width, not only the declared one |
| Forms.OmittableExactly | tools/gemgen/load.go:887-927 | a leaf may be left out exactly when every value of its type fills the item it is sent as |
| Forms.ZerosAreGoZeros | gem/decode.go:138-161 | an omitted field has the zero value of its Go type |
| Forms.OnlyNilIsSentEmpty | gem/decode.go:470-479 | only nil is sent zero-length, so a pointer to a zero value is sent as that value |
| Forms.OptionalTextRoundTripsExactly | tools/gemgen/load.go:914-927 | an optional text would come back exactly when it is not empty, which is why the generator refuses one |
| Forms.OmittedGroupIsUnambiguous | gem/decode.go:228-248 | L[0] and nothing else decodes as a nil group, in either mode |
| Forms.OnlyNilGroupIsSentEmpty | gem/decode.go:491-500 | only a nil group is sent as L[0], whatever its fields hold |
| Forms.FormsAreDisjoint | gem/decode.go:138-161 | no short body is ever a full one, whatever was supplied |
| Forms.OtherLengthsAreRefused | gem/decode.go:123-161 | any other length is refused with the length got and the lengths declared, in both modes below the full one |
| Forms.OtherGroupLengthsAreRefused | gem/decode.go:228-248 | an optional group of any other length is refused with the length got and the full one |
| Forms.OmittedFieldsAreZero | gem/decode.go:138-161 | a short list leaves the zero value in every omitted field |
| Options.NewDecodeConfig | gem/decode.go:45-64 | the settings are the shared ones without options and fresh ones otherwise, lenient exactly when the options hold AllowTrailing, and the shared ones stay as they were |
| Options.ModesOfRun | gem/decode.go:20-64 | over any run of calls with any options, each call gets the mode its own options select |
| Refinement.EachImplements | gem/decode.go:181-209 | decodeEach of an element's decoder is the decoder of the repeat, every hop in range |
| Refinement.GroupsImplement | gem/decode.go:211-218 | a repeat of a group decodes through withConfig as its shape does |
| Refinement.OptionalGroupImplements | gem/decode.go:220-256 | decodeOptionalGroup is the decoder of the optional group |
| Refinement.OptionalLeafImplements | gem/decode.go:335-350 | decodeOptional is the decoder of the optional leaf |
| Refinement.RowsImplement | gem/decode.go:163-201 | decodeEach of decodeItems decodes rows of items as they arrived |
| Refinement.ItemsOf | gem/decode.go:458-489 | the loop makes one item per value, in order |
| Refinement.IndexedItems | gem/decode.go:577-587 | the loop makes one item per value and index, in order |
| Refinement.EachBuilds | gem/decode.go:458-489 | a repeat is built element by element |
| Refinement.RowsBuild | gem/s13.go:162-164 | row i of a repeat of rows names its nil items after the field and i |
| Refinement.OptionalGroupBuilds | gem/decode.go:491-500 | optionalGroupItem builds the optional group |
| Groups.ErrorInfoDecodes | gem/groups.go:22-40 | the group's decoder gives the value or the error of the group's shape, in either mode, at any cursor |
| Groups.ErrorInfoBuildsAt | gem/groups.go:17-19 | the Item method builds the group's shape, its nil items named after the group |
| Groups.AttributeDecodes | gem/groups.go:57-75 | the group's decoder gives the value or the error of the group's shape, in either mode, at any cursor |
| Groups.AttributeBuildsAt | gem/groups.go:52-54 | the Item method builds the group's shape, its nil items named after the group |
| Groups.RecipeParamDecodes | gem/groups.go:308-326 | the group's decoder gives the value or the error of the group's shape, in either mode, at any cursor |
| Groups.RecipeParamBuildsAt | gem/groups.go:303-305 | the Item method builds the group's shape, its nil items named after the group |
| Groups.RecipeDescriptorDecodes | gem/groups.go:2183-2208 | the group's decoder gives the value or the error of the group's shape, in either mode, at any cursor |
| Groups.RecipeDescriptorBuildsAt | gem/groups.go:2178-2180 | the Item method builds the group's shape, its nil items named after the group |
| Groups.DeadbandDecodes | gem/groups.go:1294-1312 | the group's decoder gives the value or the error of the group's shape, in either mode, at any cursor |
| Groups.DeadbandBuildsAt | gem/groups.go:1289-1291 | the Item method builds the group's shape, its nil items named after the group |
| Groups.LimitDecodes | gem/groups.go:1332-1350 | the group's decoder gives the value or the error of the group's shape, in either mode, at any cursor |
| Groups.LimitBuildsAt | gem/groups.go:1327-1329 | the Item method builds the group's shape, its nil items named after the group |
| Groups.VariableLimitsDecodes | gem/groups.go:1369-1387 | the group's decoder gives the value or the error of the group's shape, in either mode, at any cursor |
| Groups.VariableLimitsBuildsAt | gem/groups.go:1364-1366 | the Item method builds the group's shape, its nil items named after the group |
| Groups.ProcessJobDecodes | gem/groups.go:2375-2421 | the group's decoder gives the value or the error of the group's shape, in either mode, at any cursor |
| Groups.ProcessJobBuildsAt | gem/groups.go:2370-2372 | the Item method builds the group's shape, its nil items named after the group |
| Groups.ErrorInfoOnTheWire | gem/groups.go:17-19 | each field of a group that is sent stands at its own position of the list, as the item of its declared type |
| Groups.ErrorInfoComesBack | gem/groups.go:22-40 | a group that can be sent is read back field for field from its own item |
| Groups.AttributeOnTheWire | gem/groups.go:52-54 | each field of a group that is sent stands at its own position of the list, as the item of its declared type |
| Groups.AttributeComesBack | gem/groups.go:57-75 | a group that can be sent is read back field for field from its own item |
| Groups.RecipeParamOnTheWire | gem/groups.go:303-305 | each field of a group that is sent stands at its own position of the list, as the item of its declared type |
| Groups.RecipeParamComesBack | gem/groups.go:308-326 | a group that can be sent is read back field for field from its own item |
| Groups.RecipeDescriptorOnTheWire | gem/groups.go:2178-2180 | each field of a group that is sent stands at its own position of the list, as the item of its declared type |
| Groups.RecipeDescriptorComesBack | gem/groups.go:2183-2208 | a group that can be sent is read back field for field from its own item |
| Groups.DeadbandOnTheWire | gem/groups.go:1289-1291 | each field of a group that is sent stands at its own position of the list, as the item of its declared type |
| Groups.DeadbandComesBack | gem/groups.go:1294-1312 | a group that can be sent is read back field for field from its own item |
| Groups.LimitOnTheWire | gem/groups.go:1327-1329 | each field of a group that is sent stands at its own position of the list, as the item of its declared type |
| Groups.LimitComesBack | gem/groups.go:1332-1350 | a group that can be sent is read back field for field from its own item |
| Groups.VariableLimitsOnTheWire | gem/groups.go:1364-1366 | each field of a group that is sent stands at its own position of the list, as the item of its declared type |
| Groups.VariableLimitsComesBack | gem/groups.go:1369-1387 | a group that can be sent is read back field for field from its own item |
| Groups.ProcessJobOnTheWire | gem/groups.go:2370-2372 | each field of a group that is sent stands at its own position of the list, as the item of its declared type |
| Groups.ProcessJobComesBack | gem/groups.go:2375-2421 | a group that can be sent is read back field for field from its own item |
| Groups.ProcessJobRecipeDecodes | gem/groups.go:2396-2410 | the list nested in a job is named by its index and its fields by the job, and its hops go through composed paths |
| Groups.GroupsAreWellFormed | tools/gemgen/load.go:887-927 | every modelled group is a shape the theorems speak of |
| Stream2.DecodeS2F45 | gem/s2_decode.go:1419-1440 | field after field with early returns, the decoder returns the error or the struct of the body's shape, lenient exactly with AllowTrailing |
| Stream2.S2F45Builds | gem/s2.go:533-535 | the builder sends what the shape builds from its arguments |
| Stream2.S2F45OnTheWire | gem/s2.go:533-535 | each argument of a body that is sent stands at its own position, as the item of its declared type |
| Stream2.S2F45RoundTrip | gem/s2.go:533-535 | decoding what was built succeeds exactly for arguments that can be sent, and returns them unchanged |
| Stream2.S2F45Rebuild | gem/s2_decode.go:1419-1440 | an error-free body decodes exactly when what is kept of it conforms, and building the result again gives the normal form of what is kept |
| Stream2.S2F45ErrorNamesTheFirstFailure | gem/s2_decode.go:1419-1440 | the error names the first failing position of the body, with its indices, and no other position |
| Stream12.DecodeS12F4 | gem/s12_decode.go:256-332 | field after field with early returns, the decoder returns the error or the struct of the body's shape, lenient exactly with AllowTrailing, and records which form was sent |
| Stream12.S12F4Builds | gem/s12.go:60-62 | the builder sends what the shape builds from its arguments |
| Stream12.S12F4OnTheWire | gem/s12.go:60-62 | each argument of a body that is sent stands at its own position, as the item of its declared type |
| Stream12.S12F4RoundTrip | gem/s12.go:60-62 | decoding what was built succeeds exactly for arguments that can be sent, and returns them unchanged |
| Stream12.S12F4Rebuild | gem/s12_decode.go:256-332 | an error-free body decodes exactly when what is kept of it conforms, and building the result again gives the normal form of what is kept |
| Stream12.S12F4ErrorNamesTheFirstFailure | gem/s12_decode.go:256-332 | the error names the first failing position of the body, with its indices, and no other position |
| Stream13.DecodeS13F13 | gem/s13_decode.go:445-493 | field after field with early returns, the decoder returns the error or the struct of the body's shape, lenient exactly with AllowTrailing |
| Stream13.S13F13Builds | gem/s13.go:162-164 | the builder sends what the shape builds from its arguments |
| Stream13.S13F13OnTheWire | gem/s13.go:162-164 | each argument of a body that is sent stands at its own position, as the item of its declared type |
| Stream13.S13F13RoundTrip | gem/s13.go:162-164 | decoding what was built succeeds exactly for arguments that can be sent, and returns them unchanged |
| Stream13.S13F13Rebuild | gem/s13_decode.go:445-493 | an error-free body decodes exactly when what is kept of it conforms, and building the result again gives the normal form of what is kept |
| Stream13.S13F13ErrorNamesTheFirstFailure | gem/s13_decode.go:445-493 | the error names the first failing position of the body, with its indices, and no other position |
| Stream15.DecodeS15F24 | gem/s15_decode.go:1059-1088 | field after field with early returns, the decoder returns the error or the struct of the body's shape, lenient exactly with AllowTrailing |
| Stream15.S15F24Builds | gem/s15.go:293-297 | the builder sends what the shape builds from its arguments |
| Stream15.S15F24OnTheWire | gem/s15.go:293-297 | each argument of a body that is sent stands at its own position, as the item of its declared type |
| Stream15.S15F24RoundTrip | gem/s15.go:293-297 | decoding what was built succeeds exactly for arguments that can be sent, and returns them unchanged |
| Stream15.S15F24Rebuild | gem/s15_decode.go:1059-1088 | an error-free body decodes exactly when what is kept of it conforms, and building the result again gives the normal form of what is kept |
| Stream15.S15F24ErrorNamesTheFirstFailure | gem/s15_decode.go:1059-1088 | the error names the first failing position of the body, with its indices, and no other position |
| Stream15.DecodeS15F41 | gem/s15_decode.go:1888-1952 | field after field with early returns, the decoder returns the error or the struct of the body's shape, lenient exactly with AllowTrailing, and records which form was sent |
| Stream15.S15F41Builds | gem/s15.go:505-507 | the builder sends what the shape builds from its arguments |
| Stream15.S15F41OnTheWire | gem/s15.go:505-507 | each argument of a body that is sent stands at its own position, as the item of its declared type |
| Stream15.S15F41RoundTrip | gem/s15.go:505-507 | decoding what was built succeeds exactly for arguments that can be sent, and returns them unchanged |
| Stream15.S15F41DeleteBuilds | gem/s15.go:515-517 | the short builder sends the shape's short form |
| Stream15.S15F41DeleteRoundTrip | gem/s15.go:515-517 | the one decoder returns the short builder's arguments, with every omitted field zero, exactly when they can be sent |
| Stream15.S15F41DeleteIsZero | gem/s15_decode.go:1888-1952 | a struct laid out as the short form has every omitted field zero |
| Stream15.S15F41Rebuild | gem/s15_decode.go:1888-1952 | an error-free body decodes exactly when what is kept of it conforms, and building the result again gives the normal form of what is kept |
| Stream15.S15F41ErrorNamesTheFirstFailure | gem/s15_decode.go:1888-1952 | the error names the first failing position of the body, with its indices, and no other position |
| Stream16.DecodeS16F15 | gem/s16_decode.go:551-572 | field after field with early returns, the decoder returns the error or the struct of the body's shape, lenient exactly with AllowTrailing |
| Stream16.S16F15Builds | gem/s16.go:167-169 | the builder sends what the shape builds from its arguments |
| Stream16.S16F15OnTheWire | gem/s16.go:167-169 | each argument of a body that is sent stands at its own position, as the item of its declared type |
| Stream16.S16F15RoundTrip | gem/s16.go:167-169 | decoding what was built succeeds exactly for arguments that can be sent, and returns them unchanged |
| Stream16.S16F15Rebuild | gem/s16_decode.go:551-572 | an error-free body decodes exactly when what is kept of it conforms, and building the result again gives the normal form of what is kept |
| Stream16.S16F15ErrorNamesTheFirstFailure | gem/s16_decode.go:551-572 | the error names the first failing position of the body, with its indices, and no other position |
| Stream17.DecodeS17F5 | gem/s17_decode.go:198-270 | field after field with early returns, the decoder returns the error or the struct of the body's shape, lenient exactly with AllowTrailing, and records which form was sent |
| Stream17.S17F5Builds | gem/s17.go:72-74 | the builder sends what the shape builds from its arguments |
| Stream17.S17F5OnTheWire | gem/s17.go:72-74 | each argument of a body that is sent stands at its own position, as the item of its declared type |
| Stream17.S17F5RoundTrip | gem/s17.go:72-74 | decoding what was built succeeds exactly for arguments that can be sent, and returns them unchanged |
| Stream17.S17F5UntriggeredBuilds | gem/s17.go:82-84 | the short builder sends the shape's short form |
| Stream17.S17F5UntriggeredRoundTrip | gem/s17.go:82-84 | the one decoder returns the short builder's arguments, with every omitted field zero, exactly when they can be sent |
| Stream17.S17F5UntriggeredIsZero | gem/s17_decode.go:198-270 | a struct laid out as the short form has every omitted field zero |
| Stream17.S17F5Rebuild | gem/s17_decode.go:198-270 | an error-free body decodes exactly when what is kept of it conforms, and building the result again gives the normal form of what is kept |
| Stream17.S17F5ErrorNamesTheFirstFailure | gem/s17_decode.go:198-270 | the error names the first failing position of the body, with its indices, and no other position |
| Stream2.S2F45ListIsSentAndRefused | gem/s2.go:533-535 | any list as DATAID is sent without an error and refused by the decoder, in both modes |
| Stream1.DecodeS1F3 | gem/s1_decode.go:92-104 | the decoder of a body that is a repeat returns the error or the identifiers of its shape |
| Stream1.S1F3RoundTrip | gem/s1.go:47-49 | decoding what was built succeeds exactly for identifiers that can be sent, and returns them unchanged |
| Stream6.DecodeS6F12 | gem/s6_decode.go:451-463 | the decoder of a body that is one byte returns the error or the code of its shape |
| Stream6.S6F12RoundTrip | gem/s6.go:148-150 | every code comes back |
| Catalog.AcceptArgsFit | tools/gemgen/gen_catalog.go:360-429 | a call with the code for its leaf and nothing for its repeats passes arguments that can be sent and that report nothing, whatever the body |
| Catalog.AcceptReplyIsExact | gem/catalog.go:110-133 | over every well-formed catalog a reply exists exactly when the documented conditions hold; it then has the same stream, the function plus one and a clear W-bit, and the form Lookup gives for the replier decodes it, in either mode, to the accepting code with every list empty |
| Catalog.EachRoleItsOwn | gem/catalog.go:72-83 | each role gets its own form and its own accepting call, role 1 the host's and role 2 the equipment's, and anything else gets none |
| Catalog.SendsAsDeclared | tools/gemgen/gen_messages.go:94-102 | a sent message has its form's stream and function, and its W-bit is set exactly when the form expects a reply |
| Catalog.AnyTypedLeafMayAccept | tools/gemgen/gen_catalog.go:387-429 | any leaf of a declared type may carry an accepting code, alone or beside repeats, and so may a body of no fields |
| Catalog.RecorderReplies | gem/catalog.go:973-976 | either side accepts S15F41 with S15F42 |
| Catalog.EventReplies | gem/catalog.go:817-820 | the host accepts S6F11 with the one byte of S6F12, and equipment does not |
| Catalog.RolesAnswerDifferently | gem/catalog.go:665-668 | the host accepts S1F13 with its own form of S1F14, and equipment, whose form carries data, has no accepting reply |
| Catalog.SampleTablesAreWellFormed | gem/catalog.go:376-377 | catalog rows with list bodies, a single-byte body, and forms that differ by role meet the conditions |
| Catalog.OneSideOrBoth | gem/catalog.go:162-188 | the peer is the other role, only a role sends, and both sides send exactly the bidirectional messages |
| Catalog.FunctionWrapsExactlyAt255 | gem/catalog.go:110-133 | over any tables the reply's function is one above the primary's exactly when the primary's is not 255 |
| Catalog.Function255IsMisanswered | gem/catalog.go:110-133 | tables for which function 255 is answered with function 0 |

## Left out

- The other messages, S12F1, S13F16, S16F3, S16F27 and S16F28 among them: further instances of the same shapes.
- The stream, function and W-bit a builder sets beside its body, except for the replies in `Catalog`.
- F4 and F8 items and `decodeFloatAs`: floating-point items are carried unread.
- The wording of errors: an error is the place it names and a reason.
- `isNilLike`: that an item is nil, typed or not, is a case of the item type rather than a reflection test.
- Items implemented outside package secs2, and the wire form of items.
- The names, mnemonics and rows of the catalog as data: the theorems are over any well-formed tables, and a few rows show that there are some. A code fills every leaf of an accepting body; the generator allows one.
- HSMS, SECS-I, SML, trace packing, code generation.
- Stream2.DecodeS2F45: says nothing of the partly filled struct returned beside an error, here and in the other body decoders, because callers have no use for it.
- Groups.ProcessJobDecodes: the decoder is one expression rather than a struct filled in place, here and in the other groups, because decoders are passed as values; the partly filled struct beside an error is not modelled.
- NilRepair.NamesAgree: an item of a row that a decoder returns unread has a name on the builder's side only, so it is not compared.
