# A verified model of the provider's translations and protocols

The Terraform provider mostly declares schemas and calls APIs. This project models the parts that
decide something, and proves what they promise each other.

**Settings maps of managed databases** (`yandex/dynamic_fields_fill.go`, `yandex/dynamic_fields.go`,
`yandex/dynamic.go`). A map of strings is validated, compared, expanded into a settings message by
reflection, and flattened back. `GoText` has the text helpers of Go's library, `FieldCodec` the
conversion of one field, `Slots` typed reads and writes of one field of a message, `FieldsInfo` the
registry, `DynamicFields` the four operations, and `CodecProperties` what they promise each other:
suppression decides equality of values, validation implies expansion, the order in which Go ranges
over a map does not matter, flatten then expand gives the message back, and a configured value that
was applied shows no further diff exactly when it settles.

**Access bindings** (`yandex/iam.go`, `yandex/iam_cloud.go`). `IamCloud` has batched updates and paged
reads of one cloud, `IamReadModify` the two read-modify-write operations run by one client,
`IamProtocol` a step system in which any number of clients run them at once, with failing requests
and writes whose answer is lost, each reading the policy one page a step, and `IamSerial` what every run guarantees: serialisability in lock
order, no lost update, no reading of an update in progress, failure only for a cause, progress and
termination.

**Application load balancer** (`yandex/alb_structures.go`). `AlbMessages` has configuration blocks and
API messages, `AlbRoutes` the translation of routes and header modifications both ways,
`AlbNormalForm` the messages that survive it and the proof that all expanded messages do,
`AlbConfigured` which configurations expand, what the messages then say and in which normal form the
configuration comes back, and `AlbListener` the listeners, whose empty parts are pruned at every
level.

**Backup policies** (`yandex/backup_helpers.go`). `BackupIntervals` has intervals, converted to seconds
in place, times of day, binding IDs and binding with retries; `BackupScheduling` the expansion of
schedules and their flattening, which changes the message it reads.

**Data source schemas** (`yandex/data_source_yandex_mdb_mongodb_cluster.go`). `OptionalSchema` models
the recursive copy that makes every attribute optional, on schemas shared by reference.

## How the code is modelled

- Where the source updates objects or loops, the model is a class or a method with a loop, proved
  against a specification function; the theorems are about that function.
- A `range` over a Go map takes its order as an argument, any listing of the keys (`GoText.Lists`).
- Reflection is replaced by slots that know their Go kind. Integers of fixed width wrap as in Go.
- Floating point and duration text are parameters with stated laws (`Slots.Lawful`,
  `AlbMessages.Lawful`): the parser reads what the printer prints, and narrowing loses precision only
  once. Generated enum tables are parameters too (`BackupScheduling.TablesOk`). A float is one of the
  float64 values and no other, so that each can have a text of its own; for all three sets of laws a
  lemma shows that they can be met.
- `GetOk` reads a list block as present when it is non-empty and an attribute as present when it is
  not zero. `GetOkExists` is presence in a map.
- Errors are kept apart as far as the provider does; their wording is not modelled. `Panic` stands for
  a run-time panic.

## What the code does that one might not expect

- A value that validates can differ from the state for ever: a plain field registered with
  `addIDefault` whose default is collapsed, a number an int32 slot truncates, a float that a narrow
  slot cannot hold, NaN. `CodecProperties.Settles` is the exact condition.
- An enum number outside the table decodes, as a decimal number, but makes flattening fail, and with it
  all other fields of the message. So does an enum field that is not configured, if its table has no 0
  and defaults are not collapsed. `CodecProperties.NumbersFlatten` is the exact condition.
- The defaults inserted by `useDefault` never reach the map of texts: a pointer is stored, and the
  string conversion has no case for it.
- A field collapsed at its default expands to nothing: a nullable slot comes back nil, and a plain one
  comes back zero.
- The interval validator accepts any number of digits, and the parser panics from 2^63 on.
- A gRPC route's timeout that cannot be read is dropped without an error, unlike an HTTP route's.
- `createBackupPolicyBindingsWithRetry` returns no error when every attempt yields an operation that
  failed, and nil when no attempt is allowed.
- An interval whose length in seconds exceeds int64 wraps around when it is adjusted.

## Model

| member | source | states |
|---|---|---|
| `FieldCodec.ReverseNames` | yandex/dynamic_fields.go:423-444 | The loop that reverses a table of names gives a map that has every name and points each back to a number of that name, whatever the iteration order |
| `FieldCodec.ReversalOrderFree` | yandex/dynamic_fields.go:423-475 | The reversed table is the same for every iteration order of Go exactly when no two numbers share a name |
| `FieldCodec.DecodeInvertsEncode` | yandex/dynamic_fields.go:410-475 | An encodable number has a text, and decoding it gives the number back exactly when the name is listed for that number alone (an empty name: when the number is the default); in particular always for distinct non-empty names, also for names that look like numbers or occur in the second table |
| `FieldCodec.DecodeInvertsEncodeInAnyOrder` | yandex/dynamic_fields.go:410-475 | The same over all iteration orders and all second tables: decoding undoes encoding whichever way the tables were built, exactly when no other number has the name |
| `FieldCodec.SecondNameDecodes` | yandex/dynamic_fields.go:446-475 | A name of the second table that is none of the first decodes to its number, over all orders in which both may be reversed, exactly when no other number of the second table has it |
| `FieldCodec.OtherTextDecodes` | yandex/dynamic_fields.go:423-475 | A text in neither table is read as the decimal number it spells, and is a type mismatch if it spells none |
| `FieldCodec.EmptyTextDecodes` | yandex/dynamic_fields.go:423-475 | The empty text of an enum is its default, of another field nil |
| `FieldCodec.StringToIntSlice` | yandex/dynamic_fields.go:477-505 | The parsing loop returns the list its specification gives, the first error in text order, or an error for an unregistered field |
| `FieldCodec.IntSliceToString` | yandex/dynamic_fields.go:507-533 | The printing loop returns the comma-joined names, the marker of the empty list, or an error |
| `FieldCodec.ListParsesExactly` | yandex/dynamic_fields.go:477-505 | When a text parses and to what: the default for an empty text, the marker for the empty list, else the numbers of the items truncated to 32 bits, an error if one has none |
| `FieldCodec.ItemsRoundTrip` | yandex/dynamic_fields.go:477-533 | Printed items of a list are non-empty and free of commas, and decode item by item to the list |
| `FieldCodec.ListRoundTrip` | yandex/dynamic_fields.go:477-533 | A list of printable int32 items is printed without error, and parsing the text gives it back exactly when (empty list) the marker of emptiness is read as itself, or (non-empty list) the joined names are not that marker |
| `FieldCodec.ReprintIsStable` | yandex/dynamic_fields.go:477-533 | Parsing a text, printing the list and parsing again gives the same list |
| `Slots.ClassifiedKindsAreAccessible` | yandex/dynamic.go:80-283 | A field of a kind the field table classifies can be read with a value of that type, and is accepted by the setter of that type and by no other |
| `Slots.SetThenGet` | yandex/dynamic.go:80-283 | What a setter stores is what the getter returns, truncated to the width of the slot (integers) or narrowed to its precision (floats); the kind of the slot never changes |
| `Slots.LawfulOpsExist` | yandex/dynamic_fields.go:214-228 | The laws assumed of floating-point text and narrowing can be met |
| `Slots.GetFieldsInfo` | yandex/dynamic.go:356-398 | The loop over the struct fields builds the table of tagged fields of classified kinds |
| `Slots.TableDescribesFields` | yandex/dynamic.go:356-398 | Every entry of the table describes a field of the struct, and no two entries name the same Go field |
| `Slots.TableCoversFields` | yandex/dynamic.go:356-398 | Every tagged field of a settings kind is in the table with its type, unless a later field has its tag |
| `Slots.Message.SetIntField` | yandex/dynamic.go:73-112 | Writes the one slot, or leaves the message alone and reports the error |
| `Slots.Message.SetBoolField` | yandex/dynamic.go:114-153 | The same for booleans |
| `Slots.Message.SetFloatField` | yandex/dynamic.go:155-194 | The same for floating point |
| `Slots.Message.SetStringField` | yandex/dynamic.go:196-218 | The same for strings |
| `FieldsInfo.ObjectFieldsInfo.constructor` | yandex/dynamic_fields.go:307-314 | An empty registry, which keeps the registry invariant |
| `FieldsInfo.ObjectFieldsInfo.AddType` | yandex/dynamic_fields.go:316-343 | Adds the field table of the type and lists the type last under each of its names, whatever the iteration order; keeps the invariant |
| `FieldsInfo.ObjectFieldsInfo.AddIDefault` | yandex/dynamic_fields.go:364-370 | Records a default without conversion functions |
| `FieldsInfo.ObjectFieldsInfo.AddEnumGeneratedNames` | yandex/dynamic_fields.go:372-386 | Records an enum with its reversed table |
| `FieldsInfo.ObjectFieldsInfo.AddEnumHumanNames` | yandex/dynamic_fields.go:388-401 | Records an enum with a second table of names |
| `FieldsInfo.ObjectFieldsInfo.AddSkipEnumGeneratedNames` | yandex/dynamic_fields.go:345-362 | Records a skipped field of enum names with the check and the comparison it is given |
| `FieldsInfo.EnumEntryMeans` | yandex/dynamic_fields.go:372-401 | What the accessors then say of an enum field: default zero, never back to nil, no bounds, check or comparison; skipped if so recorded |
| `FieldsInfo.DefaultEntryMeans` | yandex/dynamic_fields.go:364-370 | What the accessors then say of a plain field: its default and nothing else |
| `FieldsInfo.ListingExact` | yandex/dynamic_fields.go:316-343 | A type is listed under a name exactly when it was added and its table has the name |
| `FieldsInfo.WithTypeIsRegistered` | yandex/dynamic_fields.go:316-343 | Adding a type keeps the registry equal to what its history of additions determines |
| `FieldsInfo.RegistryIsIndexed` | yandex/dynamic_fields.go:283-343 | After any sequence of additions, type t is listed under name k exactly when the table of t has k, and no list is empty |
| `FieldsInfo.CheckedListParses` | yandex/dynamic_fields.go:535-558 | A list of names that passes the check is parsed without error, if the empty text stands for the empty list |
| `DynamicFields.DiffSuppress` | yandex/dynamic_fields_fill.go:13-46 | The suppress function answers as specified: some registered type accepts the pair, with the rules for an empty new value, unknown fields and text comparison |
| `DynamicFields.Validate` | yandex/dynamic_fields_fill.go:115-168 | The loop lists exactly the keys that are not accepted, once each, with the complaint about each, in iteration order |
| `DynamicFields.ValidateKey` | yandex/dynamic_fields_fill.go:120-165 | One key: the first type that accepts wins, else the last error is reported |
| `DynamicFields.ExpandOneField` | yandex/dynamic_fields_fill.go:419-587 | One field: the slot takes the decoded value, is set to nil, is left alone, or the message is untouched and the error returned |
| `DynamicFields.ExpandNonSkippedFields` | yandex/dynamic_fields_fill.go:349-385 | Under every iteration order: succeeds exactly when every present field does; then the message is exactly the written one and the returned names are the present fields, each once; on an error the fields before the failing one have been written and nothing else |
| `DynamicFields.ReachedEnd` | yandex/dynamic_fields_fill.go:355-384 | A loop that got through the whole table has succeeded and written exactly what the order-free description says |
| `DynamicFields.KeptLists` | yandex/dynamic_fields_fill.go:355-384 | The returned list has every present, registered, non-skipped field exactly once |
| `DynamicFields.Flatten` | yandex/dynamic_fields_fill.go:219-262 | Under every iteration order: fails exactly when some row fails, else fills exactly the specified map; nil gives nil |
| `DynamicFields.FlattenMapS` | yandex/dynamic_fields_fill.go:316-347 | The map of texts, nil when it would be empty |
| `CodecProperties.CheckSuppressCompares` | yandex/dynamic_fields_fill.go:48-112 | For a non-empty new value, one type accepts exactly when it decodes both texts, to equal values |
| `CodecProperties.SuppressionDecidesEquality` | yandex/dynamic_fields_fill.go:13-112 | The diff of a registered field is suppressed exactly when some registered type decodes old and new to equal values |
| `CodecProperties.SuppressionOtherwise` | yandex/dynamic_fields_fill.go:20-45 | The cases without a comparison of values: the own comparison of a field, an empty new text, an unknown field |
| `CodecProperties.FieldOfPath` | yandex/dynamic_fields_fill.go:16-18 | The field of a path is what follows its last dot |
| `CodecProperties.SignOfZeroSuppressed` | yandex/dynamic_fields_fill.go:68-84 | The two zeros of a float are no difference |
| `CodecProperties.SuppressionIsEquivalence` | yandex/dynamic_fields_fill.go:13-112 | On non-empty texts of a uniformly typed field suppression is symmetric and transitive, and a text is equivalent to itself exactly when it decodes and is not NaN |
| `CodecProperties.ValidatesExactly` | yandex/dynamic_fields_fill.go:170-217 | Exactly which texts are valid, in terms of what is recorded by hand: readable, a number within its bounds, nil only where it is allowed |
| `CodecProperties.ComplaintExact` | yandex/dynamic_fields_fill.go:170-217 | Which error is reported: nil where it is not allowed, a number out of bounds, or a text that is no value of the type |
| `CodecProperties.OwnCheckDecides` | yandex/dynamic_fields_fill.go:124-133 | The own check of a field alone decides; the enum-list check accepts exactly the empty text and lists of accepted items |
| `CodecProperties.LastErrorWins` | yandex/dynamic_fields_fill.go:143-165 | If no type accepts, the error reported is that of the last type that gives one |
| `CodecProperties.TypesVerdictExact` | yandex/dynamic_fields_fill.go:140-165 | A key is accepted exactly when some type accepts it, and "unsupported type" never comes out of types that have the field |
| `CodecProperties.UnsupportedTypeUnreachable` | yandex/dynamic_fields_fill.go:115-217 | With a registry kept by addType no key is rejected for an unsupported type, and a key is unsupported exactly when no type has it |
| `CodecProperties.ValidIffExpandable` | yandex/dynamic_fields_fill.go:170-217 | A text validates exactly when expansion accepts it and, if it means nil, the field may go back to nil |
| `CodecProperties.ValidationImpliesExpansion` | yandex/dynamic_fields_fill.go:115-217 | A map without complaints expands into every registered type; over the present fields the converse holds too |
| `CodecProperties.ExpandedValue` | yandex/dynamic_fields_fill.go:419-587 | What each kind of value does to a slot: typed values, nil, empty and other texts, with and without skipNil, and which of them are errors |
| `CodecProperties.WrittenExactly` | yandex/dynamic_fields_fill.go:349-417 | Each present field ends up with its own result, and every other slot is untouched |
| `CodecProperties.SkippedIsLeftAlone` | yandex/dynamic_fields_fill.go:239-260 | A field recorded as skipped is neither expanded nor flattened |
| `CodecProperties.ExpandInTwoOrders` | yandex/dynamic_fields_fill.go:349-417 | Any two iteration orders both fail, or both succeed with equal messages and the same fields listed once each |
| `CodecProperties.KindsKept` | yandex/dynamic_fields_fill.go:419-587 | Expansion never changes the kind of a slot |
| `CodecProperties.SlotComesBack` | yandex/dynamic_fields_fill.go:264-314 | One slot: the text flattened for it expands to it, exactly when it is left out as a default, or is no integer, or is one whose text leads back to it, or to a number within bounds that is truncated to it |
| `CodecProperties.FlattenThenExpand` | yandex/dynamic_fields_fill.go:219-417 | Flattening succeeds and expanding its texts into a zero message succeeds and gives back every registered non-skipped slot, the collapsed ones excepted, which are zero, exactly when each integer comes back or is collapsed |
| `CodecProperties.CollapsedFieldIsLost` | yandex/dynamic_fields_fill.go:264-290 | A collapsed slot is unchanged exactly when it cannot be nil and its default is zero |
| `CodecProperties.DefaultsCollapse` | yandex/dynamic_fields_fill.go:244-314 | A default is left out exactly when collapsing is on and the field is not among those known to hold it |
| `CodecProperties.NilsIncluded` | yandex/dynamic_fields_fill.go:264-314 | includeNil adds nil fields and empty strings and changes nothing else |
| `CodecProperties.DefaultsIncluded` | yandex/dynamic_fields_fill.go:264-282 | useDefault adds pointers to the defaults of nil numbers and changes nothing else |
| `CodecProperties.UseDefaultIsLost` | yandex/dynamic_fields_fill.go:264-341 | Inserting defaults makes no difference to the map of texts: the inserted pointer has no text |
| `CodecProperties.NoPerpetualDiff` | yandex/dynamic_fields_fill.go:48-112 | A valid non-empty text expands, and the flattened value suppresses the diff exactly when the text settles: the text of the integer that the slot holds leads back to the configured one (a collapsed default must be that of an enum), the float survives the precision of the slot and is not NaN |
| `CodecProperties.NoPerpetualDiffInMap` | yandex/dynamic_fields_fill.go:219-417 | A validated map expands; flattening the result succeeds exactly when its numbers flatten, and then every configured field is quiet exactly when its text settles |
| `CodecProperties.FaithfulSettles` | yandex/dynamic_fields.go:410-444 | With distinct non-empty names an integer settles exactly when it fits the slot and has a name if it needs one; as a collapsed default, only that of an enum |
| `CodecProperties.FlattensIffNumbersDo` | yandex/dynamic_fields_fill.go:219-314 | A validated map, expanded into a fresh message, flattens exactly when every integer field, configured or not, is left nil, or holds its collapsed default, or a number that has a name if it needs one |
| `CodecProperties.UnnamedNumberStopsFlattening` | yandex/dynamic_fields_fill.go:264-278 | A validated map that does not flatten: 7 for an enum that has no name for it |
| `CodecProperties.CollapsedDefaultStaysDifferent` | yandex/dynamic_fields.go:364-370 | The condition is needed: a configured -1 that is the collapsed default of a plain field differs for ever |
| `CodecProperties.TruncatedIntStaysDifferent` | yandex/dynamic.go:80-110 | The condition is needed: 2147483648 validates, an int32 slot holds -2147483648, and the diff remains |
| `IamCloud.DeltaExact` | yandex/iam_cloud.go:76-102 | A delta adds or removes its own binding and affects no other |
| `IamCloud.ApplyAllConcat` | yandex/iam_cloud.go:76-102 | Applying deltas batch by batch is applying them all |
| `IamCloud.BatchesPartition` | yandex/iam_cloud.go:81-99 | The batches are non-empty, at most 1000 long, all but the last full, and concatenate to the deltas exactly |
| `IamCloud.UpdateResourceIamPolicy` | yandex/iam_cloud.go:76-102 | The loop sends the batches in order until a request fails, and fails exactly then; on success every batch was sent and granted and the server applied all deltas, on failure exactly the batches granted before, and possibly the one whose request failed |
| `IamCloud.PagesInOrder` | yandex/iam_cloud.go:116-140 | The bindings of consecutive pages are those of the first, then those of the rest |
| `IamCloud.GetCloudAccessBindings` | yandex/iam_cloud.go:116-140 | Against every finite chain of pages the loop ends, succeeds exactly when every page does, and returns every binding once in page order; no partial list |
| `IamReadModify.GetResourceIamPolicy` | yandex/iam_cloud.go:43-49 | Reading page by page succeeds exactly when every page comes, and gives the policy the server holds |
| `IamProtocol.MutexKeyInjective` | yandex/iam_cloud.go:108-110 | Two clouds share a mutex exactly when they are the same cloud |
| `IamProtocol.StepKeepsInv` | yandex/iam.go:46-101 | Every step of every client keeps the protocol invariant |
| `IamProtocol.RunKeepsInv` | yandex/iam.go:46-101 | Every run keeps it |
| `IamSerial.RunsAreSerialisable` | yandex/iam.go:46-101 | In every run of any number of clients the stored policy is the original one changed by the clients one after the other in lock order, each finished client having its own outcome on what the one before left; no started client is missing or listed twice |
| `IamSerial.AllSucceededIsSerialRun` | yandex/iam.go:46-101 | If all clients of a cloud succeeded, its policy is the fold of their operations in lock order |
| `IamSerial.OneClientInside` | yandex/iam.go:46-101 | At no time are two clients between lock and unlock of the same cloud |
| `IamSerial.PagesFitTogether` | yandex/iam_cloud.go:116-140 | The pages a client has read so far, one step each, are the beginning of the policy stored now |
| `IamSerial.ReadsSeeFinishedWork` | yandex/iam.go:51-70 | A policy read under the lock still is the stored one when it is written back, and contains the work of finished clients only, never part of an update in progress |
| `IamSerial.SomeStepIsEnabled` | yandex/iam.go:46-101 | Until every client is done, some step can be taken |
| `IamSerial.RunsAreBounded` | yandex/iam.go:46-101 | Every run is finite: each step uses up a bounded budget |
| `IamSerial.FailsOnlyForCause` | yandex/iam.go:46-101 | In every run a client ends in failure exactly when one of its requests failed or its change did not apply |
| `IamSerial.DoneClientsHoldNoMutex` | yandex/iam.go:46-101 | A finished client holds no mutex, whatever way it left |
| `IamSerial.BatchesRunAsSent` | yandex/iam_cloud.go:76-102 | Batches that reached the server, one effect each, amount to their deltas applied in order |
| `IamReadModify.IamPolicyReadModifySet` | yandex/iam.go:46-75 | The mutex is free again on every exit; the server is asked to set the policy exactly when every page comes and the change applies, and the call then succeeds exactly when the server grants it; the server holds the modified policy, or the old one and the call failed |
| `IamReadModify.IamPolicyReadModifyUpdate` | yandex/iam.go:77-101 | The mutex is free again on every exit; on success all deltas are applied, on failure those of the first batches; it fails exactly when a page does not come, and then sends nothing, or a request is refused, which is the last |
| `AlbRoutes.ExpandRoutesInTurn` | yandex/alb_structures.go:177-190 | The loop gives the routes of its specification, or the first error |
| `AlbRoutes.ExpandModificationsInTurn` | yandex/alb_structures.go:60-72 | The same for header modifications |
| `AlbRoutes.ExpandPrincipalsInTurn` | yandex/alb_structures.go:252-289 | The two nested loops over principals |
| `AlbRoutes.FlattenRoutesInTurn` | yandex/alb_structures.go:1816-1843 | The loop gives the blocks of its specification, or the first error |
| `AlbRoutes.FlattenModificationsInTurn` | yandex/alb_structures.go:1758-1778 | The same for header modifications, which never fail |
| `AlbRoutes.FlattenPrincipalsInTurn` | yandex/alb_structures.go:1865-1898 | The two nested loops over principals |
| `AlbMessages.LawfulEnvExists` | yandex/utils.go:559-581 | The laws assumed of duration text and the generated enums can be met |
| `AlbNormalForm.RoutesNormal` | yandex/alb_structures.go:177-668 | Every configuration that expands gives messages in normal form |
| `AlbNormalForm.RoutesReadBack` | yandex/alb_structures.go:1816-2066 | Messages in normal form flatten without error and expand to themselves |
| `AlbNormalForm.RoutesSurviveIffNormal` | yandex/alb_structures.go:1816-2066 | A list of route messages survives flattening and expanding exactly when it is in normal form |
| `AlbNormalForm.RoutesNormalise` | yandex/alb_structures.go:177-668 | For every configuration that expands, flattening the result does not fail and expanding that again gives the same messages |
| `AlbNormalForm.ModificationsNormalise` | yandex/alb_structures.go:60-101 | Header modifications: which messages survive exactly, and that everything expanded from a configuration does |
| `AlbNormalForm.OptionsReadBack` | yandex/alb_structures.go:234-341 | Route options with principals read back |
| `AlbNormalForm.HttpRouteReadsBack` | yandex/alb_structures.go:343-578 | HTTP routes with their three kinds of action read back |
| `AlbNormalForm.GrpcRouteReadsBack` | yandex/alb_structures.go:519-643 | gRPC routes read back |
| `AlbNormalForm.RateLimitReadsBack` | yandex/alb_structures.go:103-175 | Rate limits read back |
| `AlbConfigured.RoutesExact` | yandex/alb_structures.go:177-668 | The routes expand exactly when the rules hold at every level (one of several alternatives, readable durations, known or unset enum names, list sizes), and every message says what its block says, field by field, with the zero value for what is unset |
| `AlbConfigured.ModificationsExact` | yandex/alb_structures.go:60-101 | Header modifications expand exactly when each has at most one operation; each message says what its block says, and flattening gives the configuration back as it is |
| `AlbConfigured.RoutesGiveNormalForm` | yandex/alb_structures.go:1816-2066 | Flattening the expanded routes gives the normal form of the configuration: first blocks only, enum names in small letters with that of the zero value for one not set, durations as the formatter spells them, ignored settings gone; the normal form expands to the same routes and is its own normal form |
| `AlbListener.MaybeUsedObject.Write` | yandex/alb_structures.go:907-920 | The object comes into being, empty, with its first write; every write changes only what it is told to |
| `AlbListener.ExpandHttpHandler` | yandex/alb_structures.go:1037-1070 | An HTTP handler with everything that is set, none when nothing is, and an error for HTTP/1.0 together with HTTP/2 options |
| `AlbListener.ExpandStreamHandler` | yandex/alb_structures.go:1021-1035 | A stream handler with everything that is set, none when nothing is |
| `AlbListener.ExpandTlsHandler` | yandex/alb_structures.go:1072-1112 | A TLS handler with the one handler that is set, none when nothing is, an error for none or two |
| `AlbListener.ExpandSniMatches` | yandex/alb_structures.go:942-982 | The matches that have something set, in order |
| `AlbListener.ExpandTlsListener` | yandex/alb_structures.go:922-940 | A TLS listener with its default handler and matches, none when nothing is set |
| `AlbListener.ExpandHttpListener` | yandex/alb_structures.go:1000-1019 | An HTTP listener, none when nothing is set |
| `AlbListener.ExpandStreamListener` | yandex/alb_structures.go:984-998 | A stream listener, none when nothing is set |
| `AlbListener.ExpandEndpoints` | yandex/alb_structures.go:1114-1212 | The endpoints with their addresses |
| `AlbListener.ExpandListener` | yandex/alb_structures.go:844-905 | The loop over the three kinds counts the listeners and fails unless there is exactly one |
| `AlbListener.TlsHandlerExact` | yandex/alb_structures.go:1072-1112 | Exactly when a TLS handler expands: only if not both an HTTP and a stream handler have something set; it is nil exactly when no leaf below it is set, and carries the handler that is set |
| `AlbListener.TlsContents` | yandex/alb_structures.go:1072-1112 | A TLS handler says what its blocks say, down to the leaves of its HTTP or stream handler; a missing one leaves no leaf set |
| `AlbListener.SnisContents` | yandex/alb_structures.go:942-982 | The SNI matches are those of the blocks in order, without the blocks that say nothing, each with its name, server names and handler |
| `AlbListener.SniMatchesExact` | yandex/alb_structures.go:942-982 | SNI matches expand exactly when each handler does, and are nil exactly when no match has anything set |
| `AlbListener.EndpointsExact` | yandex/alb_structures.go:1114-1212 | Endpoints expand exactly when each address has exactly one kind; they are the configured ones in order, each address with what its one block says |
| `AlbListener.BlockExact` | yandex/alb_structures.go:855-885 | For each kind: when its block expands, and that the listener is nil exactly when no leaf of the block is set |
| `AlbListener.ListenerExact` | yandex/alb_structures.go:844-1112 | A listener configuration expands exactly when its blocks do and exactly one of http, tls and stream has something set; the listener is of that kind, says in every leaf what its blocks say, and contains no empty message |
| `BackupIntervals.Adjust` | yandex/backup_helpers.go:132-162 | The switch with its fallthroughs converts the interval to seconds in place |
| `BackupIntervals.AdjustKeepsDuration` | yandex/backup_helpers.go:132-162 | The length of the interval is kept exactly when it fits int64 in seconds; it does for counts up to (2^63-1)/2592000 in size |
| `BackupIntervals.UnitsAgree` | yandex/backup_helpers.go:132-162 | The units are what they are called: each adjusts to as many of the next smaller unit |
| `BackupIntervals.AdjustIdempotent` | yandex/backup_helpers.go:132-162 | Adjusting twice is adjusting once |
| `BackupIntervals.PrintedIntervalReadsBack` | yandex/backup_helpers.go:113-130 | The printed interval passes the validator and parses to itself exactly when its count is not negative and its unit known |
| `BackupIntervals.LettersOfUnits` | yandex/backup_helpers.go:789-811 | The letter of each unit after any digits, as validated and parsed |
| `BackupIntervals.ParsedIntervalPrints` | yandex/resource_yandex_backup_policy.go:529-570 | Whatever text is read as an interval, its printed form is read alike |
| `BackupIntervals.PrintIntervalInjective` | yandex/backup_helpers.go:789-811 | No two intervals of known units print alike |
| `BackupIntervals.ValidTextParses` | yandex/resource_yandex_backup_policy.go:529-570 | A validated text parses exactly when its digits fit int64 |
| `BackupIntervals.ValidTextMayPanic` | yandex/resource_yandex_backup_policy.go:546-549 | The validator accepts every count, and parsing panics exactly from 2^63 on |
| `BackupIntervals.PrintedTimeReadsBack` | yandex/backup_helpers.go:772-778 | A time of day reads back exactly when it is on the clock |
| `BackupIntervals.PrintedTimeLayout` | yandex/backup_helpers.go:772-778 | Two digits of the hour, a colon, two digits of the minute |
| `BackupIntervals.ShortHourReads` | yandex/backup_helpers.go:178-198 | An hour of a single digit is read too |
| `BackupIntervals.BindingsIDRoundTrip` | yandex/backup_helpers.go:942-952 | The two halves of the ID come back exactly when neither contains a colon, the policy first |
| `BackupIntervals.BindWithRetries` | yandex/backup_helpers.go:900-940 | The loop returns the last answer, goes on only after a missing policy or a failed operation, and sleeps 100 s after the first and 20 s after every other such answer |
| `BackupIntervals.AttemptsExact` | yandex/backup_helpers.go:920-938 | Only the last attempt's answer may be one not worth a retry, and all attempts are used up on failures exactly when every answer is retryable |
| `BackupScheduling.TablesOkExist` | yandex/backup_helpers.go:285-304 | The laws assumed of the generated enums can be met |
| `BackupScheduling.ExpandTimeRuleByLoops` | yandex/backup_helpers.go:202-246 | The loops over days, months and times give the rule of the specification |
| `BackupScheduling.ExpandScheduling` | yandex/backup_helpers.go:306-359 | The scheduling of the first block, the deprecated settings first |
| `BackupScheduling.ExpandSetsInTurn` | yandex/backup_helpers.go:336-352 | The loop over backup sets, or the first error |
| `BackupScheduling.BackupSetsExact` | yandex/backup_helpers.go:336-382 | Backup sets expand exactly when each has exactly one readable way of execution; then there are as many sets, each with a setting |
| `BackupScheduling.SchedulingShape` | yandex/backup_helpers.go:306-382 | Exactly when a scheduling expands; its list is never empty, each set has a setting, and it is one longer than backup_sets when a deprecated setting is used |
| `BackupScheduling.SchedulingContents` | yandex/backup_helpers.go:306-382 | A scheduling that expands says what its block says: each setting in its own field, names looked up in their own tables and 0 if unknown, first the deprecated setting without a type, then the configured sets in order with their delay or rule |
| `BackupScheduling.SetContents` | yandex/backup_helpers.go:202-283 | A backup set says what its block says, down to the fields of its time rule |
| `BackupScheduling.FlattenBackupSets` | yandex/backup_helpers.go:651-691 | Flattening gives the specified blocks and leaves every delay of the message in seconds; an empty list is an error, a nil delay a panic |
| `BackupScheduling.FlattenAdjusted` | yandex/backup_helpers.go:651-691 | Delays already in seconds flatten to the same block |
| `BackupScheduling.FlattenTwice` | yandex/backup_helpers.go:651-691 | Flattening the same message a second time gives the same result, although the first call changed it, and although sets may share a delay |
| `BackupScheduling.RuleReadsBack` | yandex/backup_helpers.go:202-246 | A time rule reads back exactly when its enums, times and interval do |
| `BackupScheduling.SetReadsBack` | yandex/backup_helpers.go:361-389 | A flattened backup set expands to itself, its delay in seconds, exactly when it is stable |
| `BackupScheduling.SetsReadBack` | yandex/backup_helpers.go:306-389 | The same for the whole list |
| `OptionalSchema.ConvertToOptional` | yandex/data_source_yandex_mdb_mongodb_cluster.go:21-43 | The recursive copy leaves the source schema tree, all of it, as it was; the result shares no schema or resource with it and is the weakened tree at every depth |
| `OptionalSchema.WeakenedIsOptional` | yandex/data_source_yandex_mdb_mongodb_cluster.go:21-43 | In the weakened tree everything reachable through lists and sets of resources is optional, not required, not force-new and without exactly-one-of, with keys and types as before; a tree is its own weakening exactly when it has that already |
| `OptionalSchema.WeakenedIsTheOnlyOne` | yandex/data_source_yandex_mdb_mongodb_cluster.go:21-43 | It is the only tree of the same shape that is optional throughout |
| `OptionalSchema.WeakenIdempotent` | yandex/data_source_yandex_mdb_mongodb_cluster.go:21-43 | Applying it twice is applying it once |
| `GoText.AtoiInvertsItoa` | yandex/dynamic_fields.go:178-212 | The decimal text of a number reads back exactly when it fits int64 |
| `GoText.AtoiExact` | yandex/dynamic_fields.go:201-212 | Exactly the texts of digits with or without a sign are read, as the number they spell, if it fits int64 |
| `GoText.SplitInvertsJoin` | yandex/dynamic_fields.go:477-533 | Splitting undoes joining exactly when no part contains the separator |
| `GoText.EnumTextReadsBack` | yandex/backup_helpers.go:285-304 | The text of an enum value is in the table of values exactly when the value has a name, and leads back to it |

## Left out

- CodecProperties.NoPerpetualDiff: the field has the same type in every registered struct type, and neither a check nor a comparison of its own, which could answer anything.
- CodecProperties.NoPerpetualDiffInMap: the same for the configured fields, with `includeNil` and `useDefault` off, and the message is a fresh one.
- CodecProperties.FlattenThenExpand: with `includeNil` and `useDefault` off.
- FieldsInfo.ObjectFieldsInfo.AddSkipEnumGeneratedNames: a check other than the enum-list check, and every comparison, is a function of the texts; in the source it is also handed the registry.
- FieldCodec.ReprintIsStable: names are free of commas and the joined names are not the marker of the empty list.
- AlbListener.ExpandListener: covers expansion only; listeners are not claimed to read back, since flattening stores the stream handler's idle timeout as a raw duration.
- IamSerial.SomeStepIsEnabled: says that a step exists, not that the scheduler is fair to every client.
- IamReadModify.GetResourceIamPolicy: the server's pages, if they all come, make up the policy it holds; in the protocol, each page goes on where the last one ended.
- IamCloud.UpdateResourceIamPolicy: a request that failed has taken effect by the time the call returns or never does.
- OptionalSchema.ConvertToOptional: the source schema is a finite tree of schemas and resources; the element of a list that is a plain schema is shared with the source, as in the code.
- A registry that is nil, and manual entries with only one of the two conversion functions.
- `expandResourceGenerate`, which is the same loop as `expandResourceGenerateNonSkippedFields` without the list of names.
- `findTag`'s parsing of struct tags, and arguments that are not structs or pointers to structs, for which `addType` panics.
- Unicode case mapping: enum names are ASCII.
- Terraform's `ResourceData` and set hashing: sets of strings are sets, and sets of blocks are read in list order.
- The small ALB expanders and flatteners, which fill one message or block field by field, are modelled on values; their loops are methods.
- IamCloud.DeltaExact: what the server does with a delta is an assumption about the API, not code of the provider.
- `expandALBListeners`, which collects the listeners one by one.
- ALB backends, health checks, load balancer locations and log options; backend weights and the first-health-check rule would not read back.
- Retention, compression and the other settings of a backup policy, which copy fields one by one.
- The access bindings of resources other than clouds, whose updaters have the same shape.
- Data source reads, SDK clients, credentials, contexts and logging.
- Schema literals: data without logic.
