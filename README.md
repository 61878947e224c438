# singer-rust core, modelled in Dafny

This project models the non-plumbing logic of singer-rust, a Rust implementation of the
Singer data-exchange protocol. It covers four pieces:

- **Message model.** The five Singer message kinds (`ACTIVATE_VERSION`, `BATCH`, `RECORD`,
  `SCHEMA`, `STATE`) are modelled with their JSON form. The JSON *value* that serde derives for
  each kind is `MessageTypes.Encode`. The decoder serde derives for the internally tagged enum
  is `MessageTypes.Decode`. Both work at the level of JSON values (`Json.Value`).
  `Json.Compact` renders a value as serde_json's compact text.
- **Dispatcher.** `MessageIo` models the default methods of the `MessageReader` trait:
  - `process_line` decodes one line and calls exactly one of five hooks;
  - `process_lines` runs it over the lines in order and stops at the first failure.
  A reader is a `Hooks` function from the reader's state and a `HookCall` to the new state and
  the hook's result.
- **Schema translation and column assembly.** `SingerArrow` covers three operations:
  - `json_type_to_arrow`;
  - `singer_schema_to_arrow`;
  - `to_record_batch`, written imperatively over a builder map.
  An Arrow schema is a list of fields. A column is a list of optional strings.
- **Batched sinks and the summariser.**
  - `PendingBatch` is the state machine shared by `ParquetSink` (module `Sink`) and
    `ParquetTarget` (module `Target`). Both are classes whose methods advance that machine.
  - `Summarize.StatsReader` is the concrete reader that counts messages per stream and keeps
    the last STATE value.

The model is checked against these external effects, each given as a parameter:
- `RecordBatch::try_new` is the parameter `SingerArrow.TryNew`. It either accepts the columns
  or rejects them with an Arrow error message.
- The outcome of each Parquet file write is a `PendingBatch.WriteOutcome`. It can be success, a
  `File::create` failure, or a writer failure after the file was created.

The output file's contents are ghost state (`PendingBatch.FileState`). So is a log of the records
written so far, which has no counterpart in the source. The log exists to state that no record is
lost or written twice.

A cell holds the JSON text of the record's value (`v.to_string()` in
`singer_arrow/src/lib.rs:95`), so the string `"1"` becomes the cell `"\"1\""`
(`SingerArrow.TwoRecordColumns`).

JSON values inside a message (a record, a schema, a state value) are read into
`serde_json::Value`, whose objects are maps: `Json.Normalize` sorts each object's keys and keeps
the last of repeated keys, at every depth. A value in that form is `Json.Canonical`. Every
message decoded from a line is canonical, and a message whose values are canonical survives the
round trip unchanged.

Every column is built with a string builder. When `try_new` rejects a column whose type
differs from its field's, as the Arrow library does, a flush of a schema with an `integer`,
`number` or `boolean` property always fails (`SingerArrow.NonStringFieldRejected`).
The Arrow library's `try_new` also rejects a null in a non-nullable column. Every translated
field is non-nullable, so in the source a flush fails when a record lacks one of the schema's
properties. That check belongs to `try_new` and is not modelled: it is left to the `TryNew`
parameter.

## Model

| member | source | states |
|---|---|---|
| MessageTypes.TypeName | singer_rust/src/message/types.rs:39-41 | the wire tag of every message is one of the five variant names |
| MessageTypes.Encode | singer_rust/src/message/types.rs:39-93 | an encoded message is an object whose first member is "type" with the variant's name; the remaining keys are exactly the variant's field names in declaration order, each once |
| MessageTypes.ToString | singer_rust/src/message/types.rs:118-120 | serde_json's compact text of a message contains no line feed |
| MessageTypes.EncodedVersionInRange | singer_rust/src/message/types.rs:43-73 | the version written for ACTIVATE_VERSION and RECORD is found once, as a number in 0..2^64-1 |
| MessageTypes.FindAbsent | singer_rust/src/message/types.rs:39-41 | a field is reported absent exactly when no member of the object has its name |
| MessageTypes.FindOnce | singer_rust/src/message/types.rs:39-41 | a field reported present once is held, with that value, by exactly one member |
| MessageTypes.FindDistinct | singer_rust/src/message/types.rs:39-41 | in an object with distinct keys every member's key is found once with its value |
| MessageTypes.RoundTripActivateVersion | singer_rust/src/message/types.rs:43-49 | decoding the encoded fields of an ACTIVATE_VERSION gives it back |
| MessageTypes.RoundTripBatch | singer_rust/src/message/types.rs:50-59 | decoding the encoded fields of a BATCH, including its encoding object, gives it back |
| MessageTypes.RoundTripRecord | singer_rust/src/message/types.rs:60-73 | decoding the encoded fields of a RECORD gives it back; a missing time_extracted, written as null, comes back as None |
| MessageTypes.RoundTripSchema | singer_rust/src/message/types.rs:74-88 | decoding the encoded fields of a SCHEMA, with both property lists, gives it back |
| MessageTypes.RoundTrip | singer_rust/src/message/types.rs:114-120 | from_string(to_string(m)) == m, at the JSON-value level, for every message whose JSON values are ones serde_json can hold |
| MessageTypes.Decode | singer_rust/src/message/types.rs:163-165 | a decoded message comes from an object holding "type" once, with the message's variant name, and every JSON value in the message is a serde_json map at every depth |
| MessageTypes.DecodeVariant | singer_rust/src/message/types.rs:39-41 | the result has the variant the tag names and canonical values; a tag naming no variant is UnknownVariant with that tag |
| MessageTypes.DecodeActivateVersion | singer_rust/src/message/types.rs:43-49 | a success is an ACTIVATE_VERSION carrying the object's stream and version; a missing or repeated stream or version is an error |
| MessageTypes.DecodeBatch | singer_rust/src/message/types.rs:50-59 | a success is a BATCH carrying the object's stream, its manifest strings, and the BatchEncoding read from its "encoding" member; a missing or repeated stream, manifest or encoding is an error |
| MessageTypes.DecodeRecord | singer_rust/src/message/types.rs:60-73 | a success is a RECORD carrying the object's stream, its record read as a serde_json map, its version (0 when absent) and its time_extracted (None when absent or null, Some when a string); a missing or repeated stream or record, a repeated time_extracted or version, or a time_extracted that is neither null nor a string, is an error |
| MessageTypes.DecodeSchema | singer_rust/src/message/types.rs:74-88 | a success is a SCHEMA carrying the object's stream and its schema read as a serde_json map, with each property list empty when absent and otherwise the strings of the object's array; a missing or repeated stream or schema, or a repeated property list, is an error |
| MessageTypes.DecodeState | singer_rust/src/message/types.rs:89-92 | decoding succeeds exactly when "value" occurs once, and gives STATE of that value read as a serde_json map |
| MessageTypes.StringField | singer_rust/src/message/types.rs:45 | a String field is read exactly when it occurs once as a JSON string, and then as that string |
| MessageTypes.StringListField | singer_rust/src/message/types.rs:81-87 | a Vec<String> field is read exactly when it occurs once as an array of strings, or is absent and defaulted (then empty), and then as those strings |
| MessageTypes.U64Field | singer_rust/src/message/types.rs:47-48 | a u64 field is read exactly when it occurs once as an integer in 0..2^64-1, or is absent and defaulted (then 0), and then as that integer |
| MessageTypes.OptionalStringField | singer_rust/src/message/types.rs:67-68 | an Option<String> field is read exactly when it is absent, null or a string once: None for absent or null, Some of the string otherwise |
| MessageTypes.ValueField | singer_rust/src/message/types.rs:64-65 | a Value field is read exactly when it occurs once, as that value in serde_json's canonical form |
| MessageTypes.EncodingField | singer_rust/src/message/types.rs:4-11 | a BatchEncoding is read from an object's format and compression strings, or from an array of exactly two strings in field order; an array of any other length is an error |
| MessageTypes.EncodingAsArray | singer_rust/src/message/types.rs:50-59 | a BATCH whose encoding is written as ["parquet", "gzip"] decodes with that encoding |
| MessageTypes.RepeatedRecordKeyLastWins | singer_rust/src/message/types.rs:60-73 | a record object with "id" given twice decodes to a record holding only the last "id" |
| Json.Insert | singer_rust/src/message/types.rs:64-65 | map insertion keeps the keys sorted, gives the key the new value and leaves every other entry |
| Json.BuildMap | singer_rust/src/message/types.rs:64-65 | the map built from an object's members has sorted keys, holds for each key the value of its last member, and holds nothing else |
| Json.Normalize | singer_rust/src/message/types.rs:64-65 | the value serde_json reads is canonical: sorted, distinct keys at every depth |
| Json.NormalizeCanonical | singer_rust/src/message/types.rs:64-65 | a value serde_json holds is read back unchanged |
| Json.NormalizeLastWins | singer_rust/src/message/types.rs:64-65 | of several members with one key, the map keeps the last, itself read as a map |
| MessageTypes.DecodeChoosesByTag | singer_rust/src/message/types.rs:39-93 | a decode succeeds exactly when "type" occurs once as one of the five names and that variant's fields decode; the result's variant is the one the tag names |
| MessageTypes.DecodeTagErrors | singer_rust/src/message/types.rs:39-41 | a non-object, a missing, repeated or non-string "type", and an unknown tag are each a decode error, with the matching error kind |
| MessageTypes.MissingRequiredFieldFails | singer_rust/src/message/types.rs:43-92 | a field without a default (stream, record, schema, value, ACTIVATE_VERSION's version, BATCH's manifest and encoding) that is absent or repeated makes the decode fail |
| MessageTypes.DuplicateFieldFails | singer_rust/src/message/types.rs:39-93 | any field of the variant given twice makes the decode fail |
| MessageTypes.SchemaDefaults | singer_rust/src/message/types.rs:81-87 | an absent key_properties or bookmark_properties decodes as the empty list |
| MessageTypes.RecordDefaults | singer_rust/src/message/types.rs:67-72 | an absent version decodes as 0; an absent or null time_extracted decodes as None and a string one as Some of that string |
| MessageTypes.VersionOutOfRangeFails | singer_rust/src/message/types.rs:43-73 | a version outside 0..2^64-1 in ACTIVATE_VERSION or RECORD is a decode error |
| MessageTypes.DecodedFields | singer_rust/src/message/types.rs:43-92 | every field of a decoded message comes from the object: stream, version, manifest and present property lists as they are, time_extracted as an option, encoding as its struct reading, and record, schema and value read into serde_json maps |
| Json.CompactNoNewline | singer_rust/src/message/io.rs:29 | serde_json's compact text of any value contains no line feed |
| Json.QuotedPlain | singer_arrow/src/lib.rs:95 | a string of characters that need no escape is printed as itself between quotes |
| MessageIo.MessageLine | singer_rust/src/message/io.rs:27-31 | the emitted line is the serialised message followed by one line feed, the only one in it |
| MessageIo.HookFor | singer_rust/src/message/io.rs:37-59 | each variant selects its own hook, and the call carries the variant's fields unchanged |
| MessageIo.HookForOnto | singer_rust/src/message/io.rs:37-59 | every hook call is the dispatch of exactly one message |
| MessageIo.ProcessLine | singer_rust/src/message/io.rs:35-60 | a line that fails to decode returns the decode error and leaves the reader's state unchanged; a decoded line makes exactly the one hook call of its variant, and process_line returns that hook's result |
| MessageIo.ProcessLines | singer_rust/src/message/io.rs:67-73 | the run succeeds exactly when every line succeeds in the state the earlier lines left; a failed run names a line of the input whose predecessors all succeeded, and ends in the state that line's failure left |
| MessageIo.FeedAppend | singer_rust/src/message/io.rs:68-71 | lines are handled strictly in order: a then b is a, then b from where a left off |
| MessageIo.FeedStops | singer_rust/src/message/io.rs:69-70 | after the first failing line no later line is handled |
| MessageIo.FirstFailure | singer_rust/src/message/io.rs:68-72 | a failed run reports the first failing line, whose predecessors all succeeded |
| MessageIo.FeedOk | singer_rust/src/message/io.rs:68-72 | a run succeeds exactly when every line succeeds in the state its predecessors left |
| MessageIo.HooksFireInOrder | singer_rust/src/message/io.rs:67-72 | on lines that all decode, the hooks fire once per line in line order, and the run returns Ok |
| MessageIo.HooksStopAtBadLine | singer_rust/src/message/io.rs:67-72 | at the first line that fails to decode the run stops; only the earlier lines' hooks have fired |
| SingerArrow.JsonTypeToArrow | singer_arrow/src/lib.rs:27-43 | the four type names map to Utf8, Int64, Float64 and Boolean; a non-string is "Type must be a string"; any other name is "Unsupported type: <name>" |
| SingerArrow.JsonTypeNameRoundTrip | singer_arrow/src/lib.rs:32-36 | every Arrow type is reached from its type name |
| SingerArrow.PropertyField | singer_arrow/src/lib.rs:57-63 | a property gives a non-nullable field with its name and translated type; a missing "type" is "Property <name> missing type"; a type error propagates |
| SingerArrow.PropertyFields | singer_arrow/src/lib.rs:53-64 | the fields are one per property in order; the error is that of the first failing property |
| SingerArrow.SingerSchemaToArrow | singer_arrow/src/lib.rs:46-70 | it gives "Not a SCHEMA message", "Schema missing properties" or "Properties must be an object" in those cases; otherwise it gives the translation of properties |
| SingerArrow.SchemaFields | singer_arrow/src/lib.rs:53-66 | on success there is one non-nullable field per property, with its name and order and with json_type_to_arrow of its "type" |
| SingerArrow.SchemaNamesDistinct | singer_arrow/src/lib.rs:53-66 | a schema translated from a JSON map names each field once |
| SingerArrow.RecordsOfCount | singer_arrow/src/lib.rs:90-99 | one row per RECORD message; other messages contribute none |
| SingerArrow.Cell | singer_arrow/src/lib.rs:93-97 | a cell is the JSON text of record[name] when the key is present and null otherwise |
| SingerArrow.ColumnOf | singer_arrow/src/lib.rs:90-99 | a field's column has one cell per record, in record order |
| SingerArrow.Converted | singer_arrow/src/lib.rs:78-113 | an empty message list gives an empty batch with the schema, without calling try_new; otherwise a batch has the given schema, one column per field in field order, one row per RECORD and each cell as above; a failure is an Arrow error |
| SingerArrow.NonStringFieldRejected | singer_arrow/src/lib.rs:83-112 | if try_new checks column types, any non-empty conversion for a schema with a non-string field fails with an Arrow error |
| SingerArrow.TwoPropertySchema | singer_arrow/src/lib.rs:46-70 | an integer "id" and a string "name" give exactly two non-nullable fields, Int64 and Utf8 |
| SingerArrow.UnsupportedPropertyType | singer_arrow/src/lib.rs:38-41 | an unknown type name in a property is reported by name |
| SingerArrow.TwoRecordColumns | singer_arrow/src/lib.rs:141-171 | the test's records {"id": "1", "name": "Alice"} and {"id": "2", "name": "Bob"} give a batch of two rows and two columns, holding the quoted texts "\"1\"", "\"2\"" and "\"Alice\"", "\"Bob\"" |
| SingerArrow.NewBuilders | singer_arrow/src/lib.rs:83-87 | one empty builder per field name |
| SingerArrow.AppendRecord | singer_arrow/src/lib.rs:92-98 | every builder, visited in any order, gets exactly that record's cell appended |
| SingerArrow.FinishColumns | singer_arrow/src/lib.rs:103-110 | the builders are removed and finished in field order |
| SingerArrow.ToRecordBatch | singer_arrow/src/lib.rs:78-113 | the imperative conversion computes exactly the batch Converted describes, or try_new's error |
| PendingBatch.WriteStep | singer_arrow/src/sink.rs:72-83 | a successful write leaves the file holding exactly the batch; a failed create is an Io error with the file unchanged; a writer failure is a Parquet error with the file truncated |
| PendingBatch.FlushStep | singer_arrow/src/sink.rs:60-70 | empty is a no-op; otherwise the batch is cleared exactly when conversion and write succeed, and then the file holds its conversion; on failure the batch is kept and the error is the conversion's, or the write's with the file as WriteStep leaves it; no record is lost or duplicated |
| PendingBatch.AddRecordStep | singer_arrow/src/sink.rs:48-58 | non-RECORDs are ignored with Ok; a RECORD is appended, and the one that reaches batch_size makes the step exactly a flush of the extended batch, whose file and error it returns; after success the pending length is below batch_size when batch_size > 0; no record is lost |
| PendingBatch.OnlyRecords | singer_arrow/src/sink.rs:49-50 | the records a sink keeps are RECORD messages only |
| PendingBatch.AddAll | singer_arrow/src/sink.rs:48-70 | after any error-free run of add_record, written records followed by pending ones are exactly the RECORDs added, in order |
| PendingBatch.AddAllBelowThreshold | singer_arrow/src/sink.rs:48-58 | below batch_size RECORDs only accumulate and nothing is written |
| PendingBatch.FlushOverwrites | singer_arrow/src/sink.rs:72-81 | after a successful flush the file holds only that flush's batch, whatever it held before |
| PendingBatch.FlushRetry | singer_arrow/src/sink.rs:65-67 | a failed flush keeps the batch, and a later successful flush writes it |
| PendingBatch.TwoRecordsStayPending | singer_arrow/src/sink.rs:48-58 | two RECORDs with batch_size above two stay pending and the file is not touched |
| PendingBatch.ThresholdFlushes | singer_arrow/src/sink.rs:50-54 | the RECORD that reaches batch_size writes a batch of batch_size rows and clears the pending batch |
| Sink.PathJoin | singer_arrow/src/sink.rs:37 | Path::join: an absolute name replaces the base; otherwise the name follows the base, with a separator put between them unless the base is empty or already ends in one |
| Sink.OutputFileName | singer_arrow/src/sink.rs:37 | for a stream name without '/', the sink's file is named "<stream>.parquet" |
| Sink.ParquetSink.constructor | singer_arrow/src/sink.rs:39-45 | a new sink has the given schema, path and batch size; its pending batch is empty and its file untouched |
| Sink.ParquetSink.New | singer_arrow/src/sink.rs:22-46 | a non-SCHEMA message gives "Expected SCHEMA message"; a translation error propagates; otherwise the sink has the translated schema and the file base_dir/<stream>.parquet |
| Sink.ParquetSink.AddRecord | singer_arrow/src/sink.rs:48-58 | the sink's state advances exactly as AddRecordStep |
| Sink.ParquetSink.Flush | singer_arrow/src/sink.rs:60-70 | the sink's state advances exactly as FlushStep |
| Sink.ParquetSink.WriteBatch | singer_arrow/src/sink.rs:72-83 | the file changes exactly as WriteStep |
| Target.ParquetTarget.constructor | singer_arrow/src/target.rs:32-38 | a new target has the given schema, path and batch size; its pending batch is empty and its file untouched |
| Target.ParquetTarget.New | singer_arrow/src/target.rs:22-39 | any translation error propagates as is, including "Not a SCHEMA message"; otherwise the file is exactly the given output_path |
| Target.ParquetTarget.AddRecord | singer_arrow/src/target.rs:41-51 | the target's state advances exactly as AddRecordStep |
| Target.ParquetTarget.Flush | singer_arrow/src/target.rs:53-63 | the target's state advances exactly as FlushStep |
| Target.ParquetTarget.WriteBatch | singer_arrow/src/target.rs:65-76 | the file changes exactly as WriteStep |
| Summarize.Bump | singer_summarize/src/lib.rs:83 | one counter goes up by one and the other three are unchanged |
| Summarize.Increment | singer_summarize/src/lib.rs:78-83 | the stream gains a zeroed counter if absent and that counter goes up by one; other streams and the STATE stats are unchanged |
| Summarize.Apply | singer_summarize/src/lib.rs:70-137 | process_state counts and overwrites last_seen and leaves the streams; every other hook increments only its own counter of its stream |
| Summarize.StatsHooks | singer_summarize/src/lib.rs:70-137 | no hook of the reader fails, and each applies its call's update to the stats |
| Summarize.ApplyStepsCounts | singer_summarize/src/lib.rs:9-21 | one hook raises no count by more than one |
| Summarize.StatsReader.constructor | singer_summarize/src/lib.rs:57-61 | a fresh reader has no streams, a STATE count of 0 and last_seen Null |
| Summarize.StatsReader.ProcessRecord | singer_summarize/src/lib.rs:71-85 | increments only the stream's record counter and returns Ok |
| Summarize.StatsReader.ProcessSchema | singer_summarize/src/lib.rs:87-101 | increments only the stream's schema counter and returns Ok |
| Summarize.StatsReader.ProcessActivateVersion | singer_summarize/src/lib.rs:103-115 | increments only the stream's activate_version counter and returns Ok |
| Summarize.StatsReader.ProcessBatch | singer_summarize/src/lib.rs:117-130 | increments only the stream's batch counter and returns Ok |
| Summarize.StatsReader.ProcessState | singer_summarize/src/lib.rs:132-136 | increments the STATE count, sets last_seen, leaves the streams, returns Ok |
| Summarize.StatsReader.ProcessLine | singer_rust/src/message/io.rs:35-60 | the reader's process_line does exactly what the generic dispatcher does with its hooks |
| Summarize.StatsReader.ProcessLines | singer_rust/src/message/io.rs:67-73 | the reader's process_lines loop does exactly what the generic run does with its hooks |
| Summarize.ReadingReplays | singer_rust/src/message/io.rs:67-73 | reading lines that decode succeeds and leaves the stats of replaying their messages in order |
| Summarize.ReadingFailsOnlyOnDecode | singer_summarize/src/lib.rs:70-137 | every hook returns Ok, so reading fails only at a line that does not decode, with its decode error |
| Summarize.Replay | singer_summarize/src/lib.rs:71-136 | after a sequence of hooks the map's keys are the streams already there and those named by non-STATE messages, and the STATE count grows by the number of STATE messages |
| Summarize.ReplayState | singer_summarize/src/lib.rs:132-136 | the STATE count is the number of STATE messages; last_seen is the final one's value, or Null when there is none |
| Summarize.ReplayPerStream | singer_summarize/src/lib.rs:71-130 | each counter of each stream equals the number of that stream's messages of its kind |
| Summarize.TotalIncrement | singer_summarize/src/lib.rs:78-83 | one hook adds one to its counter's total over all streams and nothing to the others' |
| Summarize.ReplayTotals | singer_summarize/src/lib.rs:71-130 | summed over streams, each counter equals the number of messages of its kind |
| Summarize.RecordTotal | singer_summarize/src/lib.rs:71-85 | the record counts of all streams sum to the number of RECORD messages |
| Summarize.ExampleSummary | singer_summarize/src/lib.rs:150-163 | a sequence built to fit the test's assertions (its input file is not part of this model): a SCHEMA, two RECORDs and a STATE for one stream give one stream with schema 1 and record 2, STATE count 1, and the STATE value |

## Left out

- JSON text: the model works on parsed JSON values.
  - The text parser is not modelled: malformed text, whitespace and a line that is not JSON at
    all.
  - serde's acceptance of a JSON array in place of a whole variant's object is not modelled;
    the array form of the `BatchEncoding` struct is (`MessageTypes.EncodingField`).
  - Floating-point numbers are not modelled. Integers are unbounded rather than limited to
    serde_json's i64/u64 range.
  - An object is a sequence of members. Inside a message's values it is read as serde_json's
    default map, a `BTreeMap` (sorted keys, the last repeated key wins). The `preserve_order`
    feature, which keeps insertion order, is not modelled.
  - The message object itself keeps its members' order, as serde's derived decoder sees them.
  - `Json.Compact` follows serde_json's compact printer and escape table on the modelled values.
- MessageTypes.Decode: serde's error reasons are kept, but not always its choice among several
  errors in one object: fields are checked in declaration order, while serde reports errors in
  the order it meets the members. Whether the decode succeeds does not depend on that choice.
- Reading and writing streams:
  - `write_message`'s stdout lock and `write_all` errors;
  - `process_lines`'s `BufReader::lines`, whose read errors `expect` turns into a panic.
  The input is a sequence of parsed lines. The panic on the first failing line is modelled as
  the run's `Err(LineFailure(index, error))`.
- The `MessageReader` trait: it is not a Dafny trait. It is modelled generically as a `Hooks`
  function, and concretely as the methods of `Summarize.StatsReader`.
- Arrow and Parquet internals, given as parameters instead:
  - `StringBuilder`;
  - `RecordBatch::try_new`'s validation;
  - `ArrowWriter`, Snappy compression and the writer properties;
  - the bytes of the Parquet file.
  The file is described only as untouched, holding one batch, or truncated.
- SingerArrow.ToRecordBatch: requires distinct field names. The source then panics at
  `unwrap` in `builders.remove`. Every schema the sinks hold has distinct names, because it
  comes from a JSON map (`SchemaNamesDistinct`).
- Sink.ParquetSink.New and Target.ParquetTarget.New: require the SCHEMA's schema value to be a
  serde_json map at every depth (`Json.Canonical`), as every decoded SCHEMA's is.
- batch_size: `usize` is modelled as an unbounded natural number.
- Summarize.StatsReader.ProcessRecord and the other hook methods: the `u32` counters are
  unbounded. Each hook requires its counter to be below 2^32-1, so no `+= 1` overflows.
  `ProcessLines` requires room for one increment per line.
- The `Serialize` output format of `Stats`.
- `singer_summarize/src/bin/singer-summarize.rs` and `singer_summarize/src/cli.rs`: process
  wiring, argument parsing and printing.
- `singer_rust/src/lib.rs` is not part of this model. It only re-exports the message module and
  tests it.
