/**
  `ParquetTarget` (`singer_arrow/src/target.rs`): the same pending-batch writer as
  `ParquetSink`, except that the caller gives the output file's path and the only construction
  errors are those of the schema translation.

  `try_new` and the outcome of each write are parameters; the file and the log of written
  records are ghost fields, summarised together with the pending batch by `State()`, which
  each method advances exactly as the `PendingBatch` state machine does.
*/
module Target {
  import opened Wrappers
  import opened Json
  import opened MessageTypes
  import opened SingerArrow
  import opened PendingBatch

  class ParquetTarget {
    const schema: ArrowSchema
    const outputPath: string
    const batchSize: nat
    var currentBatch: seq<Message>
    ghost var file: FileState
    ghost var written: seq<Message>

    ghost predicate Valid()
      reads this
    {
      && DistinctNames(schema)
      && forall i :: 0 <= i < |currentBatch| ==> currentBatch[i].RECORD?
    }

    ghost function State(): Pending
      reads this
    {
      Pending(currentBatch, file, written)
    }

    constructor (schema: ArrowSchema, outputPath: string, batchSize: nat)
      requires DistinctNames(schema)
      ensures Valid()
      ensures this.schema == schema && this.outputPath == outputPath && this.batchSize == batchSize
      ensures State() == Initial
    {
      this.schema := schema;
      this.outputPath := outputPath;
      this.batchSize := batchSize;
      currentBatch := [];
      file := Untouched;
      written := [];
    }

    /** `ParquetTarget::new`: the translation's error, if any, is returned as is; the file is
        the given `outputPath`. No file is opened. */
    static method New(schemaMessage: Message, outputPath: string, batchSize: nat) returns (r: Result<ParquetTarget, Error>)
      requires schemaMessage.SCHEMA? ==> Canonical(schemaMessage.schema)
      ensures SingerSchemaToArrow(schemaMessage).Err? ==> r == Err(SingerSchemaToArrow(schemaMessage).error)
      ensures !schemaMessage.SCHEMA? ==> r == Err(Schema("Not a SCHEMA message"))
      ensures r.Ok? <==> SingerSchemaToArrow(schemaMessage).Ok?
      ensures r.Ok? ==>
                && fresh(r.value)
                && r.value.Valid()
                && r.value.schema == SingerSchemaToArrow(schemaMessage).value
                && r.value.outputPath == outputPath
                && r.value.batchSize == batchSize
                && r.value.State() == Initial
    {
      var schema :- SingerSchemaToArrow(schemaMessage);
      SchemaNamesDistinct(schemaMessage);
      var target := new ParquetTarget(schema, outputPath, batchSize);
      return Ok(target);
    }

    /** `add_record`. */
    method AddRecord(record: Message, tryNew: TryNew, outcome: WriteOutcome) returns (r: Result<(), Error>)
      requires Valid()
      modifies this
      ensures Valid()
      ensures (State(), r) == AddRecordStep(old(State()), record, batchSize, schema, tryNew, outcome)
    {
      if record.RECORD? {
        currentBatch := currentBatch + [record];
        if |currentBatch| >= batchSize {
          r := Flush(tryNew, outcome);
          if r.Err? {
            return;
          }
        }
      }
      return Ok(());
    }

    /** `flush`. */
    method Flush(tryNew: TryNew, outcome: WriteOutcome) returns (r: Result<(), Error>)
      requires Valid()
      modifies this
      ensures Valid()
      ensures (State(), r) == FlushStep(old(State()), schema, tryNew, outcome)
    {
      if |currentBatch| == 0 {
        return Ok(());
      }
      var batch :- ToRecordBatch(currentBatch, schema, tryNew);
      r := WriteBatch(batch, outcome);
      if r.Err? {
        return;
      }
      written := written + currentBatch;
      currentBatch := [];
    }

    /** `write_batch`: creates (or truncates) the file at `outputPath` and writes the batch. */
    method WriteBatch(batch: RecordBatch, outcome: WriteOutcome) returns (r: Result<(), Error>)
      modifies this`file
      ensures (file, r) == WriteStep(old(file), batch, outcome)
    {
      match outcome {
        case Written =>
          file := Holding(batch);
          r := Ok(());
        case CreateFailed(msg) =>
          r := Err(Io(msg));
        case WriterFailed(msg) =>
          file := Truncated;
          r := Err(Parquet(msg));
      }
    }
  }
}
