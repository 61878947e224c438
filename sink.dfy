/**
  `ParquetSink` (`singer_arrow/src/sink.rs`): a per-stream writer that derives its Arrow schema
  from a SCHEMA message, names its file after the stream inside a base directory, and keeps a
  pending batch of RECORD messages that it flushes to that file.

  `try_new` and the outcome of each write are parameters; the file and the log of written
  records are ghost fields, summarised together with the pending batch by `State()`, which
  each method advances exactly as the `PendingBatch` state machine does.
*/
module Sink {
  import opened Wrappers
  import opened Json
  import opened MessageTypes
  import opened SingerArrow
  import opened PendingBatch

  /** `Path::join` on a Unix path: an absolute `rel` replaces `base`; otherwise a separator is
      put between them unless `base` is empty or already ends in one. */
  function PathJoin(base: string, rel: string): (p: string)
    ensures |rel| > 0 && rel[0] == '/' ==> p == rel
    ensures !(|rel| > 0 && rel[0] == '/') ==> |p| >= |rel| && p[|p| - |rel|..] == rel
    ensures !(|rel| > 0 && rel[0] == '/') ==> |p| >= |base| && p[..|base|] == base
    ensures !(|rel| > 0 && rel[0] == '/') && base != [] && base[|base| - 1] != '/' ==>
              |p| == |base| + 1 + |rel| && p[|base|] == '/'
    ensures !(|rel| > 0 && rel[0] == '/') && (base == [] || base[|base| - 1] == '/') ==>
              |p| == |base| + |rel|
  {
    if |rel| > 0 && rel[0] == '/' then rel
    else if base == [] || base[|base| - 1] == '/' then base + rel
    else base + "/" + rel
  }

  /** The last component of a path: what follows its last separator. */
  function FileName(path: string): (name: string)
    ensures '/' !in name
    ensures |name| <= |path| && path[|path| - |name|..] == name
    ensures |name| < |path| ==> path[|path| - |name| - 1] == '/'
  {
    if path == [] then []
    else if path[|path| - 1] == '/' then []
    else FileName(path[..|path| - 1]) + [path[|path| - 1]]
  }

  lemma {:induction false} FileNameOfSuffix(prefix: string, name: string)
    requires '/' !in name
    requires prefix == [] || prefix[|prefix| - 1] == '/'
    ensures FileName(prefix + name) == name
    decreases |name|
  {
    if name == [] {
      assert prefix + name == prefix;
    } else {
      var init := name[..|name| - 1];
      assert (prefix + name)[..|prefix + name| - 1] == prefix + init;
      assert name[|name| - 1] in name;
      FileNameOfSuffix(prefix, init);
      assert init + [name[|name| - 1]] == name;
    }
  }

  /** The output file of a stream whose name holds no separator is `<stream>.parquet`. */
  lemma OutputFileName(baseDir: string, stream: string)
    requires '/' !in stream
    ensures FileName(PathJoin(baseDir, stream + ".parquet")) == stream + ".parquet"
  {
    var rel := stream + ".parquet";
    assert '/' !in rel by {
      forall i | 0 <= i < |rel| ensures rel[i] != '/' {
        if i < |stream| { assert rel[i] == stream[i] && stream[i] in stream; }
      }
    }
    assert |rel| > 0 && rel[0] != '/';
    if baseDir == [] || baseDir[|baseDir| - 1] == '/' {
      FileNameOfSuffix(baseDir, rel);
    } else {
      FileNameOfSuffix(baseDir + "/", rel);
      assert baseDir + "/" + rel == (baseDir + "/") + rel;
    }
  }

  class ParquetSink {
    const schema: ArrowSchema
    const outputPath: string
    const batchSize: nat
    var currentBatch: seq<Message>
    ghost var file: FileState
    ghost var written: seq<Message>

    ghost predicate Valid()
      reads this
    {
      && DistinctNames(schema)
      && forall i :: 0 <= i < |currentBatch| ==> currentBatch[i].RECORD?
    }

    ghost function State(): Pending
      reads this
    {
      Pending(currentBatch, file, written)
    }

    constructor (schema: ArrowSchema, outputPath: string, batchSize: nat)
      requires DistinctNames(schema)
      ensures Valid()
      ensures this.schema == schema && this.outputPath == outputPath && this.batchSize == batchSize
      ensures State() == Initial
    {
      this.schema := schema;
      this.outputPath := outputPath;
      this.batchSize := batchSize;
      currentBatch := [];
      file := Untouched;
      written := [];
    }

    /** `ParquetSink::new`: only a SCHEMA message will do, its translation must succeed, and
        the file is `<stream>.parquet` in `baseDir`. No file is opened. */
    static method New(schemaMessage: Message, baseDir: string, batchSize: nat) returns (r: Result<ParquetSink, Error>)
      requires schemaMessage.SCHEMA? ==> Canonical(schemaMessage.schema)
      ensures !schemaMessage.SCHEMA? ==> r == Err(Schema("Expected SCHEMA message"))
      ensures schemaMessage.SCHEMA? && SingerSchemaToArrow(schemaMessage).Err? ==>
                r == Err(SingerSchemaToArrow(schemaMessage).error)
      ensures r.Ok? <==> schemaMessage.SCHEMA? && SingerSchemaToArrow(schemaMessage).Ok?
      ensures r.Ok? ==>
                && fresh(r.value)
                && r.value.Valid()
                && r.value.schema == SingerSchemaToArrow(schemaMessage).value
                && r.value.outputPath == PathJoin(baseDir, schemaMessage.stream + ".parquet")
                && r.value.batchSize == batchSize
                && r.value.State() == Initial
    {
      if !schemaMessage.SCHEMA? {
        return Err(Schema("Expected SCHEMA message"));
      }
      var schema :- SingerSchemaToArrow(schemaMessage);
      SchemaNamesDistinct(schemaMessage);
      var outputPath := PathJoin(baseDir, schemaMessage.stream + ".parquet");
      var sink := new ParquetSink(schema, outputPath, batchSize);
      return Ok(sink);
    }

    /** `add_record`. */
    method AddRecord(record: Message, tryNew: TryNew, outcome: WriteOutcome) returns (r: Result<(), Error>)
      requires Valid()
      modifies this
      ensures Valid()
      ensures (State(), r) == AddRecordStep(old(State()), record, batchSize, schema, tryNew, outcome)
    {
      if record.RECORD? {
        currentBatch := currentBatch + [record];
        if |currentBatch| >= batchSize {
          r := Flush(tryNew, outcome);
          if r.Err? {
            return;
          }
        }
      }
      return Ok(());
    }

    /** `flush`. */
    method Flush(tryNew: TryNew, outcome: WriteOutcome) returns (r: Result<(), Error>)
      requires Valid()
      modifies this
      ensures Valid()
      ensures (State(), r) == FlushStep(old(State()), schema, tryNew, outcome)
    {
      if |currentBatch| == 0 {
        return Ok(());
      }
      var batch :- ToRecordBatch(currentBatch, schema, tryNew);
      r := WriteBatch(batch, outcome);
      if r.Err? {
        return;
      }
      written := written + currentBatch;
      currentBatch := [];
    }

    /** `write_batch`: creates (or truncates) the file at `outputPath` and writes the batch. */
    method WriteBatch(batch: RecordBatch, outcome: WriteOutcome) returns (r: Result<(), Error>)
      modifies this`file
      ensures (file, r) == WriteStep(old(file), batch, outcome)
    {
      match outcome {
        case Written =>
          file := Holding(batch);
          r := Ok(());
        case CreateFailed(msg) =>
          r := Err(Io(msg));
        case WriterFailed(msg) =>
          file := Truncated;
          r := Err(Parquet(msg));
      }
    }
  }
}
