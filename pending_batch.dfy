/**
  The pending-batch state machine shared by `ParquetSink` (`singer_arrow/src/sink.rs`) and
  `ParquetTarget` (`singer_arrow/src/target.rs`): RECORD messages accumulate until the batch
  size is reached, then the whole batch is converted and written to the output file, which
  each write creates afresh.

  The file system and the Parquet writer are outside the model: a write's outcome is given
  as a `WriteOutcome`, and the file is described by a `FileState`. `written` accumulates the
  records of every successful write, in order; it has no counterpart in the source and is
  there to state that no record is lost or written twice.
*/
module PendingBatch {
  import opened Wrappers
  import opened MessageTypes
  import opened SingerArrow

  /** What happens when the batch is written: `File::create` fails, or it succeeds and the
      Parquet writer then fails, or everything succeeds. */
  datatype WriteOutcome = Written | CreateFailed(msg: string) | WriterFailed(msg: string)

  /** The output file: as it was before any write, holding one batch, or created (hence
      truncated) by a write that then failed. */
  datatype FileState = Untouched | Holding(batch: RecordBatch) | Truncated

  datatype Pending = Pending(batch: seq<Message>, file: FileState, written: seq<Message>)

  /** A fresh sink: nothing pending, the file not touched, nothing written. */
  const Initial: Pending := Pending([], Untouched, [])

  /** `write_batch`: create the file, then write the batch with the Parquet writer. */
  function WriteStep(file: FileState, batch: RecordBatch, outcome: WriteOutcome): (r: (FileState, Result<(), Error>))
    ensures r.1.Ok? <==> outcome.Written?
    ensures r.1.Ok? ==> r.0 == Holding(batch)
    ensures outcome.CreateFailed? ==> r == (file, Err(Io(outcome.msg)))
    ensures outcome.WriterFailed? ==> r == (Truncated, Err(Parquet(outcome.msg)))
  {
    match outcome
    case Written => (Holding(batch), Ok(()))
    case CreateFailed(msg) => (file, Err(Io(msg)))
    case WriterFailed(msg) => (Truncated, Err(Parquet(msg)))
  }

  /** `flush`: nothing to do on an empty batch; otherwise convert, write, and clear only when
      both succeed. */
  function FlushStep(p: Pending, schema: ArrowSchema, tryNew: TryNew, outcome: WriteOutcome): (r: (Pending, Result<(), Error>))
    ensures p.batch == [] ==> r == (p, Ok(()))
    ensures r.0.written + r.0.batch == p.written + p.batch
    ensures r.1.Ok? ==> r.0.batch == []
    ensures r.1.Err? ==> r.0.batch == p.batch && r.0.written == p.written
    ensures p.batch != [] && r.1.Ok? <==>
              p.batch != [] && Converted(p.batch, schema, tryNew).Ok? && outcome.Written?
    ensures p.batch != [] && r.1.Ok? ==>
              r.0.file == Holding(Converted(p.batch, schema, tryNew).value) && r.0.written == p.written + p.batch
    ensures Converted(p.batch, schema, tryNew).Err? ==> r.0 == p
    ensures p.batch != [] && Converted(p.batch, schema, tryNew).Err? ==>
              r.1 == Err(Converted(p.batch, schema, tryNew).error)
    ensures p.batch != [] && Converted(p.batch, schema, tryNew).Ok? ==>
              (r.0.file, r.1) == WriteStep(p.file, Converted(p.batch, schema, tryNew).value, outcome)
  {
    if p.batch == [] then (p, Ok(()))
    else
      match Converted(p.batch, schema, tryNew)
      case Err(e) => (p, Err(e))
      case Ok(b) =>
        var (file, res) := WriteStep(p.file, b, outcome);
        if res.Err? then (p.(file := file), res)
        else (Pending([], file, p.written + p.batch), Ok(()))
  }

  /** `add_record`: RECORD messages are appended, and reaching the batch size flushes; every
      other message is ignored. */
  function AddRecordStep(p: Pending, m: Message, batchSize: nat, schema: ArrowSchema, tryNew: TryNew,
                         outcome: WriteOutcome): (r: (Pending, Result<(), Error>))
    ensures !m.RECORD? ==> r == (p, Ok(()))
    ensures m.RECORD? ==> r.0.written + r.0.batch == p.written + p.batch + [m]
    ensures m.RECORD? ==> r.0.batch == p.batch + [m] || r.0.batch == []
    ensures m.RECORD? && r.1.Ok? && batchSize > 0 ==> |r.0.batch| < batchSize
    ensures r.1.Err? ==> r.0.batch == p.batch + [m] && r.0.written == p.written
    ensures m.RECORD? && |p.batch| + 1 < batchSize ==> r == (p.(batch := p.batch + [m]), Ok(()))
    ensures m.RECORD? && |p.batch| + 1 >= batchSize ==>
              r == FlushStep(p.(batch := p.batch + [m]), schema, tryNew, outcome)
  {
    if !m.RECORD? then (p, Ok(()))
    else
      var q := p.(batch := p.batch + [m]);
      if |q.batch| >= batchSize then FlushStep(q, schema, tryNew, outcome)
      else (q, Ok(()))
  }

  /** A sequence of messages added one after another, each write having the outcome `Written`;
      the first error stops the sequence. Records are never lost nor duplicated: without an
      error, everything written so far followed by what is pending is exactly the RECORD
      messages added, in order. */
  function AddAll(p: Pending, msgs: seq<Message>, batchSize: nat, schema: ArrowSchema, tryNew: TryNew): (r: (Pending, Result<(), Error>))
    ensures r.1.Ok? ==> r.0.written + r.0.batch == p.written + p.batch + OnlyRecords(msgs)
    decreases |msgs|
  {
    if msgs == [] then (p, Ok(()))
    else
      var (q, res) := AddRecordStep(p, msgs[0], batchSize, schema, tryNew, Written);
      if res.Err? then (q, res)
      else
        var r := AddAll(q, msgs[1..], batchSize, schema, tryNew);
        var head := if msgs[0].RECORD? then [msgs[0]] else [];
        assert q.written + q.batch == p.written + p.batch + head;
        assert OnlyRecords(msgs) == head + OnlyRecords(msgs[1..]);
        assert (p.written + p.batch + head) + OnlyRecords(msgs[1..]) == p.written + p.batch + OnlyRecords(msgs);
        r
  }

  /** The RECORD messages of a sequence, in order. */
  function OnlyRecords(msgs: seq<Message>): (r: seq<Message>)
    ensures forall i :: 0 <= i < |r| ==> r[i].RECORD?
    ensures |r| <= |msgs|
  {
    if msgs == [] then []
    else (if msgs[0].RECORD? then [msgs[0]] else []) + OnlyRecords(msgs[1..])
  }

  /** Below the batch size the records only accumulate, and the file stays untouched. */
  lemma {:induction false} AddAllBelowThreshold(p: Pending, msgs: seq<Message>, batchSize: nat, schema: ArrowSchema, tryNew: TryNew)
    requires |p.batch| + |OnlyRecords(msgs)| < batchSize
    ensures AddAll(p, msgs, batchSize, schema, tryNew) == (p.(batch := p.batch + OnlyRecords(msgs)), Ok(()))
    decreases |msgs|
  {
    if msgs == [] {
      assert p.batch + [] == p.batch;
    } else {
      var q := AddRecordStep(p, msgs[0], batchSize, schema, tryNew, Written).0;
      assert msgs == [msgs[0]] + msgs[1..];
      if msgs[0].RECORD? {
        assert OnlyRecords(msgs) == [msgs[0]] + OnlyRecords(msgs[1..]);
        AddAllBelowThreshold(q, msgs[1..], batchSize, schema, tryNew);
        assert p.batch + [msgs[0]] + OnlyRecords(msgs[1..]) == p.batch + OnlyRecords(msgs);
      } else {
        assert OnlyRecords(msgs) == OnlyRecords(msgs[1..]);
        AddAllBelowThreshold(q, msgs[1..], batchSize, schema, tryNew);
      }
    }
  }

  /** A successful flush of a non-empty batch leaves the file holding exactly that batch,
      whatever it held before: each flush overwrites the previous one. */
  lemma FlushOverwrites(p: Pending, schema: ArrowSchema, tryNew: TryNew)
    requires p.batch != [] && Converted(p.batch, schema, tryNew).Ok?
    ensures var (q, res) := FlushStep(p, schema, tryNew, Written);
            && res == Ok(())
            && q == Pending([], Holding(Converted(p.batch, schema, tryNew).value), p.written + p.batch)
  {
  }

  /** A failed flush can be retried: the batch is kept and a later successful flush writes it. */
  lemma FlushRetry(p: Pending, schema: ArrowSchema, tryNew: TryNew, failure: WriteOutcome)
    requires p.batch != [] && Converted(p.batch, schema, tryNew).Ok? && !failure.Written?
    ensures var (q, res) := FlushStep(p, schema, tryNew, failure);
            && res.Err? && q.batch == p.batch
            && FlushStep(q, schema, tryNew, Written).0.file == Holding(Converted(p.batch, schema, tryNew).value)
  {
  }

  /** Two RECORD messages with a batch size above two stay pending, and nothing is written. */
  lemma TwoRecordsStayPending(r1: Message, r2: Message, batchSize: nat, schema: ArrowSchema, tryNew: TryNew)
    requires r1.RECORD? && r2.RECORD? && batchSize > 2
    ensures var (q, res) := AddAll(Initial, [r1, r2], batchSize, schema, tryNew);
            res == Ok(()) && q.batch == [r1, r2] && q.file == Untouched
  {
    assert OnlyRecords([r1, r2]) == [r1, r2] by {
      assert [r1, r2][1..] == [r2];
      assert [r2][1..] == [];
    }
    AddAllBelowThreshold(Initial, [r1, r2], batchSize, schema, tryNew);
  }

  /** The RECORD that reaches the batch size writes the whole batch, when conversion and the
      write succeed. */
  lemma ThresholdFlushes(p: Pending, m: Message, batchSize: nat, schema: ArrowSchema, tryNew: TryNew)
    requires forall i :: 0 <= i < |p.batch| ==> p.batch[i].RECORD?
    requires m.RECORD? && |p.batch| + 1 == batchSize
    requires Converted(p.batch + [m], schema, tryNew).Ok?
    ensures var (q, res) := AddRecordStep(p, m, batchSize, schema, tryNew, Written);
            && res == Ok(())
            && q.batch == []
            && q.file == Holding(Converted(p.batch + [m], schema, tryNew).value)
            && (|schema| > 0 ==> NumRows(q.file.batch) == batchSize)
  {
    CountAllRecords(p.batch + [m]);
  }
}
