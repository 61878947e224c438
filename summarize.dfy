/**
  The stream summariser (`singer_summarize/src/lib.rs`): a message reader whose hooks count,
  per stream, the SCHEMA, RECORD, ACTIVATE_VERSION and BATCH messages, and count the STATE
  messages while remembering the last one's value.

  `StatsReader` holds the `Stats` and updates them in place; `Apply` is the same update as a
  function, and `Replay` folds it over a message sequence. The counters are `u32` in the
  source; here they are unbounded and each hook requires that its counter is below the
  largest `u32`, so no increment overflows.
*/
module Summarize {
  import opened Wrappers
  import opened Json
  import opened MessageTypes
  import MessageIo

  const U32Max: nat := 0xFFFF_FFFF

  datatype Counter = Counter(schema: nat, record: nat, activateVersion: nat, batch: nat)

  /** `Counter::new`. */
  const ZeroCounter: Counter := Counter(0, 0, 0, 0)

  datatype StateStats = StateStats(count: nat, lastSeen: Value)

  datatype Stats = Stats(streams: map<string, Counter>, state: StateStats)

  /** `Stats::new`: no streams, no STATE seen. */
  const EmptyStats: Stats := Stats(map[], StateStats(0, Null))

  /** The four per-stream counters. */
  datatype Kind = SchemaKind | RecordKind | ActivateVersionKind | BatchKind

  function CountOf(c: Counter, kind: Kind): nat
  {
    match kind
    case SchemaKind => c.schema
    case RecordKind => c.record
    case ActivateVersionKind => c.activateVersion
    case BatchKind => c.batch
  }

  /** One more in one counter; the other three unchanged. */
  function Bump(c: Counter, kind: Kind): (r: Counter)
    ensures CountOf(r, kind) == CountOf(c, kind) + 1
    ensures forall k :: k != kind ==> CountOf(r, k) == CountOf(c, k)
  {
    match kind
    case SchemaKind => c.(schema := c.schema + 1)
    case RecordKind => c.(record := c.record + 1)
    case ActivateVersionKind => c.(activateVersion := c.activateVersion + 1)
    case BatchKind => c.(batch := c.batch + 1)
  }

  /** The counter of a stream, a zeroed one when the stream has none yet. */
  function CounterFor(stats: Stats, stream: string): Counter
  {
    if stream in stats.streams then stats.streams[stream] else ZeroCounter
  }

  /** `entry(stream).or_insert_with(Counter::new)` followed by `+= 1` on one counter. */
  function Increment(stats: Stats, stream: string, kind: Kind): (r: Stats)
    ensures r.streams.Keys == stats.streams.Keys + {stream}
    ensures CountOf(r.streams[stream], kind) == CountOf(CounterFor(stats, stream), kind) + 1
    ensures forall k :: k != kind ==> CountOf(r.streams[stream], k) == CountOf(CounterFor(stats, stream), k)
    ensures forall s :: s in stats.streams && s != stream ==> r.streams[s] == stats.streams[s]
    ensures r.state == stats.state
  {
    stats.(streams := stats.streams[stream := Bump(CounterFor(stats, stream), kind)])
  }

  /** The counter a hook call increments, or None for `process_state`. */
  function KindOf(c: MessageIo.HookCall): (k: Option<Kind>)
    ensures k.None? <==> c.ProcessState?
  {
    match c
    case ProcessSchema(_, _, _, _) => Some(SchemaKind)
    case ProcessRecord(_, _, _, _) => Some(RecordKind)
    case ProcessActivateVersion(_, _) => Some(ActivateVersionKind)
    case ProcessBatch(_, _, _) => Some(BatchKind)
    case ProcessState(_) => None
  }

  /** What one hook call does to the stats. */
  function Apply(stats: Stats, c: MessageIo.HookCall): (r: Stats)
    ensures c.ProcessState? ==> r == Stats(stats.streams, StateStats(stats.state.count + 1, c.value))
    ensures !c.ProcessState? ==> r == Increment(stats, c.stream, KindOf(c).value)
  {
    match c
    case ProcessState(value) => stats.(state := StateStats(stats.state.count + 1, value))
    case _ => Increment(stats, c.stream, KindOf(c).value)
  }

  /** The five hooks of `StatsReader`: none of them fails, and each applies its call's
      update to the stats. */
  function StatsHooks(): (h: MessageIo.Hooks<Stats>)
    ensures forall s, c :: h(s, c).1 == Ok(())
    ensures forall s, c :: h(s, c).0 == Apply(s, c)
  {
    (s: Stats, c: MessageIo.HookCall) => (Apply(s, c), Ok(()))
  }

  /** Every counter and the STATE count are at most `n`. */
  ghost predicate CountsAtMost(stats: Stats, n: nat)
  {
    && stats.state.count <= n
    && forall s, k :: s in stats.streams ==> CountOf(stats.streams[s], k) <= n
  }

  lemma CounterBelow(stats: Stats, stream: string, n: nat)
    requires CountsAtMost(stats, n)
    ensures var c := CounterFor(stats, stream);
            c.schema <= n && c.record <= n && c.activateVersion <= n && c.batch <= n
  {
    if stream in stats.streams {
      var c := stats.streams[stream];
      assert CountOf(c, SchemaKind) <= n && CountOf(c, RecordKind) <= n;
      assert CountOf(c, ActivateVersionKind) <= n && CountOf(c, BatchKind) <= n;
    }
  }

  lemma ApplyStepsCounts(stats: Stats, c: MessageIo.HookCall, n: nat)
    requires CountsAtMost(stats, n)
    ensures CountsAtMost(Apply(stats, c), n + 1)
  {
    var r := Apply(stats, c);
    forall s, k | s in r.streams ensures CountOf(r.streams[s], k) <= n + 1 {
      if !c.ProcessState? && s == c.stream && s !in stats.streams {
        assert CountOf(CounterFor(stats, s), k) == 0;
      }
    }
  }

  /** Handling one line, as `process_lines` does for this reader. */
  function StatsStep(): MessageIo.LineStep<Stats>
  {
    MessageIo.LineStepOf(StatsHooks())
  }

  lemma ReadingIsFeeding(s: Stats, lines: seq<Value>)
    ensures MessageIo.ProcessLines(StatsHooks(), s, lines) == MessageIo.Feed(StatsStep(), s, lines)
  {
  }

  lemma ProcessLineStepsCounts(stats: Stats, line: Value, n: nat)
    requires CountsAtMost(stats, n)
    ensures CountsAtMost(MessageIo.ProcessLine(StatsHooks(), stats, line).0, n + 1)
  {
    match Decode(line)
    case Err(_) =>
    case Ok(m) => ApplyStepsCounts(stats, MessageIo.HookFor(m), n);
  }

  // ---------------------------------------------------------------------------------------
  // The reader

  class StatsReader {
    var stats: Stats

    /** `StatsReader::new`. */
    constructor ()
      ensures stats == EmptyStats
    {
      stats := EmptyStats;
    }

    method ProcessRecord(stream: string, record: Value, timeExtracted: Option<string>, version: u64)
      returns (r: Result<(), JsonError>)
      requires CounterFor(stats, stream).record < U32Max
      modifies this
      ensures stats == Increment(old(stats), stream, RecordKind)
      ensures r == Ok(())
    {
      var counter := if stream in stats.streams then stats.streams[stream] else ZeroCounter;
      counter := counter.(record := counter.record + 1);
      stats := stats.(streams := stats.streams[stream := counter]);
      return Ok(());
    }

    method ProcessSchema(stream: string, schema: Value, keyProperties: seq<string>, bookmarkProperties: seq<string>)
      returns (r: Result<(), JsonError>)
      requires CounterFor(stats, stream).schema < U32Max
      modifies this
      ensures stats == Increment(old(stats), stream, SchemaKind)
      ensures r == Ok(())
    {
      var counter := if stream in stats.streams then stats.streams[stream] else ZeroCounter;
      counter := counter.(schema := counter.schema + 1);
      stats := stats.(streams := stats.streams[stream := counter]);
      return Ok(());
    }

    method ProcessActivateVersion(stream: string, version: u64) returns (r: Result<(), JsonError>)
      requires CounterFor(stats, stream).activateVersion < U32Max
      modifies this
      ensures stats == Increment(old(stats), stream, ActivateVersionKind)
      ensures r == Ok(())
    {
      var counter := if stream in stats.streams then stats.streams[stream] else ZeroCounter;
      counter := counter.(activateVersion := counter.activateVersion + 1);
      stats := stats.(streams := stats.streams[stream := counter]);
      return Ok(());
    }

    method ProcessBatch(stream: string, manifest: seq<string>, encoding: BatchEncoding) returns (r: Result<(), JsonError>)
      requires CounterFor(stats, stream).batch < U32Max
      modifies this
      ensures stats == Increment(old(stats), stream, BatchKind)
      ensures r == Ok(())
    {
      var counter := if stream in stats.streams then stats.streams[stream] else ZeroCounter;
      counter := counter.(batch := counter.batch + 1);
      stats := stats.(streams := stats.streams[stream := counter]);
      return Ok(());
    }

    method ProcessState(value: Value) returns (r: Result<(), JsonError>)
      requires stats.state.count < U32Max
      modifies this
      ensures stats == Stats(old(stats).streams, StateStats(old(stats).state.count + 1, value))
      ensures r == Ok(())
    {
      stats := stats.(state := stats.state.(count := stats.state.count + 1));
      stats := stats.(state := stats.state.(lastSeen := value));
      return Ok(());
    }

    /** `process_line` for this reader: decode, then the hook of the variant. */
    method ProcessLine(line: Value) returns (r: Result<(), JsonError>)
      requires CountsAtMost(stats, U32Max - 1)
      modifies this
      ensures (stats, r) == MessageIo.ProcessLine(StatsHooks(), old(stats), line)
    {
      var decoded := Decode(line);
      if decoded.Err? {
        return Err(decoded.error);
      }
      if !decoded.value.STATE? {
        CounterBelow(stats, decoded.value.stream, U32Max - 1);
      }
      match decoded.value {
        case RECORD(stream, record, timeExtracted, version) =>
          r := ProcessRecord(stream, record, timeExtracted, version);
        case SCHEMA(stream, schema, keys, bookmarks) =>
          r := ProcessSchema(stream, schema, keys, bookmarks);
        case STATE(value) =>
          r := ProcessState(value);
        case ACTIVATE_VERSION(stream, version) =>
          r := ProcessActivateVersion(stream, version);
        case BATCH(stream, manifest, encoding) =>
          r := ProcessBatch(stream, manifest, encoding);
      }
    }

    /** `process_lines` for this reader: each line in order, stopping at the first that fails. */
    method ProcessLines(lines: seq<Value>) returns (outcome: Result<(), MessageIo.LineFailure>)
      requires |lines| < U32Max && CountsAtMost(stats, U32Max - 1 - |lines|)
      modifies this
      ensures MessageIo.Run(stats, outcome) == MessageIo.ProcessLines(StatsHooks(), old(stats), lines)
    {
      ghost var start := stats;
      ReadingIsFeeding(start, lines);
      var i := 0;
      while i < |lines|
        invariant 0 <= i <= |lines|
        invariant MessageIo.Feed(StatsStep(), start, lines[..i]) == MessageIo.Run(stats, Ok(()))
        invariant CountsAtMost(stats, U32Max - 1 - |lines| + i)
      {
        ghost var before := stats;
        var res := ProcessLine(lines[i]);
        assert StatsStep()(before, lines[i]) == (stats, res);
        MessageIo.FeedStep(StatsStep(), start, lines, i, stats, res);
        ProcessLineStepsCounts(before, lines[i], U32Max - 1 - |lines| + i);
        if res.Err? {
          return Err(MessageIo.LineFailure(i, res.error));
        }
        i := i + 1;
      }
      assert lines[..i] == lines;
      return Ok(());
    }
  }

  // ---------------------------------------------------------------------------------------
  // The stats after a sequence of messages

  /** The stats after the hooks of `msgs`, in order, starting from `stats`: the streams are
      those already there and those the non-STATE messages name, and the STATE count grows by
      the number of STATE messages. */
  function Replay(stats: Stats, msgs: seq<Message>): (r: Stats)
    ensures r.streams.Keys == stats.streams.Keys + StreamsOf(msgs)
    ensures r.state.count == stats.state.count + CountStates(msgs)
  {
    if msgs == [] then stats
    else Apply(Replay(stats, msgs[..|msgs| - 1]), MessageIo.HookFor(msgs[|msgs| - 1]))
  }

  /** Reading lines that decode to `msgs` succeeds and leaves the replayed stats. */
  lemma {:induction false} ReadingReplays(s: Stats, lines: seq<Value>, msgs: seq<Message>)
    requires |lines| == |msgs|
    requires forall i :: 0 <= i < |lines| ==> Decode(lines[i]) == Ok(msgs[i])
    ensures MessageIo.ProcessLines(StatsHooks(), s, lines) == MessageIo.Run(Replay(s, msgs), Ok(()))
    decreases |lines|
  {
    if lines != [] {
      var n := |lines| - 1;
      ReadingReplays(s, lines[..n], msgs[..n]);
      assert msgs[..n] == msgs[..|msgs| - 1];
      assert MessageIo.Feed(StatsStep(), s, lines[..n]) == MessageIo.ProcessLines(StatsHooks(), s, lines[..n]);
      MessageIo.FeedNext(StatsStep(), s, lines, n);
      assert lines[..n + 1] == lines;
    }
  }

  /** Every hook of this reader succeeds, so reading fails only at a line that does not
      decode, with that line's decode error. */
  lemma ReadingFailsOnlyOnDecode(s: Stats, lines: seq<Value>)
    requires MessageIo.ProcessLines(StatsHooks(), s, lines).outcome.Err?
    ensures var f := MessageIo.ProcessLines(StatsHooks(), s, lines).outcome.error;
            f.index < |lines| && Decode(lines[f.index]) == Err(f.error)
  {
    var f := MessageIo.ProcessLines(StatsHooks(), s, lines).outcome.error;
    var before := MessageIo.Feed(StatsStep(), s, lines[..f.index]);
    assert MessageIo.ProcessLine(StatsHooks(), before.state, lines[f.index]).1.Err?;
  }

  /** The number of messages in `msgs` that increment the counter `kind`. */
  function CountKind(msgs: seq<Message>, kind: Kind): nat
  {
    if msgs == [] then 0
    else CountKind(msgs[..|msgs| - 1], kind) + (if KindOf(MessageIo.HookFor(msgs[|msgs| - 1])) == Some(kind) then 1 else 0)
  }

  /** The number of such messages for one stream. */
  function CountFor(msgs: seq<Message>, stream: string, kind: Kind): nat
  {
    if msgs == [] then 0
    else
      var m := msgs[|msgs| - 1];
      CountFor(msgs[..|msgs| - 1], stream, kind) +
        (if KindOf(MessageIo.HookFor(m)) == Some(kind) && m.stream == stream then 1 else 0)
  }

  function CountStates(msgs: seq<Message>): nat
  {
    if msgs == [] then 0
    else CountStates(msgs[..|msgs| - 1]) + (if msgs[|msgs| - 1].STATE? then 1 else 0)
  }

  /** The value of the last STATE message, Null when there is none. */
  function LastState(msgs: seq<Message>): Value
  {
    if msgs == [] then Null
    else if msgs[|msgs| - 1].STATE? then msgs[|msgs| - 1].value
    else LastState(msgs[..|msgs| - 1])
  }

  /** The streams named by the messages other than STATE. */
  function StreamsOf(msgs: seq<Message>): set<string>
  {
    if msgs == [] then {}
    else
      var m := msgs[|msgs| - 1];
      StreamsOf(msgs[..|msgs| - 1]) + (if m.STATE? then {} else {m.stream})
  }

  /** The STATE count is the number of STATE messages, and `last_seen` the last one's value. */
  lemma {:induction false} ReplayState(msgs: seq<Message>)
    ensures Replay(EmptyStats, msgs).state == StateStats(CountStates(msgs), LastState(msgs))
  {
    if msgs != [] {
      ReplayState(msgs[..|msgs| - 1]);
    }
  }

  /** Each counter of each stream counts that stream's messages of its kind; streams never
      seen count zero. */
  lemma {:induction false} ReplayPerStream(msgs: seq<Message>, stream: string, kind: Kind)
    ensures CountOf(CounterFor(Replay(EmptyStats, msgs), stream), kind) == CountFor(msgs, stream, kind)
  {
    if msgs != [] {
      var init := msgs[..|msgs| - 1];
      ReplayPerStream(init, stream, kind);
      var before := Replay(EmptyStats, init);
      var c := MessageIo.HookFor(msgs[|msgs| - 1]);
      if !c.ProcessState? && c.stream != stream && stream in before.streams {
        assert CounterFor(Apply(before, c), stream) == before.streams[stream];
      }
    }
  }

  /** The sum of one counter over all streams. */
  ghost function Total(m: map<string, Counter>, kind: Kind): nat
    decreases |m.Keys|
  {
    if m == map[] then 0
    else
      var k :| k in m;
      CountOf(m[k], kind) + Total(m - {k}, kind)
  }

  lemma RemoveShrinks(m: map<string, Counter>, k: string)
    requires k in m
    ensures |(m - {k}).Keys| == |m.Keys| - 1
  {
    assert m.Keys == (m - {k}).Keys + {k};
  }

  lemma {:induction false} TotalRemove(m: map<string, Counter>, key: string, kind: Kind)
    requires key in m
    ensures Total(m, kind) == CountOf(m[key], kind) + Total(m - {key}, kind)
    decreases |m.Keys|
  {
    var k :| k in m && Total(m, kind) == CountOf(m[k], kind) + Total(m - {k}, kind);
    if k != key {
      var withoutK := m - {k};
      var withoutKey := m - {key};
      RemoveShrinks(m, k);
      RemoveShrinks(m, key);
      TotalRemove(withoutK, key, kind);
      TotalRemove(withoutKey, k, kind);
      assert withoutK - {key} == withoutKey - {k};
    }
  }

  /** An increment of counter `bumped` adds one to that counter's total and nothing to the
      others'. */
  lemma TotalIncrement(stats: Stats, stream: string, bumped: Kind, kind: Kind)
    ensures Total(Increment(stats, stream, bumped).streams, kind) ==
              Total(stats.streams, kind) + (if kind == bumped then 1 else 0)
  {
    var after := Increment(stats, stream, bumped).streams;
    TotalRemove(after, stream, kind);
    assert after - {stream} == stats.streams - {stream};
    if stream in stats.streams {
      TotalRemove(stats.streams, stream, kind);
    } else {
      assert stats.streams - {stream} == stats.streams;
    }
  }

  /** Summed over the streams, each counter counts all messages of its kind. */
  lemma {:induction false} ReplayTotals(msgs: seq<Message>, kind: Kind)
    ensures Total(Replay(EmptyStats, msgs).streams, kind) == CountKind(msgs, kind)
  {
    if msgs != [] {
      var init := msgs[..|msgs| - 1];
      ReplayTotals(init, kind);
      var before := Replay(EmptyStats, init);
      var c := MessageIo.HookFor(msgs[|msgs| - 1]);
      if !c.ProcessState? {
        TotalIncrement(before, c.stream, KindOf(c).value, kind);
      }
    }
  }

  lemma {:induction false} CountKindRecords(msgs: seq<Message>)
    ensures CountKind(msgs, RecordKind) == CountRecords(msgs)
  {
    if msgs != [] {
      var n := |msgs| - 1;
      CountKindRecords(msgs[..n]);
      CountRecordsAppend(msgs[..n], [msgs[n]]);
      assert msgs[..n] + [msgs[n]] == msgs;
    }
  }

  /** The record counts of all streams add up to the number of RECORD messages. */
  lemma RecordTotal(msgs: seq<Message>)
    ensures Total(Replay(EmptyStats, msgs).streams, RecordKind) == CountRecords(msgs)
  {
    ReplayTotals(msgs, RecordKind);
    CountKindRecords(msgs);
  }

  /** The crate's summary test reads a resource file that is not part of this model. This is a
      four-message sequence built to fit that test's assertions: one stream's SCHEMA, two
      RECORDs and a STATE give one stream with one schema and two records, and one STATE,
      remembered. */
  lemma ExampleSummary(schema: Value, r1: Value, r2: Value, state: Value)
    ensures var msgs := [SCHEMA("example", schema, [], []), RECORD("example", r1, None, 0),
                         RECORD("example", r2, None, 0), STATE(state)];
            var stats := Replay(EmptyStats, msgs);
            && stats.streams.Keys == {"example"}
            && stats.streams["example"].schema == 1
            && stats.streams["example"].record == 2
            && stats.state == StateStats(1, state)
  {
    var msgs := [SCHEMA("example", schema, [], []), RECORD("example", r1, None, 0),
                 RECORD("example", r2, None, 0), STATE(state)];
    assert msgs[..3] == [SCHEMA("example", schema, [], []), RECORD("example", r1, None, 0), RECORD("example", r2, None, 0)];
    assert msgs[..3][..2] == [SCHEMA("example", schema, [], []), RECORD("example", r1, None, 0)];
    assert msgs[..3][..2][..1] == [SCHEMA("example", schema, [], [])];
    assert msgs[..3][..2][..1][..0] == [];
    var s1 := Replay(EmptyStats, msgs[..3][..2][..1]);
    assert Replay(EmptyStats, msgs[..3][..2][..1][..0]) == EmptyStats;
    assert s1 == Increment(EmptyStats, "example", SchemaKind);
    assert CounterFor(EmptyStats, "example") == Counter(0, 0, 0, 0);
    assert s1 == Stats(map["example" := Counter(1, 0, 0, 0)], StateStats(0, Null));
    var s2 := Replay(EmptyStats, msgs[..3][..2]);
    assert s2 == Stats(map["example" := Counter(1, 1, 0, 0)], StateStats(0, Null));
    var s3 := Replay(EmptyStats, msgs[..3]);
    assert s3 == Stats(map["example" := Counter(1, 2, 0, 0)], StateStats(0, Null));
  }
}
