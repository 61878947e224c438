/**
  The `MessageReader` dispatcher and `write_message`.

  A reader supplies five hooks; `process_line` decodes one value and calls exactly the hook
  that matches the message's variant, and `process_lines` does so for every line in order.
  The reader's hooks are given here as one function `Hooks<S>` from the reader's state and
  the call to the new state and the hook's result, so the dispatcher's laws hold for every
  reader; `Summarize.StatsReader` is a concrete reader whose methods implement them.
*/
module MessageIo {
  import opened Wrappers
  import opened Json
  import opened MessageTypes

  /** The content `write_message` writes: the serialized message and one line feed, the
      only one in the line. */
  function MessageLine(m: Message): (line: string)
    ensures |line| > 0 && line[|line| - 1] == '\n'
    ensures line[..|line| - 1] == ToString(m)
    ensures forall i :: 0 <= i < |line| - 1 ==> line[i] != '\n'
  {
    var text := ToString(m);
    var line := text + "\n";
    assert line[..|line| - 1] == text;
    assert forall i :: 0 <= i < |line| - 1 ==> line[i] == text[i];
    line
  }

  /** One call of one of the five hooks, with the arguments in the hook's order. */
  datatype HookCall =
    | ProcessRecord(stream: string, record: Value, timeExtracted: Option<string>, version: u64)
    | ProcessSchema(stream: string, schema: Value, keyProperties: seq<string>, bookmarkProperties: seq<string>)
    | ProcessState(value: Value)
    | ProcessActivateVersion(stream: string, version: u64)
    | ProcessBatch(stream: string, manifest: seq<string>, encoding: BatchEncoding)

  /** The message a hook call carries, field for field. */
  function MessageOf(c: HookCall): Message
  {
    match c
    case ProcessRecord(stream, record, timeExtracted, version) => RECORD(stream, record, timeExtracted, version)
    case ProcessSchema(stream, schema, keys, bookmarks) => SCHEMA(stream, schema, keys, bookmarks)
    case ProcessState(value) => STATE(value)
    case ProcessActivateVersion(stream, version) => ACTIVATE_VERSION(stream, version)
    case ProcessBatch(stream, manifest, encoding) => BATCH(stream, manifest, encoding)
  }

  /** The `match` in `process_line`: the hook for the variant, given the variant's fields. */
  function HookFor(m: Message): (c: HookCall)
    ensures MessageOf(c) == m
    ensures c.ProcessRecord? <==> m.RECORD?
    ensures c.ProcessSchema? <==> m.SCHEMA?
    ensures c.ProcessState? <==> m.STATE?
    ensures c.ProcessActivateVersion? <==> m.ACTIVATE_VERSION?
    ensures c.ProcessBatch? <==> m.BATCH?
  {
    match m
    case RECORD(stream, record, timeExtracted, version) => ProcessRecord(stream, record, timeExtracted, version)
    case SCHEMA(stream, schema, keys, bookmarks) => ProcessSchema(stream, schema, keys, bookmarks)
    case STATE(value) => ProcessState(value)
    case ACTIVATE_VERSION(stream, version) => ProcessActivateVersion(stream, version)
    case BATCH(stream, manifest, encoding) => ProcessBatch(stream, manifest, encoding)
  }

  /** Every hook call is the dispatch of exactly one message. */
  lemma HookForOnto(c: HookCall)
    ensures HookFor(MessageOf(c)) == c
  {
  }

  /** A reader: what each hook call does to its state, and what the hook returns. */
  type Hooks<!S> = (S, HookCall) -> (S, Result<(), JsonError>)

  /** `process_line`: decode, then one hook. A line that does not decode returns the decode
      error and calls no hook, so every reader keeps its state; a line that decodes makes
      exactly the one hook call of its variant, and its result is the hook's. */
  function ProcessLine<S>(hooks: Hooks<S>, s: S, line: Value): (r: (S, Result<(), JsonError>))
    ensures Decode(line).Err? ==> r == (s, Err(Decode(line).error))
    ensures Decode(line).Ok? ==> r == hooks(s, HookFor(Decode(line).value))
  {
    match Decode(line)
    case Err(e) => (s, Err(e))
    case Ok(m) => hooks(s, HookFor(m))
  }

  /** The first failing line, by position, and its error (`process_lines` panics on it). */
  datatype LineFailure = LineFailure(index: nat, error: JsonError)

  /** The reader's state after a run, and whether the run got through every line. */
  datatype Run<S> = Run(state: S, outcome: Result<(), LineFailure>)

  /** What handling one line does to a reader. */
  type LineStep<!S> = (S, Value) -> (S, Result<(), JsonError>)

  /** The loop of `process_lines`: each line in order, stopping at the first failure. */
  function Feed<S>(step: LineStep<S>, s: S, lines: seq<Value>): (r: Run<S>)
    decreases |lines|
  {
    if lines == [] then Run(s, Ok(()))
    else
      var before := Feed(step, s, lines[..|lines| - 1]);
      if before.outcome.Err? then before
      else
        var next := step(before.state, lines[|lines| - 1]);
        Run(next.0, if next.1.Ok? then Ok(()) else Err(LineFailure(|lines| - 1, next.1.error)))
  }

  /** `process_line` of a reader, as a step of the loop. */
  function LineStepOf<S>(hooks: Hooks<S>): LineStep<S>
  {
    (t: S, line: Value) => ProcessLine(hooks, t, line)
  }

  /** `process_lines`: `process_line` for each line in order. The run succeeds exactly when
      every line succeeds in the state the earlier lines left; a failed run names the first
      failing line, and ends in the state that line left. */
  function ProcessLines<S>(hooks: Hooks<S>, s: S, lines: seq<Value>): (r: Run<S>)
    ensures r.outcome.Ok? <==>
              forall i :: 0 <= i < |lines| ==>
                ProcessLine(hooks, Feed(LineStepOf(hooks), s, lines[..i]).state, lines[i]).1.Ok?
    ensures r.outcome.Err? ==> r.outcome.error.index < |lines|
    ensures r.outcome.Err? ==>
              var f := r.outcome.error;
              var before := Feed(LineStepOf(hooks), s, lines[..f.index]);
              before.outcome.Ok? && ProcessLine(hooks, before.state, lines[f.index]) == (r.state, Err(f.error))
  {
    var step := LineStepOf(hooks);
    FeedOk(step, s, lines);
    if Feed(step, s, lines).outcome.Err? then
      FirstFailure(step, s, lines);
      Feed(step, s, lines)
    else
      Feed(step, s, lines)
  }

  // ---------------------------------------------------------------------------------------
  // Properties of the dispatcher

  function Shift<S>(r: Run<S>, k: nat): Run<S>
  {
    if r.outcome.Ok? then r
    else Run(r.state, Err(LineFailure(r.outcome.error.index + k, r.outcome.error.error)))
  }

  /** Lines are handled strictly in input order: feeding a + b is feeding a, then b from
      where a left off (unless a already failed). */
  lemma {:induction false} FeedAppend<S>(step: LineStep<S>, s: S, a: seq<Value>, b: seq<Value>)
    ensures var ra := Feed(step, s, a);
            Feed(step, s, a + b) == if ra.outcome.Err? then ra else Shift(Feed(step, ra.state, b), |a|)
    decreases |b|
  {
    if b == [] {
      assert a + b == a;
    } else {
      var b' := b[..|b| - 1];
      assert (a + b)[..|a + b| - 1] == a + b';
      assert (a + b)[|a + b| - 1] == b[|b| - 1];
      FeedAppend(step, s, a, b');
    }
  }

  /** One more line after a run that has not failed. */
  lemma FeedNext<S>(step: LineStep<S>, s: S, lines: seq<Value>, i: nat)
    requires i < |lines| && Feed(step, s, lines[..i]).outcome.Ok?
    ensures var next := step(Feed(step, s, lines[..i]).state, lines[i]);
            Feed(step, s, lines[..i + 1]) ==
              Run(next.0, if next.1.Ok? then Ok(()) else Err(LineFailure(i, next.1.error)))
  {
    assert lines[..i + 1][..i] == lines[..i];
  }

  /** One more line, given what handling it does; a failure there ends the whole run. */
  lemma FeedStep<S>(step: LineStep<S>, s: S, lines: seq<Value>, i: nat, after: S, res: Result<(), JsonError>)
    requires i < |lines| && Feed(step, s, lines[..i]).outcome.Ok?
    requires step(Feed(step, s, lines[..i]).state, lines[i]) == (after, res)
    ensures Feed(step, s, lines[..i + 1]) ==
              Run(after, if res.Ok? then Ok(()) else Err(LineFailure(i, res.error)))
    ensures res.Err? ==> Feed(step, s, lines) == Run(after, Err(LineFailure(i, res.error)))
  {
    FeedNext(step, s, lines, i);
    if res.Err? {
      FeedStops(step, s, lines[..i + 1], lines[i + 1..]);
      assert lines[..i + 1] + lines[i + 1..] == lines;
    }
  }

  /** After the first failing line nothing more is handled. */
  lemma FeedStops<S>(step: LineStep<S>, s: S, a: seq<Value>, b: seq<Value>)
    requires Feed(step, s, a).outcome.Err?
    ensures Feed(step, s, a + b) == Feed(step, s, a)
  {
    FeedAppend(step, s, a, b);
  }

  /** A failed run names a line that failed after every earlier line succeeded, and its final
      state is the one that line left. */
  lemma {:induction false} FirstFailure<S>(step: LineStep<S>, s: S, lines: seq<Value>)
    requires Feed(step, s, lines).outcome.Err?
    ensures Feed(step, s, lines).outcome.error.index < |lines|
    ensures var f := Feed(step, s, lines).outcome.error;
            var before := Feed(step, s, lines[..f.index]);
            before.outcome.Ok? && step(before.state, lines[f.index]) == (Feed(step, s, lines).state, Err(f.error))
    decreases |lines|
  {
    var prefix := lines[..|lines| - 1];
    if Feed(step, s, prefix).outcome.Err? {
      FirstFailure(step, s, prefix);
      var f := Feed(step, s, prefix).outcome.error;
      assert prefix[..f.index] == lines[..f.index];
      assert prefix[f.index] == lines[f.index];
    } else {
      assert lines[..|lines| - 1] == prefix;
    }
  }

  /** A run succeeds exactly when every line succeeds from the state the earlier lines left. */
  lemma {:induction false} FeedOk<S>(step: LineStep<S>, s: S, lines: seq<Value>)
    ensures Feed(step, s, lines).outcome.Ok? <==>
              forall i :: 0 <= i < |lines| ==> step(Feed(step, s, lines[..i]).state, lines[i]).1.Ok?
    decreases |lines|
  {
    if lines != [] {
      var n := |lines| - 1;
      var prefix := lines[..n];
      FeedOk(step, s, prefix);
      var before := Feed(step, s, prefix);
      if before.outcome.Err? {
        var j :| 0 <= j < n && !step(Feed(step, s, prefix[..j]).state, prefix[j]).1.Ok?;
        assert prefix[..j] == lines[..j] && prefix[j] == lines[j];
      } else if !step(before.state, lines[n]).1.Ok? {
        assert lines[..n] == prefix;
      } else {
        forall i | 0 <= i < |lines| ensures step(Feed(step, s, lines[..i]).state, lines[i]).1.Ok? {
          if i < n {
            assert prefix[..i] == lines[..i] && prefix[i] == lines[i];
          } else {
            assert lines[..i] == prefix;
          }
        }
      }
    }
  }

  // ---------------------------------------------------------------------------------------
  // The order of hook calls, observed by a reader that records them

  /** A reader whose state is the list of hook calls so far and whose hooks all succeed. */
  function Recorder(): Hooks<seq<HookCall>>
  {
    (calls: seq<HookCall>, c: HookCall) => (calls + [c], Ok(()))
  }

  /** The hooks fire in the order of the lines, one per line. */
  lemma {:induction false} HooksFireInOrder(lines: seq<Value>, msgs: seq<Message>)
    requires |lines| == |msgs|
    requires forall i :: 0 <= i < |lines| ==> Decode(lines[i]) == Ok(msgs[i])
    ensures ProcessLines(Recorder(), [], lines) ==
              Run(seq(|msgs|, i requires 0 <= i < |msgs| => HookFor(msgs[i])), Ok(()))
  {
    RecordedRun(lines, msgs);
  }

  /** The hook calls of a message sequence are those of all but its last message, then the
      last one's. */
  lemma CallsSnoc(msgs: seq<Message>)
    requires msgs != []
    ensures var n := |msgs| - 1;
            seq(|msgs|, i requires 0 <= i < |msgs| => HookFor(msgs[i])) ==
              seq(n, i requires 0 <= i < n => HookFor(msgs[..n][i])) + [HookFor(msgs[n])]
  {
  }

  lemma {:induction false} RecordedRun(lines: seq<Value>, msgs: seq<Message>)
    requires |lines| == |msgs|
    requires forall i :: 0 <= i < |lines| ==> Decode(lines[i]) == Ok(msgs[i])
    ensures Feed(LineStepOf(Recorder()), [], lines) ==
              Run(seq(|msgs|, i requires 0 <= i < |msgs| => HookFor(msgs[i])), Ok(()))
    decreases |lines|
  {
    var step := LineStepOf(Recorder());
    if lines != [] {
      var n := |lines| - 1;
      RecordedRun(lines[..n], msgs[..n]);
      var calls := seq(|msgs|, i requires 0 <= i < |msgs| => HookFor(msgs[i]));
      CallsSnoc(msgs);
      var before := Feed(step, [], lines[..n]);
      assert step(before.state, lines[n]) == (calls, Ok(()));
      FeedNext(step, [], lines, n);
      assert lines[..n + 1] == lines;
    } else {
      assert seq(|msgs|, i requires 0 <= i < |msgs| => HookFor(msgs[i])) == [];
    }
  }

  /** A line that fails to decode ends the run: the hooks of the earlier lines have fired,
      in order, and no hook fires for it or for any later line. */
  lemma HooksStopAtBadLine(lines: seq<Value>, msgs: seq<Message>, i: nat)
    requires i < |lines| && |msgs| == i
    requires forall k :: 0 <= k < i ==> Decode(lines[k]) == Ok(msgs[k])
    requires Decode(lines[i]).Err?
    ensures ProcessLines(Recorder(), [], lines) ==
              Run(seq(i, k requires 0 <= k < i => HookFor(msgs[k])), Err(LineFailure(i, Decode(lines[i]).error)))
  {
    var step := LineStepOf(Recorder());
    RecordedRun(lines[..i], msgs);
    var calls := seq(i, k requires 0 <= k < i => HookFor(msgs[k]));
    FeedStep(step, [], lines, i, calls, Err(Decode(lines[i]).error));
  }
}
