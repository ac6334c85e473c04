/** The result side of `_run_processing_loop`: the outcomes of the workers,
    taken in completion order, are sorted into a success buffer and an error
    buffer, each flushed to its JSONL file by `_write_batch` whenever it
    reaches `WRITE_BATCH_SIZE` and once more when the loop ends. */
module Sink {
  import opened Json

  /** An append-only JSONL file. `room` is how many more lines the device
      accepts: writing a line when it is 0 raises OSError. */
  class JsonlFile {
    var lines: seq<Line>
    var room: nat

    constructor (lines: seq<Line>, room: nat)
      ensures this.lines == lines && this.room == room
    {
      this.lines := lines;
      this.room := room;
    }

    /** `_write_batch`: append the items one per line. An OSError ends the
        batch and is logged, not raised, so the items after it are lost. An
        empty batch touches nothing. */
    method WriteBatch(batch: seq<Value>)
      modifies this
      ensures lines == old(lines) + Encoded(Take(batch, old(room)))
      ensures room == old(room) - Min(old(room), |batch|)
      ensures batch == [] ==> lines == old(lines) && room == old(room)
    {
      if batch == [] {
        return;
      }
      var i := 0;
      while i < |batch|
        invariant i <= |batch| && i <= old(room)
        invariant lines == old(lines) + Encoded(batch[..i])
        invariant room == old(room) - i
      {
        if room == 0 {
          // OSError: caught and logged by the caller's `except OSError`
          break;
        }
        assert batch[..i + 1][..i] == batch[..i];
        lines := lines + [Parsed(batch[i])];
        room := room - 1;
        i := i + 1;
      }
      assert Take(batch, old(room)) == batch[..i];
    }
  }

  /** What `worker` hands back: the process function's return value, or the
      exception it raised after all retries. */
  datatype WorkerResult = Returned(value: Value) | Raised(message: string)

  /** One finished worker: the task it was given and its result. */
  datatype Completion = Completion(task: Record, result: WorkerResult)

  /** A success is a returned value that is not None. */
  predicate IsSuccess(c: Completion) {
    c.result.Returned? && c.result.value != Null
  }

  /** The successful results, in completion order. */
  function Successes(cs: seq<Completion>): seq<Value> {
    if cs == [] then []
    else
      var c := cs[|cs| - 1];
      Successes(cs[..|cs| - 1]) + (if IsSuccess(c) then [c.result.value] else [])
  }

  /** The error file entry for a failed task: its id (`"N/A"` when the
      record has no id key), the exception's message and the record. */
  function ErrorEntry(c: Completion, idKey: string): Value
    requires c.result.Raised?
  {
    Obj(map["record_id" := GetOr(c.task, idKey, Str("N/A")),
            "error_message" := Str(c.result.message),
            "original_record" := Obj(c.task)])
  }

  /** One error entry per failed task, in completion order. */
  function ErrorEntries(cs: seq<Completion>, idKey: string): seq<Value> {
    if cs == [] then []
    else
      var c := cs[|cs| - 1];
      ErrorEntries(cs[..|cs| - 1], idKey) + (if c.result.Raised? then [ErrorEntry(c, idKey)] else [])
  }

  /** The number of workers that returned None. */
  function NoResults(cs: seq<Completion>): nat {
    if cs == [] then 0
    else NoResults(cs[..|cs| - 1]) + (if cs[|cs| - 1].result == Returned(Null) then 1 else 0)
  }

  function TasksOf(cs: seq<Completion>): seq<Record> {
    seq(|cs|, i requires 0 <= i < |cs| => cs[i].task)
  }

  /** One more completion extends exactly one of the streams, or none. */
  lemma ExtendStreams(cs: seq<Completion>, c: Completion, idKey: string)
    ensures Successes(cs + [c]) == Successes(cs) + (if IsSuccess(c) then [c.result.value] else [])
    ensures ErrorEntries(cs + [c], idKey) == ErrorEntries(cs, idKey) + (if c.result.Raised? then [ErrorEntry(c, idKey)] else [])
  {
    assert (cs + [c])[..|cs|] == cs;
  }

  /** Every finished worker is counted once: as a success, an error, or a
      None result. */
  lemma {:induction false} OutcomesPartition(cs: seq<Completion>, idKey: string)
    ensures |Successes(cs)| + |ErrorEntries(cs, idKey)| + NoResults(cs) == |cs|
  {
    if cs != [] {
      OutcomesPartition(cs[..|cs| - 1], idKey);
    }
  }

  /** When the completions are the tasks in some order, the three counts add
      up to the number of tasks. */
  lemma OutcomesCoverTasks(cs: seq<Completion>, tasks: seq<Record>, idKey: string)
    requires multiset(TasksOf(cs)) == multiset(tasks)
    ensures |Successes(cs)| + |ErrorEntries(cs, idKey)| + NoResults(cs) == |tasks|
  {
    OutcomesPartition(cs, idKey);
    assert |multiset(TasksOf(cs))| == |cs|;
  }

  /** Each error entry names the task it came from: the task's own id when
      the task has one, and the task as its original record. */
  lemma {:induction false} ErrorEntriesFromFailures(cs: seq<Completion>, idKey: string)
    ensures forall e :: e in ErrorEntries(cs, idKey) ==>
              exists c :: c in cs && c.result.Raised? && e == ErrorEntry(c, idKey)
    ensures forall c :: c in cs && c.result.Raised? && idKey in c.task ==>
              ErrorEntry(c, idKey).fields["record_id"] == c.task[idKey] &&
              ErrorEntry(c, idKey).fields["original_record"] == Obj(c.task)
  {
    if cs != [] {
      ErrorEntriesFromFailures(cs[..|cs| - 1], idKey);
      forall e | e in ErrorEntries(cs, idKey)
        ensures exists c :: c in cs && c.result.Raised? && e == ErrorEntry(c, idKey)
      {
        if e in ErrorEntries(cs[..|cs| - 1], idKey) {
          var c :| c in cs[..|cs| - 1] && c.result.Raised? && e == ErrorEntry(c, idKey);
          assert c in cs;
        } else {
          assert cs[|cs| - 1] in cs;
        }
      }
    }
  }

  /** A buffer flushed to a file in batches. `all` is everything submitted
      so far; `pending` is what is still buffered, the tail of `all`; the file
      holds `base` followed by what of the flushed head the device accepted,
      starting from `room0` free lines. */
  ghost predicate Staged(all: seq<Value>, pending: seq<Value>, lines: seq<Line>, room: nat,
                         base: seq<Line>, room0: nat)
  {
    |pending| <= |all| &&
    pending == all[|all| - |pending|..] &&
    lines == base + Encoded(Take(all[..|all| - |pending|], room0)) &&
    room == room0 - Min(room0, |all| - |pending|)
  }

  /** Buffering one more item keeps the file and the flushed head as they were. */
  lemma Staging(all: seq<Value>, pending: seq<Value>, lines: seq<Line>, room: nat,
                base: seq<Line>, room0: nat, x: Value)
    requires Staged(all, pending, lines, room, base, room0)
    ensures Staged(all + [x], pending + [x], lines, room, base, room0)
  {
    assert (all + [x])[..|all + [x]| - |pending + [x]|] == all[..|all| - |pending|];
    assert (all + [x])[|all + [x]| - |pending + [x]|..] == pending + [x];
  }

  /** A stream that grew only in its buffer left its file as it was: two
      staged states with the same items flushed hold the same lines and the
      same room. */
  lemma UnflushedKeepsFile(all: seq<Value>, pending: seq<Value>, lines: seq<Line>, room: nat,
                           more: seq<Value>, lines': seq<Line>, room': nat, base: seq<Line>, room0: nat)
    requires Staged(all, pending, lines, room, base, room0)
    requires Staged(all + more, pending + more, lines', room', base, room0)
    ensures lines' == lines && room' == room
  {
    assert (all + more)[..|all + more| - |pending + more|] == all[..|all| - |pending|];
  }

  /** Flushing the whole buffer with `_write_batch` leaves nothing pending,
      and the file then holds what the device accepted of everything
      submitted, in submission order. */
  lemma Flushing(all: seq<Value>, pending: seq<Value>, lines: seq<Line>, room: nat,
                 base: seq<Line>, room0: nat)
    requires Staged(all, pending, lines, room, base, room0)
    ensures Staged(all, [], lines + Encoded(Take(pending, room)), room - Min(room, |pending|), base, room0)
    ensures lines + Encoded(Take(pending, room)) == base + Encoded(Take(all, room0))
  {
    var k := |all| - |pending|;
    var head, added := Encoded(Take(all[..k], room0)), Encoded(Take(pending, room));
    assert lines == base + head;
    SplitFlush(all, k, room0);
    assert head + added == Encoded(Take(all, room0));
    assert lines + added == base + (head + added);
    assert all[..|all| - 0] == all;
  }

  /** Writing the first `k` items and then the rest, against a device that
      starts with `n` free lines, is writing them all at once. */
  lemma SplitFlush(all: seq<Value>, k: nat, n: nat)
    requires k <= |all|
    ensures Encoded(Take(all[..k], n)) + Encoded(Take(all[k..], n - Min(n, k)))
            == Encoded(Take(all, n))
    ensures n - Min(n, k) - Min(n - Min(n, k), |all| - k) == n - Min(n, |all|)
  {
    assert all[..k] + all[k..] == all;
    TakeConcat(all[..k], all[k..], n);
    EncodedAppend(Take(all[..k], n), Take(all[k..], n - Min(n, k)));
  }

  /** The two buffers and two counters of `_run_processing_loop`, with the
      files they flush to. The ghost fields record what has been consumed
      and what the files held before. */
  class ResultSink {
    const batchSize: int
    const idKey: string
    const output: JsonlFile
    const errors: JsonlFile
    var resultsBatch: seq<Value>
    var errorsBatch: seq<Value>
    var successCount: nat
    var errorCount: nat
    ghost var consumed: seq<Completion>
    ghost const outputBase: seq<Line>
    ghost const outputRoom: nat
    ghost const errorsBase: seq<Line>
    ghost const errorsRoom: nat

    /** The counters count the consumed successes and failures, and each
        buffer is the unflushed tail of its stream. */
    ghost predicate Valid()
      reads this, output, errors
    {
      output != errors &&
      successCount == |Successes(consumed)| &&
      errorCount == |ErrorEntries(consumed, idKey)| &&
      Staged(Successes(consumed), resultsBatch, output.lines, output.room, outputBase, outputRoom) &&
      Staged(ErrorEntries(consumed, idKey), errorsBatch, errors.lines, errors.room, errorsBase, errorsRoom)
    }

    /** Neither buffer holds a full batch: each is empty or shorter than
        the batch size. */
    predicate Bounded()
      reads this
    {
      (resultsBatch == [] || |resultsBatch| < batchSize) &&
      (errorsBatch == [] || |errorsBatch| < batchSize)
    }

    constructor (batchSize: int, idKey: string, output: JsonlFile, errors: JsonlFile)
      requires output != errors
      ensures Valid()
      ensures this.batchSize == batchSize && this.idKey == idKey
      ensures this.output == output && this.errors == errors
      ensures consumed == [] && resultsBatch == [] && errorsBatch == []
      ensures outputBase == output.lines && outputRoom == output.room
      ensures errorsBase == errors.lines && errorsRoom == errors.room
    {
      this.batchSize := batchSize;
      this.idKey := idKey;
      this.output := output;
      this.errors := errors;
      resultsBatch, errorsBatch := [], [];
      successCount, errorCount := 0, 0;
      consumed := [];
      outputBase, outputRoom := output.lines, output.room;
      errorsBase, errorsRoom := errors.lines, errors.room;
    }

    /** One pass of `for future in pbar`: record the outcome, then flush a
        buffer that has reached the batch size, and only such a buffer.
        Afterwards both buffers are shorter than the batch size (empty when
        it is 0 or less). A buffer that was not flushed kept its file as it
        was: `Valid()` and `UnflushedKeepsFile` give that. */
    method Consume(c: Completion)
      requires Valid()
      modifies this, output, errors
      ensures Valid()
      ensures consumed == old(consumed) + [c]
      ensures Bounded()
      ensures var grown := old(resultsBatch) + (if IsSuccess(c) then [c.result.value] else []);
              if |grown| < batchSize then resultsBatch == grown
              else resultsBatch == []
      ensures var grown := old(errorsBatch) + (if c.result.Raised? then [ErrorEntry(c, idKey)] else []);
              if |grown| < batchSize then errorsBatch == grown
              else errorsBatch == []
    {
      Submit(c);
      if |resultsBatch| >= batchSize {
        FlushResults();
      }
      if |errorsBatch| >= batchSize {
        FlushErrors();
      }
    }

    /** The whole collecting loop with its `finally`: consume every outcome,
        then flush both remainders. Returns the two counters. */
    method Drain(cs: seq<Completion>) returns (successes: nat, failures: nat)
      requires Valid() && consumed == [] && resultsBatch == [] && errorsBatch == []
      modifies this, output, errors
      ensures successes == |Successes(cs)| && failures == |ErrorEntries(cs, idKey)|
      ensures output.lines == outputBase + Encoded(Take(Successes(cs), outputRoom))
      ensures errors.lines == errorsBase + Encoded(Take(ErrorEntries(cs, idKey), errorsRoom))
    {
      ConsumeAll(cs);
      FlushRemaining();
      successes, failures := successCount, errorCount;
    }

    /** `for future in pbar`: consume the outcomes one by one, in the order
        the workers finish. */
    method ConsumeAll(cs: seq<Completion>)
      requires Valid() && consumed == [] && resultsBatch == [] && errorsBatch == []
      modifies this, output, errors
      ensures Valid()
      ensures consumed == cs
      ensures Bounded()
    {
      var i := 0;
      while i < |cs|
        invariant i <= |cs|
        invariant Valid() && consumed == cs[..i]
        invariant Bounded()
      {
        assert cs[..i + 1] == cs[..i] + [cs[i]];
        Consume(cs[i]);
        i := i + 1;
      }
      assert cs[..i] == cs;
    }

    /** Sort one outcome into a buffer and count it: an exception becomes an
        error entry, a returned value other than None a success, and None
        nothing at all. */
    method Submit(c: Completion)
      requires Valid()
      modifies this`resultsBatch, this`errorsBatch, this`successCount, this`errorCount, this`consumed
      ensures Valid()
      ensures consumed == old(consumed) + [c]
      ensures resultsBatch == old(resultsBatch) + (if IsSuccess(c) then [c.result.value] else [])
      ensures errorsBatch == old(errorsBatch) + (if c.result.Raised? then [ErrorEntry(c, idKey)] else [])
    {
      if c.result.Raised? {
        SubmitError(c);
      } else if c.result.value != Null {
        SubmitSuccess(c);
      } else {
        SubmitNone(c);
      }
    }

    method SubmitNone(c: Completion)
      requires Valid() && c.result == Returned(Null)
      modifies this`consumed
      ensures Valid()
      ensures consumed == old(consumed) + [c]
    {
      ExtendStreams(consumed, c, idKey);
      assert Successes(consumed + [c]) == Successes(consumed);
      assert ErrorEntries(consumed + [c], idKey) == ErrorEntries(consumed, idKey);
      consumed := consumed + [c];
    }

    method SubmitError(c: Completion)
      requires Valid() && c.result.Raised?
      modifies this`errorsBatch, this`errorCount, this`consumed
      ensures Valid()
      ensures consumed == old(consumed) + [c]
      ensures errorsBatch == old(errorsBatch) + [ErrorEntry(c, idKey)]
    {
      ExtendStreams(consumed, c, idKey);
      assert Successes(consumed + [c]) == Successes(consumed);
      Staging(ErrorEntries(consumed, idKey), errorsBatch, errors.lines, errors.room,
              errorsBase, errorsRoom, ErrorEntry(c, idKey));
      errorsBatch := errorsBatch + [ErrorEntry(c, idKey)];
      errorCount := errorCount + 1;
      consumed := consumed + [c];
    }

    method SubmitSuccess(c: Completion)
      requires Valid() && IsSuccess(c)
      modifies this`resultsBatch, this`successCount, this`consumed
      ensures Valid()
      ensures consumed == old(consumed) + [c]
      ensures resultsBatch == old(resultsBatch) + [c.result.value]
    {
      ExtendStreams(consumed, c, idKey);
      assert ErrorEntries(consumed + [c], idKey) == ErrorEntries(consumed, idKey);
      Staging(Successes(consumed), resultsBatch, output.lines, output.room,
              outputBase, outputRoom, c.result.value);
      resultsBatch := resultsBatch + [c.result.value];
      successCount := successCount + 1;
      consumed := consumed + [c];
    }

    /** `_write_batch(results_batch, OUTPUT_FILE)` followed by
        `results_batch = []`. */
    method FlushResults()
      requires Valid()
      modifies this`resultsBatch, output
      ensures Valid() && resultsBatch == []
      ensures output.lines == outputBase + Encoded(Take(Successes(consumed), outputRoom))
    {
      Flushing(Successes(consumed), resultsBatch, output.lines, output.room, outputBase, outputRoom);
      output.WriteBatch(resultsBatch);
      resultsBatch := [];
    }

    /** `_write_batch(errors_batch, ERROR_FILE)` followed by
        `errors_batch = []`. */
    method FlushErrors()
      requires Valid()
      modifies this`errorsBatch, errors
      ensures Valid() && errorsBatch == []
      ensures errors.lines == errorsBase + Encoded(Take(ErrorEntries(consumed, idKey), errorsRoom))
    {
      Flushing(ErrorEntries(consumed, idKey), errorsBatch, errors.lines, errors.room, errorsBase, errorsRoom);
      errors.WriteBatch(errorsBatch);
      errorsBatch := [];
    }

    /** The `finally` of the loop: flush both remainders. The output file
        then holds every success and the error file every error entry, in
        completion order, as far as each device had room. */
    method FlushRemaining()
      requires Valid()
      modifies this, output, errors
      ensures Valid() && consumed == old(consumed)
      ensures resultsBatch == [] && errorsBatch == []
      ensures successCount == |Successes(consumed)| && errorCount == |ErrorEntries(consumed, idKey)|
      ensures output.lines == outputBase + Encoded(Take(Successes(consumed), outputRoom))
      ensures errors.lines == errorsBase + Encoded(Take(ErrorEntries(consumed, idKey), errorsRoom))
    {
      FlushResults();
      FlushErrors();
    }
  }
}
