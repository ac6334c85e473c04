/** `JsonlBatchProcessor`: load the ids already done, choose the tasks,
    run them and collect their outcomes, between the caller's startup and
    shutdown hooks. The workers themselves run concurrently; here their
    outcomes arrive as a sequence in completion order. */
module Processor {
  import opened Json
  import opened Resume
  import opened Sink
  import Retry

  /** The caller's `on_startup` hook: absent, returning a context, or raising. */
  datatype Startup = NoStartup | StartupReturns | StartupRaises

  /** A lifecycle hook call, in the order `run` makes them. */
  datatype Hook = OnStartup | OnShutdown

  /** How `run` ends. */
  datatype RunEnd =
    | Aborted(crash: Crash)                          // an uncaught exception while scanning a file
    | NothingToDo                                    // no task: return before any hook
    | StartupFailed                                  // `on_startup` raised; shutdown still ran
    | Processed(successCount: nat, errorCount: nat)  // the processing loop ran to the end

  /** The hook calls `run` makes once there are tasks. */
  function HookCalls(startup: Startup, hasShutdown: bool): seq<Hook> {
    (if startup == NoStartup then [] else [OnStartup]) + (if hasShutdown then [OnShutdown] else [])
  }

  /** Completions that are the given tasks, each exactly once, in some order. */
  ghost predicate CompletesEach(cs: seq<Completion>, tasks: seq<Record>) {
    multiset(TasksOf(cs)) == multiset(tasks)
  }

  /** The message of the RuntimeError the retry wrapper raises when its
      loop runs zero times. */
  const RetryLogicMessage := "\U{91cd}\U{8bd5}\U{903b}\U{8f91}\U{5f02}\U{5e38}\U{9000}\U{51fa}"

  /** `worker`: await the retried call for one task; an exception it raises,
      whichever it is, comes back as `(exception, task)` instead of
      escaping, so one failing task never stops the others. */
  function Worker(task: Record, r: Retry.Retried<Value, string>): (c: Completion)
    ensures c.task == task
    ensures c.result.Returned? <==> r.Returned?
    ensures r.Returned? ==> c.result.value == r.value
    ensures r.Reraised? ==> c.result.message == r.error
  {
    match r
    case Returned(v) => Completion(task, Returned(v))
    case Reraised(e) => Completion(task, Raised(e))
    case Exhausted => Completion(task, Raised(RetryLogicMessage))
  }

  /** Every completion `Run` can be handed is one a worker produces for
      its task from some outcome of the retry wrapper, so taking the
      completions as given loses no case. */
  lemma WorkersProduceEveryCompletion(c: Completion)
    ensures exists r: Retry.Retried<Value, string> :: Worker(c.task, r) == c
  {
    match c.result
    case Returned(v) =>
      assert Worker(c.task, Retry.Returned(v)) == c;
    case Raised(m) =>
      assert Worker(c.task, Retry.Reraised(m)) == c;
  }

  class JsonlBatchProcessor {
    const idKey: string
    const rerunKey: Option<string>
    const batchSize: int
    var processedIds: set<Id>

    constructor (idKey: string, rerunKey: Option<string>, batchSize: int)
      ensures this.idKey == idKey && this.rerunKey == rerunKey && this.batchSize == batchSize
      ensures processedIds == {}
    {
      this.idKey := idKey;
      this.rerunKey := rerunKey;
      this.batchSize := batchSize;
      processedIds := {};
    }

    /** `_load_processed_state`: add to `processed_ids` the id of every line
        of the previous output that marks one as done, stopping at the first
        line that raises. A missing output file reads as an empty one. */
    method LoadProcessedState(output: JsonlFile) returns (crash: Option<Crash>)
      modifies this`processedIds
      ensures crash == Load(output.lines, idKey, rerunKey).crash
      ensures processedIds == old(processedIds) + Load(output.lines, idKey, rerunKey).ids
    {
      var lines := output.lines;
      var i := 0;
      while i < |lines|
        invariant i <= |lines|
        invariant Load(lines[..i], idKey, rerunKey).crash.None?
        invariant processedIds == old(processedIds) + Load(lines[..i], idKey, rerunKey).ids
      {
        assert lines[..i + 1][..i] == lines[..i];
        match LoadLine(lines[i], idKey, rerunKey) {
          case Ignore =>
          case Add(id) =>
            processedIds := processedIds + {id};
          case Halt(c) =>
            LoadStopsAtCrash(lines, i + 1, idKey, rerunKey);
            return Some(c);
        }
        i := i + 1;
      }
      assert lines[..i] == lines;
      return None;
    }

    /** `_get_tasks_to_process`: the records of the input whose id is truthy
        and not yet processed, in input order, stopping at the first line
        that raises, and the warnings about the lines it skips, numbered by
        its `line_num` counter. A missing input file reads as an empty one. */
    method GetTasksToProcess(input: JsonlFile)
      returns (tasks: seq<Record>, crash: Option<Crash>, warnings: seq<Warning>)
      ensures Filtered(tasks, crash) == Filter(input.lines, idKey, processedIds)
      ensures forall t :: t in tasks ==> IsTask(t, idKey, processedIds)
      ensures warnings == WarningsAsWritten(input.lines, idKey, processedIds)
    {
      var lines := input.lines;
      tasks, warnings := [], [];
      var lineNum := 1;
      var i := 0;
      while i < |lines|
        invariant i <= |lines|
        invariant Filter(lines[..i], idKey, processedIds) == Filtered(tasks, None)
        invariant warnings == WarningsAsWritten(lines[..i], idKey, processedIds)
        invariant lineNum == LineCounterAsWritten(lines[..i], idKey)
      {
        assert lines[..i + 1][..i] == lines[..i];
        var line := lines[i];
        match TaskLine(line, idKey, processedIds) {
          case Drop =>
            if line.Malformed? {
              warnings := warnings + [Undecodable(lineNum)];
            } else if IdMissing(line, idKey) {
              // `continue`: the counter is not advanced
              warnings := warnings + [MissingId(lineNum)];
              i := i + 1;
              continue;
            }
          case Keep(t) =>
            tasks := tasks + [t];
          case Stop(c) =>
            assert Filter(lines[..i + 1], idKey, processedIds) == Filtered(tasks, Some(c));
            FilterStopsAtCrash(lines, i + 1, idKey, processedIds);
            WarningsStopAtCrash(lines, i + 1, idKey, processedIds);
            FilteredAreTasks(lines, idKey, processedIds);
            return tasks, Some(c), warnings;
        }
        lineNum := lineNum + 1;
        i := i + 1;
      }
      assert lines[..i] == lines;
      FilteredAreTasks(lines, idKey, processedIds);
      return tasks, None, warnings;
    }

    /** The collecting half of `_run_processing_loop`: consume the outcomes
        in completion order, then flush what is left. The counters count the
        successes and failures; the output file gains every success and the
        error file one entry per failure, in completion order, as far as
        each device has room. */
    method RunProcessingLoop(completions: seq<Completion>, output: JsonlFile, errors: JsonlFile)
      returns (successCount: nat, errorCount: nat)
      requires output != errors
      modifies output, errors
      ensures successCount == |Successes(completions)|
      ensures errorCount == |ErrorEntries(completions, idKey)|
      ensures output.lines == old(output.lines) + Encoded(Take(Successes(completions), old(output.room)))
      ensures errors.lines == old(errors.lines) + Encoded(Take(ErrorEntries(completions, idKey), old(errors.room)))
    {
      var sink := new ResultSink(batchSize, idKey, output, errors);
      successCount, errorCount := sink.Drain(completions);
    }

    /** `run`: load the done ids, choose the tasks, and only if there are
        any call the startup hook, process, and call the shutdown hook
        (also when startup raised). `complete` stands for the workers and
        the scheduler: given the tasks it yields their completions in the
        order they finish. As written, the exception, if any, that then
        leaves `run` is `EscapeAsWritten(end)`; with the two counters bound
        before the `try` it would be `RunEscape(end)`. */
    method Run(input: JsonlFile, output: JsonlFile, errors: JsonlFile,
               complete: seq<Record> -> seq<Completion>, startup: Startup, hasShutdown: bool)
      returns (calls: seq<Hook>, end: RunEnd)
      requires output != errors
      requires forall ts :: CompletesEach(complete(ts), ts)
      modifies this`processedIds, output, errors
      ensures processedIds == old(processedIds) + Load(old(output.lines), idKey, rerunKey).ids
      ensures Load(old(output.lines), idKey, rerunKey).crash.Some? ==>
                end == Aborted(Load(old(output.lines), idKey, rerunKey).crash.value)
      ensures Load(old(output.lines), idKey, rerunKey).crash.None? ==>
                Filter(old(input.lines), idKey, processedIds).crash.Some? ==>
                  end == Aborted(Filter(old(input.lines), idKey, processedIds).crash.value)
      ensures end.Aborted? <==>
                Load(old(output.lines), idKey, rerunKey).crash.Some? ||
                Filter(old(input.lines), idKey, processedIds).crash.Some?
      ensures end.Aborted? || end == NothingToDo || end == StartupFailed ==>
                calls == (if end == StartupFailed then HookCalls(startup, hasShutdown) else []) &&
                output.lines == old(output.lines) && errors.lines == old(errors.lines)
      ensures end == NothingToDo <==>
                Load(old(output.lines), idKey, rerunKey).crash.None? &&
                Filter(old(input.lines), idKey, processedIds) == Filtered([], None)
      ensures end == StartupFailed <==> !end.Aborted? && end != NothingToDo && startup == StartupRaises
      ensures end.Processed? ==>
                var tasks := Filter(old(input.lines), idKey, processedIds).tasks;
                var cs := complete(tasks);
                tasks != [] &&
                calls == HookCalls(startup, hasShutdown) &&
                end.successCount + end.errorCount + NoResults(cs) == |tasks| &&
                end.successCount == |Successes(cs)| && end.errorCount == |ErrorEntries(cs, idKey)| &&
                output.lines == old(output.lines) + Encoded(Take(Successes(cs), old(output.room))) &&
                errors.lines == old(errors.lines) + Encoded(Take(ErrorEntries(cs, idKey), old(errors.room)))
    {
      calls := [];
      var loadCrash := LoadProcessedState(output);
      if loadCrash.Some? {
        return calls, Aborted(loadCrash.value);
      }
      var tasks, filterCrash, warnings := GetTasksToProcess(input);
      if filterCrash.Some? {
        return calls, Aborted(filterCrash.value);
      }
      if tasks == [] {
        return calls, NothingToDo;
      }
      if startup != NoStartup {
        calls := calls + [OnStartup];
      }
      if startup == StartupRaises {
        if hasShutdown {
          calls := calls + [OnShutdown];
        }
        return calls, StartupFailed;
      }
      var cs := complete(tasks);
      OutcomesCoverTasks(cs, tasks, idKey);
      var successCount, errorCount := RunProcessingLoop(cs, output, errors);
      if hasShutdown {
        calls := calls + [OnShutdown];
      }
      return calls, Processed(successCount, errorCount);
    }
  }

  /** The exception, if any, that leaves `run`. */
  datatype Escape =
    | Clean           // `run` returns normally
    | ScanError       // the AttributeError or TypeError of a scan
    | StartupError    // the exception `on_startup` raised
    | SummaryUnbound  // UnboundLocalError raised by the summary in `finally`

  /** As written: the summary in the `finally` of `run` formats
      `success_count`, which is bound only once the processing loop has
      returned. After a failed startup it raises UnboundLocalError, which
      replaces the startup hook's exception. */
  function EscapeAsWritten(end: RunEnd): (e: Escape)
    ensures e == SummaryUnbound <==> end == StartupFailed
  {
    match end
    case Aborted(_) => ScanError
    case StartupFailed => SummaryUnbound
    case _ => Clean
  }

  /** With both counters bound before the `try`, the startup hook's own
      exception is the one that leaves `run`, and the summary never raises. */
  function RunEscape(end: RunEnd): (e: Escape)
    ensures e != SummaryUnbound
    ensures e == StartupError <==> end == StartupFailed
    ensures e == Clean <==> end == NothingToDo || end.Processed?
  {
    match end
    case Aborted(_) => ScanError
    case StartupFailed => StartupError
    case _ => Clean
  }

  /** A failing startup hook: as written its exception is lost. */
  lemma StartupErrorMasked()
    ensures EscapeAsWritten(StartupFailed) == SummaryUnbound
    ensures RunEscape(StartupFailed) == StartupError
  {
  }

  /** Restart idempotence at the level of `run`: when the previous output
      marks every usable input id as done, `run` finds nothing to do and
      returns before calling any hook. */
  lemma RestartDoesNothing(output: seq<Line>, input: seq<Line>, idKey: string, rerunKey: Option<string>,
                           before: set<Id>)
    requires forall k :: 0 <= k < |output| ==> !LoadCrashes(output[k], idKey, rerunKey)
    requires forall k :: 0 <= k < |input| ==> !FilterCrashes(input[k], idKey)
    requires forall k, id :: 0 <= k < |input| && Pending(input[k], idKey, {}) && HashKey(input[k].value.fields[idKey]) == Some(id) ==>
               exists j :: 0 <= j < |output| && MarksDone(output[j], id, idKey, rerunKey)
    ensures Load(output, idKey, rerunKey).crash.None?
    ensures Filter(input, idKey, before + Load(output, idKey, rerunKey).ids) == Filtered([], None)
  {
    NothingLeftAfterRestart(output, input, idKey, rerunKey);
    FilterMoreDone(input, idKey, Load(output, idKey, rerunKey).ids, before + Load(output, idKey, rerunKey).ids);
  }

  // ---------------------------------------------------------------------------
  // Two concrete runs
  // ---------------------------------------------------------------------------

  function Rec(id: real): Record {
    map["id" := Num(id), "v" := Num(id)]
  }

  /** The previous output holds id 1 without the rerun key; the input holds
      ids 1, 2 and 3. Only the records with ids 2 and 3 are processed. */
  lemma ResumeSkipsDoneRecord()
    ensures Load([Parsed(Obj(Rec(1.0)))], "id", Some("force_rerun")) == Loaded({NumId(1.0)}, None)
    ensures Filter([Parsed(Obj(Rec(1.0))), Parsed(Obj(Rec(2.0))), Parsed(Obj(Rec(3.0)))], "id", {NumId(1.0)})
            == Filtered([Rec(2.0), Rec(3.0)], None)
  {
    var input := [Parsed(Obj(Rec(1.0))), Parsed(Obj(Rec(2.0))), Parsed(Obj(Rec(3.0)))];
    assert [Parsed(Obj(Rec(1.0)))][..0] == [];
    assert input[..2][..1] == input[..1] && input[..1][..0] == [];
    assert input[..3] == input;
    assert Filter(input[..1], "id", {NumId(1.0)}) == Filtered([], None);
    assert Filter(input[..2], "id", {NumId(1.0)}) == Filtered([Rec(2.0)], None);
  }

  /** Ids 1, 2 and 3, the task with id 2 raising and id 3 finishing before
      id 1: the two results reach the output in completion order and one
      entry, for id 2, reaches the error file. */
  lemma OneFailingRecord()
    ensures var cs := [Completion(Rec(3.0), Returned(Obj(Rec(6.0)))),
                       Completion(Rec(2.0), Raised("boom")),
                       Completion(Rec(1.0), Returned(Obj(Rec(2.0))))];
            Successes(cs) == [Obj(Rec(6.0)), Obj(Rec(2.0))] &&
            ErrorEntries(cs, "id") == [Obj(map["record_id" := Num(2.0), "error_message" := Str("boom"),
                                               "original_record" := Obj(Rec(2.0))])]
  {
    var cs := [Completion(Rec(3.0), Returned(Obj(Rec(6.0)))),
               Completion(Rec(2.0), Raised("boom")),
               Completion(Rec(1.0), Returned(Obj(Rec(2.0))))];
    assert cs[..2][..1] == cs[..1] && cs[..1][..0] == [];
    assert cs[..3] == cs;
    assert Successes(cs[..1]) == [Obj(Rec(6.0))];
    assert Successes(cs[..2]) == [Obj(Rec(6.0))];
    assert ErrorEntries(cs[..1], "id") == [];
    assert GetOr(Rec(2.0), "id", Str("N/A")) == Num(2.0);
    assert ErrorEntries(cs[..2], "id") == [ErrorEntry(cs[1], "id")];
  }
}
