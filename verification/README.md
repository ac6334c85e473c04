# JsonlBatch engine, modelled in Dafny

JsonlBatch runs a caller's asynchronous function once for each record of a
JSONL input file. Results go to an output file and failures to an error
file. A run that is restarted skips the records the output file already
marks as done. This project models the sequential bookkeeping inside that
engine (`processor.py`) and its retry decorator (`utils.py`):

- **Json** (`json.dfy`) holds the decoded JSON values and the two Python rules the engine leans on:
  - truthiness, for `if not record_id`;
  - set identity, for `processed_ids`: `True`, `1` and `1.0` are one element, and lists and dicts cannot be hashed.

  A JSONL line is `Parsed(value)` or `Malformed`.
- **Resume** (`resume.dfy`) has the two scans as left folds over the lines read so far:
  - `Load` is the ids that `_load_processed_state` gathers from the previous output;
  - `Filter` is the records that `_get_tasks_to_process` keeps from the input;
  - `WarningsAsWritten` is the warnings the filter logs, numbered by its `line_num` counter; `Warnings` is the same list with each warning naming its line's own position.

  Each fold also records the uncaught exception, if any, that ends the scan.
- **Sink** (`sink.dfy`) covers the result side.
  - `JsonlFile` is an append-only file. Its `room` is the number of lines the device still accepts, and `WriteBatch` is `_write_batch`.
  - `ResultSink` is a class holding the two buffers and two counters of `_run_processing_loop`. It consumes the outcomes in completion order and flushes a buffer whenever it reaches the batch size, then once more at the end.
  - `Successes` and `ErrorEntries` are the two streams the outcomes produce.
- **Processor** (`processor.dfy`) is the class `JsonlBatchProcessor`.
  - It has a `processed_ids` field and the methods `LoadProcessedState`, `GetTasksToProcess`, `RunProcessingLoop` and `Run`.
  - Each method is proved to compute the fold that specifies it.
  - `Run` keeps the early returns and the hook order of `run`.
  - The workers and the scheduler are a function `complete` from the task list to the completions in finishing order. It is only required to return each task exactly once.
- **Retry** (`retry.dfy`) is the attempt loop of `retry_with_backoff`'s `wrapper`.
  - Attempt `i` is a function `attempt(i)` returning `Ok` or `Err`.
  - The jitter draw after failure `i` is `random(i)`.
  - The method returns how the loop ended, how many calls it made and the sleeps it took.

## Model

| member | source | states |
|---|---|---|
| Json.HashKey | processor.py:57-60 | An id has no set element exactly when it is a list or an object, so adding or looking it up raises TypeError. `True` is the same element as `1`. |
| Json.EncodedAppend | processor.py:96-97 | Writing one batch after another appends the lines of their concatenation. |
| Json.EncodedAt | processor.py:96-97 | Line `i` of a written batch reads back as item `i`. |
| Resume.LoadLineMeaning | processor.py:55-61 | One output line crashes the loader exactly when it is a non-object, or has a truthy, unhashable id and no active rerun key. It adds exactly the id `id` when it marks `id` as done. |
| Resume.LoadStopsAtCrash | processor.py:54-62 | After the first line that raises, later lines change neither the ids nor the crash. |
| Resume.LoadedIdsExactly | processor.py:54-60 | On an output with no crashing line, an id is loaded iff some line is an object whose id is truthy and hashes to it, and that line lacks the rerun key whenever the key is set and non-empty. |
| Resume.MalformedLineIgnored | processor.py:55-62 | Removing an undecodable line from anywhere in the output changes neither the loaded ids nor the crash. |
| Resume.TaskLineMeaning | processor.py:76-85 | One input line crashes the filter iff it is a non-object or has a truthy unhashable id. It is kept iff it is pending, and then as its own record. |
| Resume.FilteredAreTasks | processor.py:79-83 | Every returned task has a truthy, hashable id that is not among the processed ids. |
| Resume.FilterConcat | processor.py:75-86 | Filtering `a + b` returns the tasks of `a` followed by those of `b`. Input order is therefore kept, and a duplicated record is returned twice. |
| Resume.FilterStopsAtCrash | processor.py:75-86 | After the first line that raises, later lines add no task. |
| Resume.FilterMoreDone | processor.py:82 | With more ids marked done, an input that yielded no task still yields none. |
| Resume.FilterSingle | processor.py:77-83 | A single line yields its record iff it is pending, and nothing otherwise. |
| Resume.FilterCountsPending | processor.py:75-85 | On a crash-free input, the number of tasks equals the number of pending lines. |
| Resume.LineNumberDrift | processor.py:74-86 | As written, a record without an id followed by an undecodable line gives two warnings that both name line 1. |
| Resume.WarningsNameTheirLines | processor.py:74-86 | With the counter advanced on every line, there is a warning for line n exactly when line n is undecodable (or is a record whose id is missing or falsy) and no earlier line crashed the scan, and that warning names n. |
| Resume.WarningsInLineOrder | processor.py:74-86 | With the counter advanced on every line, every warning names a line of the input, and the warnings come in strictly increasing line order. |
| Resume.WarningsStopAtCrash | processor.py:75-86 | The warnings logged, as written, are those of the lines up to the first line that raises: later lines log nothing. |
| Resume.NothingLeftAfterRestart | processor.py:48-88 | Suppose no line crashes either scan, and every pending input id is marked done by some output line. Then loading succeeds and the filter returns no task. |
| Processor.Worker | processor.py:127-132 | A worker yields a completion for its own task: the returned value, or the re-raised error as a failure. An empty retry loop becomes a failure too. Nothing escapes. |
| Processor.WorkersProduceEveryCompletion | processor.py:127-132 | Every completion, success or failure, is what a worker produces for its task from some outcome of the retry wrapper. |
| Processor.JsonlBatchProcessor.LoadProcessedState | processor.py:48-63 | `processed_ids` grows by exactly `Load(output)`. The reported crash is the loader's. |
| Processor.JsonlBatchProcessor.GetTasksToProcess | processor.py:65-88 | The tasks and the crash are `Filter(input)`, and every task is pending. The warnings are `WarningsAsWritten(input)`: numbered by `line_num`, which a record without an id does not advance. |
| Processor.JsonlBatchProcessor.RunProcessingLoop | processor.py:101-161 | See "RunProcessingLoop, in detail" below the table. |
| Processor.JsonlBatchProcessor.Run | processor.py:163-185 | See "Run, in detail" below the table. |
| Processor.EscapeAsWritten | processor.py:176-196 | As written, a failing startup makes `run` end with UnboundLocalError from the summary, and in no other case. |
| Processor.RunEscape | processor.py:176-196 | With the counters bound before the `try`, `run` ends with the startup error exactly when startup failed, and never with UnboundLocalError. |
| Processor.StartupErrorMasked | processor.py:176-196 | For a failing startup, the two definitions differ: UnboundLocalError as written, the startup error as intended. |
| Processor.RestartDoesNothing | processor.py:166-172 | Under the same hypotheses as `NothingLeftAfterRestart`, with any ids already in the set, the task list is empty. `Run` then returns `NothingToDo` with no hook call. |
| Processor.ResumeSkipsDoneRecord | processor.py:48-88 | An output holding id 1 and an input with ids 1, 2 and 3 give the tasks 2 and 3. |
| Processor.OneFailingRecord | processor.py:138-159 | Ids 1, 2 and 3 finish in the order 3, 2, 1, and id 2 fails. The output gains the two results in that order, and the error file gains one entry for id 2. |
| Sink.JsonlFile.WriteBatch | processor.py:90-99 | The file gains, in order, the items of the batch the device still has room for, and loses that much room. An empty batch changes nothing. |
| Sink.ExtendStreams | processor.py:140-148 | One more outcome adds its value to the successes (if it is not None), its entry to the errors (if it raised), or nothing. |
| Sink.OutcomesPartition | processor.py:140-148 | successes + errors + None results = number of outcomes. |
| Sink.OutcomesCoverTasks | processor.py:134-148 | When the outcomes are the tasks in any order, the three counts add up to the number of tasks. |
| Sink.ErrorEntriesFromFailures | processor.py:140-145 | Every error entry comes from a failed outcome. It holds the task's id (when present) and the task as its original record. |
| Sink.Staging | processor.py:144-148 | Buffering an item leaves the file unchanged, and the buffer stays the unflushed tail of its stream. |
| Sink.UnflushedKeepsFile | processor.py:152-155 | A buffer that only grows leaves its file and the device's room as they were. |
| Sink.Flushing | processor.py:152-159 | After flushing a buffer, the file holds what the device accepted of the whole stream, in order, and nothing is pending. |
| Sink.SplitFlush | processor.py:90-99 | Writing a stream in two batches against a device with limited room appends the same lines as writing it at once. |
| Sink.ResultSink.constructor | processor.py:103-104 | The sink starts with both buffers and both counters empty. |
| Sink.ResultSink.Submit | processor.py:140-148 | The outcome is added to exactly the right buffer (or to none, for None), and the counters stay the stream lengths. |
| Sink.ResultSink.SubmitError | processor.py:140-145 | A failure appends its error entry to the error buffer and counts it. |
| Sink.ResultSink.SubmitSuccess | processor.py:146-148 | A non-None result is appended to the result buffer and counted. |
| Sink.ResultSink.SubmitNone | processor.py:139-148 | A None result changes no buffer and no counter. |
| Sink.ResultSink.FlushResults | processor.py:152-153 | The output file then holds every success so far, as far as room allows, and the result buffer is empty. |
| Sink.ResultSink.FlushErrors | processor.py:154-155 | The error file then holds every error entry so far, as far as room allows, and the error buffer is empty. |
| Sink.ResultSink.Consume | processor.py:138-155 | See "Consume, in detail" below the table. |
| Sink.ResultSink.ConsumeAll | processor.py:138-155 | All outcomes are consumed in order, and both buffers stay below a full batch. |
| Sink.ResultSink.FlushRemaining | processor.py:156-159 | After the final flush, the counters are the stream lengths. The output holds every success and the error file every error entry, in completion order, as far as room allows. |
| Sink.ResultSink.Drain | processor.py:137-161 | The loop and its final flush return the two counts. Each file ends as `before + the stream`, as far as room allows. |
| Retry.RetryWithBackoff | utils.py:29-49 | See "RetryWithBackoff, in detail" below the table. |
| Retry.JitterBounds | utils.py:42-43 | For a draw r in [0, 1), each sleep lies in [0.9 d, 1.1 d), where d is the base delay. |
| Retry.DelaysGrow | utils.py:32-46 | With a factor of at least 1, the base delays never shrink and never fall below the initial delay. |
| Retry.DoublingSchedule | utils.py:17-46 | With the default factor 2, the base delay before retry k+1 is `initial * 2^k`, and each is twice the previous one. |

**RunProcessingLoop, in detail.** The returned counts are the numbers of non-None results and of failures. The output file gains the successes, and the error file gains one entry per failure. Both are in completion order, as far as each device has room.

**Run, in detail.**
- `processed_ids` grows by the loaded ids.
- `Run` ends `Aborted` iff a scan crashed, and then before any hook.
- `Run` returns `NothingToDo` iff the scans find no task. In that case no hook is called and no file changes.
- A failing startup still calls shutdown.
- Otherwise the hooks are startup and then shutdown. The counts plus the None results equal the number of tasks, and the files end as `RunProcessingLoop` states.

**Consume, in detail.**
- The outcome is appended to its stream.
- A buffer that reaches the batch size is flushed. Afterwards each buffer is empty or shorter than the batch size.
- A buffer that is not full afterwards is its old contents plus the new item, if the outcome belongs to it; the other buffer is unchanged. Neither file changes for a buffer that was not flushed (`UnflushedKeepsFile`).

**RetryWithBackoff, in detail.**
- There are at most `retries + 1` calls, and the loop returns at the first success.
- Every earlier call failed.
- After `retries + 1` failures, the last error is re-raised.
- A negative `retries` gives the RuntimeError without any call.
- `retries = 0` means one call and no sleep.
- There is one sleep fewer than calls.
- Sleep `j` is the base delay `initial * factor^j`, jittered by draw `j`.

Where the code behaves differently from what a reader of the engine might expect, the model follows the code:
- **Rerun key.** The loader checks whether the key is present in the output record. The value is not tested for truthiness (processor.py:59). The check is off when the key is None or `""`.
- **Records without an id.** Input records whose id is missing or falsy are dropped with a warning, not processed (processor.py:79-81).
- **Error entries** are buffered and batched like successes, not written immediately (processor.py:154-155). They carry only `record_id`, `error_message` and `original_record`, with no error kind and no timestamp (processor.py:144).
- **Write failures.** An OSError while writing is logged and swallowed, not fatal (processor.py:98-99). The lines of the batch that were not written are lost.
- **None results** update no counter (processor.py:146-148).
- **Startup timing.** Startup runs only after both scans, and only when there is at least one task (processor.py:166-178).
- **Crashing lines.** A well-formed JSON line that is not an object ends the run with AttributeError (from `data.get`). So does a truthy list or dict id, with TypeError (processor.py:57-60, 78-82). Only `JSONDecodeError` is caught.

## Left out

- Concurrency is left out: the semaphore, `as_completed`, the write lock and the event loop. Completion order is an arbitrary sequence holding each task once.
- The rate limiter is left out (processor.py:107-119). It depends on the wall clock and on float arithmetic.
- The business call itself is left out: the `process_function`, the `aiohttp` session and the contents of the context.
- `json.loads` and `json.dumps` are not modelled. A line is already decoded or `Malformed`, and a written value reads back unchanged. Numbers are exact reals, so the int/float distinction, NaN, the infinities and float rounding are not represented.
- A `process_function` result that is not a JSON value is not represented: a tuple, or anything else `json.dumps` rejects.
- A missing input or output file behaves like an empty one, and is not modelled separately.
- `_ensure_dir_exists` is not modelled.
- Logging other than the filter's warnings is not modelled, nor are the tqdm progress bar and the summary text in `run`'s `finally`. The filter's warnings, with their line numbers, are modelled. The exception that summary raises after a failed startup is modelled under Findings.
- Write failures are a per-file budget of lines the device still accepts. Once it is exhausted, every later write fails. A device that fails and then recovers, and a failure while opening the file, are modelled only as that budget.
- Randomness and `asyncio.sleep` are parameters: the draws are a function `random`, and the sleeps are returned as a sequence.
- Processor.JsonlBatchProcessor.RunProcessingLoop: requires the output and error files to be two different files. With both paths configured the same, the engine would interleave the two streams in one file, and that case is not modelled.
- Processor.JsonlBatchProcessor.Run: each completion carries its task record as it was scheduled. A `process_function` that mutates its record in place would make the error entry's `record_id` and `original_record` show the mutated record; that aliasing is not modelled.
- Processor.JsonlBatchProcessor.Run: an exception raised by `on_shutdown` itself is not modelled. A BaseException escaping the processing loop (cancellation) is not modelled either.
- The configuration values come from `config.py`, `logger_config.py` and `main.py`, which are not part of this model; they are the constructor's parameters. `user_logic.py` is not part of this model either.

## Findings

| source | as written | input that shows it | evidently intended | confidence | as-written member | corrected member |
|---|---|---|---|---|---|---|
| processor.py:74-86 | `line_num` is advanced at the end of the loop body, which `continue` skips for a record without an id | a record `{}` on line 1 followed by an undecodable line 2: the second warning names line 1 | each warning names the line's own position | high (not executed) | Resume.LineNumberDrift | Resume.WarningsNameTheirLines |
| processor.py:176-196 | `success_count` is bound only once the processing loop returns, but the `finally` summary always formats it | `on_startup` raises: the summary raises UnboundLocalError, which replaces the startup error | the startup error propagates after shutdown | high (not executed) | Processor.EscapeAsWritten | Processor.RunEscape |
