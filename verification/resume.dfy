/** The resume logic of `JsonlBatchProcessor`: which ids the previous output
    marks as done (`_load_processed_state`) and which input records are still
    to be processed (`_get_tasks_to_process`). Both scan their file line by
    line; here each scan is a function over the lines read so far, and the
    class methods in the Processor module are proved to compute it. */
module Resume {
  import opened Json

  /** An exception that neither scan catches (only `JSONDecodeError` is
      caught), so it ends the whole run. */
  datatype Crash =
    | NotAnObject   // the line decodes to a list, string, number, ...: `data.get` raises AttributeError
    | UnhashableId  // the id is a non-empty list or dict: the set operation raises TypeError

  /** `if self.config.RERUN_KEY`: the feature is off when the key is None or "". */
  predicate RerunEnabled(rerunKey: Option<string>) {
    rerunKey.Some? && rerunKey.value != ""
  }

  // ---------------------------------------------------------------------------
  // Loading the ids of the previous output
  // ---------------------------------------------------------------------------

  /** What the loader does with one line of the previous output. */
  datatype LoadStep = Ignore | Add(id: Id) | Halt(crash: Crash)

  function LoadLine(line: Line, idKey: string, rerunKey: Option<string>): LoadStep {
    match line
    case Malformed => Ignore
    case Parsed(v) =>
      if !v.Obj? then Halt(NotAnObject)
      else
        var rid := GetOr(v.fields, idKey, Null);
        if !Truthy(rid) then Ignore
        else if RerunEnabled(rerunKey) && rerunKey.value in v.fields then Ignore
        else match HashKey(rid)
          case None => Halt(UnhashableId)
          case Some(id) => Add(id)
  }

  /** The ids gathered by scanning `lines` in order, and the crash, if any,
      that stopped the scan (the ids gathered before it stay gathered). */
  datatype Loaded = Loaded(ids: set<Id>, crash: Option<Crash>)

  function Load(lines: seq<Line>, idKey: string, rerunKey: Option<string>): Loaded
  {
    if lines == [] then Loaded({}, None)
    else
      var prior := Load(lines[..|lines| - 1], idKey, rerunKey);
      if prior.crash.Some? then prior
      else match LoadLine(lines[|lines| - 1], idKey, rerunKey)
        case Ignore => prior
        case Add(id) => Loaded(prior.ids + {id}, None)
        case Halt(c) => Loaded(prior.ids, Some(c))
  }

  /** A line of the previous output that marks `id` as done: a JSON object
      whose id is truthy and hashes to `id`, and which does not contain the
      rerun key when that feature is on (presence counts, not the value). */
  ghost predicate MarksDone(line: Line, id: Id, idKey: string, rerunKey: Option<string>) {
    line.Parsed? && line.value.Obj? &&
    idKey in line.value.fields && Truthy(line.value.fields[idKey]) &&
    HashKey(line.value.fields[idKey]) == Some(id) &&
    !(RerunEnabled(rerunKey) && rerunKey.value in line.value.fields)
  }

  /** A line on which the loader raises. */
  ghost predicate LoadCrashes(line: Line, idKey: string, rerunKey: Option<string>) {
    line.Parsed? &&
    (!line.value.Obj? ||
     (idKey in line.value.fields && Truthy(line.value.fields[idKey]) &&
      !(RerunEnabled(rerunKey) && rerunKey.value in line.value.fields) &&
      HashKey(line.value.fields[idKey]).None?))
  }

  /** One line, classified: it crashes the loader, marks exactly one id as
      done, or is passed over. */
  lemma LoadLineMeaning(line: Line, idKey: string, rerunKey: Option<string>)
    ensures LoadLine(line, idKey, rerunKey).Halt? <==> LoadCrashes(line, idKey, rerunKey)
    ensures forall id :: LoadLine(line, idKey, rerunKey) == Add(id) <==> MarksDone(line, id, idKey, rerunKey)
  {
  }

  /** Once the scan has crashed, later lines change nothing. */
  lemma {:induction false} LoadStopsAtCrash(lines: seq<Line>, k: nat, idKey: string, rerunKey: Option<string>)
    requires k <= |lines|
    requires Load(lines[..k], idKey, rerunKey).crash.Some?
    ensures Load(lines, idKey, rerunKey) == Load(lines[..k], idKey, rerunKey)
  {
    if k < |lines| {
      assert lines[..|lines| - 1][..k] == lines[..k];
      LoadStopsAtCrash(lines[..|lines| - 1], k, idKey, rerunKey);
    } else {
      assert lines[..k] == lines;
    }
  }

  /** After loading a file on which the loader does not crash, an id is in the
      set exactly when some line of the file marks it as done. */
  lemma {:induction false} LoadedIdsExactly(lines: seq<Line>, idKey: string, rerunKey: Option<string>)
    requires forall k :: 0 <= k < |lines| ==> !LoadCrashes(lines[k], idKey, rerunKey)
    ensures Load(lines, idKey, rerunKey).crash.None?
    ensures forall id :: id in Load(lines, idKey, rerunKey).ids <==>
              exists k :: 0 <= k < |lines| && MarksDone(lines[k], id, idKey, rerunKey)
  {
    if lines != [] {
      var init := lines[..|lines| - 1];
      var last := lines[|lines| - 1];
      LoadedIdsExactly(init, idKey, rerunKey);
      LoadLineMeaning(last, idKey, rerunKey);
      forall id
        ensures id in Load(lines, idKey, rerunKey).ids <==>
                exists k :: 0 <= k < |lines| && MarksDone(lines[k], id, idKey, rerunKey)
      {
        if id in Load(lines, idKey, rerunKey).ids {
          if id in Load(init, idKey, rerunKey).ids {
            var k :| 0 <= k < |init| && MarksDone(init[k], id, idKey, rerunKey);
            assert lines[k] == init[k];
          } else {
            assert MarksDone(lines[|lines| - 1], id, idKey, rerunKey);
          }
        }
        if exists k :: 0 <= k < |lines| && MarksDone(lines[k], id, idKey, rerunKey) {
          var k :| 0 <= k < |lines| && MarksDone(lines[k], id, idKey, rerunKey);
          if k < |init| {
            assert init[k] == lines[k];
          }
        }
      }
    }
  }

  /** A line that does not decode is skipped and the scan carries on: removing
      it from anywhere in the file changes neither the ids nor the crash. */
  lemma {:induction false} MalformedLineIgnored(a: seq<Line>, b: seq<Line>, idKey: string, rerunKey: Option<string>)
    ensures Load(a + [Malformed] + b, idKey, rerunKey) == Load(a + b, idKey, rerunKey)
  {
    if b == [] {
      assert a + [Malformed] + b == a + [Malformed];
      assert (a + [Malformed])[..|a|] == a;
      assert a + b == a;
    } else {
      var b' := b[..|b| - 1];
      MalformedLineIgnored(a, b', idKey, rerunKey);
      assert (a + [Malformed] + b)[..|a + [Malformed] + b| - 1] == a + [Malformed] + b';
      assert (a + b)[..|a + b| - 1] == a + b';
    }
  }

  // ---------------------------------------------------------------------------
  // Choosing the input records to process
  // ---------------------------------------------------------------------------

  /** What the task filter does with one line of the input. */
  datatype TaskStep = Drop | Keep(task: Record) | Stop(crash: Crash)

  function TaskLine(line: Line, idKey: string, processed: set<Id>): TaskStep {
    match line
    case Malformed => Drop
    case Parsed(v) =>
      if !v.Obj? then Stop(NotAnObject)
      else
        var rid := GetOr(v.fields, idKey, Null);
        if !Truthy(rid) then Drop
        else match HashKey(rid)
          case None => Stop(UnhashableId)
          case Some(id) => if id in processed then Drop else Keep(v.fields)
  }

  /** The records kept by scanning `lines` in order, and the crash, if any,
      that stopped the scan. */
  datatype Filtered = Filtered(tasks: seq<Record>, crash: Option<Crash>)

  function Filter(lines: seq<Line>, idKey: string, processed: set<Id>): Filtered
  {
    if lines == [] then Filtered([], None)
    else
      var prior := Filter(lines[..|lines| - 1], idKey, processed);
      if prior.crash.Some? then prior
      else match TaskLine(lines[|lines| - 1], idKey, processed)
        case Drop => prior
        case Keep(t) => Filtered(prior.tasks + [t], None)
        case Stop(c) => Filtered(prior.tasks, Some(c))
  }

  /** An input line the filter keeps: a JSON object with a truthy, hashable
      id that is not among the processed ids. */
  ghost predicate Pending(line: Line, idKey: string, processed: set<Id>) {
    line.Parsed? && line.value.Obj? &&
    idKey in line.value.fields && Truthy(line.value.fields[idKey]) &&
    HashKey(line.value.fields[idKey]).Some? &&
    HashKey(line.value.fields[idKey]).value !in processed
  }

  /** A line on which the filter raises. */
  ghost predicate FilterCrashes(line: Line, idKey: string) {
    line.Parsed? &&
    (!line.value.Obj? ||
     (idKey in line.value.fields && Truthy(line.value.fields[idKey]) &&
      HashKey(line.value.fields[idKey]).None?))
  }

  /** A task is a record the filter would keep: it has a truthy id, and that
      id is not among the processed ids. */
  ghost predicate IsTask(t: Record, idKey: string, processed: set<Id>) {
    idKey in t && Truthy(t[idKey]) &&
    HashKey(t[idKey]).Some? && HashKey(t[idKey]).value !in processed
  }

  /** One line, classified: the filter crashes on it, keeps exactly its
      record, or drops it. */
  lemma TaskLineMeaning(line: Line, idKey: string, processed: set<Id>)
    ensures TaskLine(line, idKey, processed).Stop? <==> FilterCrashes(line, idKey)
    ensures TaskLine(line, idKey, processed).Keep? <==> Pending(line, idKey, processed)
    ensures Pending(line, idKey, processed) ==> TaskLine(line, idKey, processed) == Keep(line.value.fields)
  {
  }

  /** Every returned task has a truthy id that is not among the processed
      ids, whatever the input holds. */
  lemma {:induction false} FilteredAreTasks(lines: seq<Line>, idKey: string, processed: set<Id>)
    ensures forall t :: t in Filter(lines, idKey, processed).tasks ==> IsTask(t, idKey, processed)
  {
    if lines != [] {
      FilteredAreTasks(lines[..|lines| - 1], idKey, processed);
    }
  }

  /** The scan treats the lines one after another: filtering `a + b` is
      filtering `a` and then `b`, so the tasks keep input order and a record
      that occurs twice is returned twice. */
  lemma {:induction false} FilterConcat(a: seq<Line>, b: seq<Line>, idKey: string, processed: set<Id>)
    requires Filter(a, idKey, processed).crash.None?
    ensures Filter(a + b, idKey, processed) ==
              Filtered(Filter(a, idKey, processed).tasks + Filter(b, idKey, processed).tasks,
                       Filter(b, idKey, processed).crash)
  {
    if b == [] {
      assert a + b == a;
    } else {
      var b' := b[..|b| - 1];
      FilterConcat(a, b', idKey, processed);
      assert (a + b)[..|a + b| - 1] == a + b';
      assert (a + b)[|a + b| - 1] == b[|b| - 1];
    }
  }

  /** Once the scan has crashed, later lines change nothing. */
  lemma {:induction false} FilterStopsAtCrash(lines: seq<Line>, k: nat, idKey: string, processed: set<Id>)
    requires k <= |lines|
    requires Filter(lines[..k], idKey, processed).crash.Some?
    ensures Filter(lines, idKey, processed) == Filter(lines[..k], idKey, processed)
  {
    if k < |lines| {
      assert lines[..|lines| - 1][..k] == lines[..k];
      FilterStopsAtCrash(lines[..|lines| - 1], k, idKey, processed);
    } else {
      assert lines[..k] == lines;
    }
  }

  /** Marking more ids as done cannot bring a task back. */
  lemma {:induction false} FilterMoreDone(lines: seq<Line>, idKey: string, done: set<Id>, more: set<Id>)
    requires done <= more
    requires Filter(lines, idKey, done) == Filtered([], None)
    ensures Filter(lines, idKey, more) == Filtered([], None)
  {
    if lines != [] {
      FilterMoreDone(lines[..|lines| - 1], idKey, done, more);
    }
  }

  /** On a single line the filter returns that line's record exactly when
      the line is pending. */
  lemma FilterSingle(line: Line, idKey: string, processed: set<Id>)
    ensures !FilterCrashes(line, idKey) ==> Filter([line], idKey, processed).crash.None?
    ensures Filter([line], idKey, processed).tasks ==
              if Pending(line, idKey, processed) then [line.value.fields] else []
  {
    assert [line][..0] == [];
  }

  /** With no crash in the input, there are as many tasks as pending lines
      (their order is the input's, by `FilterConcat`). */
  lemma {:induction false} FilterCountsPending(lines: seq<Line>, idKey: string, processed: set<Id>)
    requires forall k :: 0 <= k < |lines| ==> !FilterCrashes(lines[k], idKey)
    ensures Filter(lines, idKey, processed).crash.None?
    ensures |Filter(lines, idKey, processed).tasks| == PendingCount(lines, idKey, processed)
  {
    if lines != [] {
      var init := lines[..|lines| - 1];
      FilterCountsPending(init, idKey, processed);
      TaskLineMeaning(lines[|lines| - 1], idKey, processed);
    }
  }

  ghost function PendingCount(lines: seq<Line>, idKey: string, processed: set<Id>): nat {
    if lines == [] then 0
    else PendingCount(lines[..|lines| - 1], idKey, processed) +
         (if Pending(lines[|lines| - 1], idKey, processed) then 1 else 0)
  }

  // ---------------------------------------------------------------------------
  // Warnings of the filter
  // ---------------------------------------------------------------------------

  /** A warning the filter logs about an input line, with the line number
      it names. */
  datatype Warning = Undecodable(lineNumber: nat) | MissingId(lineNumber: nat)

  /** A decoded record whose id is absent or falsy. */
  predicate IdMissing(line: Line, idKey: string) {
    line.Parsed? && line.value.Obj? && !Truthy(GetOr(line.value.fields, idKey, Null))
  }

  /** The warning, if any, for `line` when the counter says `n`. */
  function WarningAt(line: Line, idKey: string, n: nat): seq<Warning> {
    if line.Malformed? then [Undecodable(n)]
    else if IdMissing(line, idKey) then [MissingId(n)]
    else []
  }

  /** `line_num` once the loop has seen `lines`, as written: it starts at 1
      and is advanced at the end of the loop body, which a record skipped
      for a missing id leaves early through `continue`. */
  function LineCounterAsWritten(lines: seq<Line>, idKey: string): nat {
    if lines == [] then 1
    else LineCounterAsWritten(lines[..|lines| - 1], idKey) + (if IdMissing(lines[|lines| - 1], idKey) then 0 else 1)
  }

  /** The warnings logged while scanning `lines`, as written: numbered by
      `line_num`, and none after the line that crashes the scan. */
  function WarningsAsWritten(lines: seq<Line>, idKey: string, processed: set<Id>): seq<Warning> {
    if lines == [] then []
    else
      var init := lines[..|lines| - 1];
      if Filter(init, idKey, processed).crash.Some? then WarningsAsWritten(init, idKey, processed)
      else WarningsAsWritten(init, idKey, processed) + WarningAt(lines[|lines| - 1], idKey, LineCounterAsWritten(init, idKey))
  }

  /** The warnings with the counter advanced on every line, so that the
      line at index `k` is reported as line `k + 1`. */
  function Warnings(lines: seq<Line>, idKey: string, processed: set<Id>): seq<Warning> {
    if lines == [] then []
    else
      var init := lines[..|lines| - 1];
      if Filter(init, idKey, processed).crash.Some? then Warnings(init, idKey, processed)
      else Warnings(init, idKey, processed) + WarningAt(lines[|lines| - 1], idKey, |lines|)
  }

  /** A record without an id followed by an undecodable line: as written,
      both warnings name line 1. */
  lemma LineNumberDrift()
    ensures WarningsAsWritten([Parsed(Obj(map[])), Malformed], "id", {}) == [MissingId(1), Undecodable(1)]
    ensures Warnings([Parsed(Obj(map[])), Malformed], "id", {}) == [MissingId(1), Undecodable(2)]
  {
    var lines := [Parsed(Obj(map[])), Malformed];
    assert lines[..1] == [Parsed(Obj(map[]))] && lines[..1][..0] == [];
    assert Filter(lines[..1], "id", {}).crash.None?;
  }

  /** Each warning names its own line: line `n` (from 1) draws the warning
      `Undecodable(n)` exactly when it does not decode, and `MissingId(n)`
      exactly when it is a record without a truthy id, provided no earlier
      line crashed the scan. */
  lemma {:induction false} WarningsNameTheirLines(lines: seq<Line>, idKey: string, processed: set<Id>)
    ensures forall n: nat :: Undecodable(n) in Warnings(lines, idKey, processed) <==>
              1 <= n <= |lines| && lines[n - 1] == Malformed &&
              Filter(lines[..n - 1], idKey, processed).crash.None?
    ensures forall n: nat :: MissingId(n) in Warnings(lines, idKey, processed) <==>
              1 <= n <= |lines| && IdMissing(lines[n - 1], idKey) &&
              Filter(lines[..n - 1], idKey, processed).crash.None?
  {
    UndecodableWarnings(lines, idKey, processed);
    MissingIdWarnings(lines, idKey, processed);
  }

  /** The `Undecodable` half of `WarningsNameTheirLines`. */
  lemma {:induction false} UndecodableWarnings(lines: seq<Line>, idKey: string, processed: set<Id>)
    ensures forall n: nat :: Undecodable(n) in Warnings(lines, idKey, processed) <==>
              1 <= n <= |lines| && lines[n - 1] == Malformed &&
              Filter(lines[..n - 1], idKey, processed).crash.None?
  {
    if lines != [] {
      var init := lines[..|lines| - 1];
      UndecodableWarnings(init, idKey, processed);
      assert lines[..|lines| - 1] == init;
      forall k | 0 <= k < |init|
        ensures lines[k] == init[k] && lines[..k] == init[..k]
      {
      }
    }
  }

  /** The `MissingId` half of `WarningsNameTheirLines`. */
  lemma {:induction false} MissingIdWarnings(lines: seq<Line>, idKey: string, processed: set<Id>)
    ensures forall n: nat :: MissingId(n) in Warnings(lines, idKey, processed) <==>
              1 <= n <= |lines| && IdMissing(lines[n - 1], idKey) &&
              Filter(lines[..n - 1], idKey, processed).crash.None?
  {
    if lines != [] {
      var init := lines[..|lines| - 1];
      MissingIdWarnings(init, idKey, processed);
      assert lines[..|lines| - 1] == init;
      forall k | 0 <= k < |init|
        ensures lines[k] == init[k] && lines[..k] == init[..k]
      {
      }
    }
  }

  /** The warnings come in line order, one per line at most, and name no
      line past the end. */
  lemma {:induction false} WarningsInLineOrder(lines: seq<Line>, idKey: string, processed: set<Id>)
    ensures forall w :: w in Warnings(lines, idKey, processed) ==> 1 <= w.lineNumber <= |lines|
    ensures forall i, j :: 0 <= i < j < |Warnings(lines, idKey, processed)| ==>
              Warnings(lines, idKey, processed)[i].lineNumber < Warnings(lines, idKey, processed)[j].lineNumber
  {
    if lines != [] {
      WarningsInLineOrder(lines[..|lines| - 1], idKey, processed);
    }
  }

  /** Once the scan has crashed, later lines add no warning. */
  lemma {:induction false} WarningsStopAtCrash(lines: seq<Line>, k: nat, idKey: string, processed: set<Id>)
    requires k <= |lines|
    requires Filter(lines[..k], idKey, processed).crash.Some?
    ensures WarningsAsWritten(lines, idKey, processed) == WarningsAsWritten(lines[..k], idKey, processed)
  {
    if k < |lines| {
      assert lines[..|lines| - 1][..k] == lines[..k];
      WarningsStopAtCrash(lines[..|lines| - 1], k, idKey, processed);
      FilterStopsAtCrash(lines[..|lines| - 1], k, idKey, processed);
    } else {
      assert lines[..k] == lines;
    }
  }

  // ---------------------------------------------------------------------------
  // Restart
  // ---------------------------------------------------------------------------

  /** Restart idempotence: when every input record with a usable id has a
      line in the previous output that marks that id as done, the loader adds
      all those ids and the filter returns no task. */
  lemma {:induction false} NothingLeftAfterRestart(output: seq<Line>, input: seq<Line>, idKey: string, rerunKey: Option<string>)
    requires forall k :: 0 <= k < |output| ==> !LoadCrashes(output[k], idKey, rerunKey)
    requires forall k :: 0 <= k < |input| ==> !FilterCrashes(input[k], idKey)
    requires forall k, id :: 0 <= k < |input| && Pending(input[k], idKey, {}) && HashKey(input[k].value.fields[idKey]) == Some(id) ==>
               exists j :: 0 <= j < |output| && MarksDone(output[j], id, idKey, rerunKey)
    ensures Load(output, idKey, rerunKey).crash.None?
    ensures Filter(input, idKey, Load(output, idKey, rerunKey).ids) == Filtered([], None)
  {
    var done := Load(output, idKey, rerunKey).ids;
    LoadedIdsExactly(output, idKey, rerunKey);
    NoPendingLeft(input, idKey, done);
  }

  lemma {:induction false} NoPendingLeft(input: seq<Line>, idKey: string, done: set<Id>)
    requires forall k :: 0 <= k < |input| ==> !FilterCrashes(input[k], idKey)
    requires forall k, id :: 0 <= k < |input| && Pending(input[k], idKey, {}) && HashKey(input[k].value.fields[idKey]) == Some(id) ==> id in done
    ensures Filter(input, idKey, done) == Filtered([], None)
  {
    if input != [] {
      var init := input[..|input| - 1];
      var last := input[|input| - 1];
      forall k, id | 0 <= k < |init| && Pending(init[k], idKey, {}) && HashKey(init[k].value.fields[idKey]) == Some(id)
        ensures id in done
      {
        assert input[k] == init[k];
      }
      NoPendingLeft(init, idKey, done);
      TaskLineMeaning(last, idKey, done);
      if Pending(last, idKey, {}) {
        assert HashKey(last.value.fields[idKey]).value in done;
      }
    }
  }
}
