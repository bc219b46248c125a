/**
 * Reading a task's output: the saved output of a completed task, split
 * into lines, fetched from S3 when it is not on disk; and the bridge that
 * follows the output file of a running task until it completes.
 */
module Emitter {
  import opened Common
  import opened Strings
  import opened MiscConsts
  import opened LauncherTask
  import opened RunShTaskModel
  import opened TaskManagerModel

  // ---- Splitting saved output into lines ----

  /** The text after the last line break: the fragment `ReadString` returns together with EOF. */
  function Rest(s: string): (r: string)
    ensures '\n' !in r
    ensures |r| <= |s|
  {
    if |s| == 0 then ""
    else if s[|s| - 1] == '\n' then ""
    else Rest(s[..|s| - 1]) + [s[|s| - 1]]
  }

  /** The complete lines of `s`, each with its line break. */
  function Lines(s: string): seq<string> {
    if |s| == 0 then []
    else if s[|s| - 1] == '\n' then Lines(s[..|s| - 1]) + [Rest(s[..|s| - 1]) + "\n"]
    else Lines(s[..|s| - 1])
  }

  function Concat(lines: seq<string>): string {
    if |lines| == 0 then "" else Concat(lines[..|lines| - 1]) + lines[|lines| - 1]
  }

  /** The lines and the dropped fragment together are the whole text. */
  lemma {:induction false} LinesAndRest(s: string)
    ensures Concat(Lines(s)) + Rest(s) == s
  {
    if |s| > 0 {
      var p := s[..|s| - 1];
      LinesAndRest(p);
      assert s == p + [s[|s| - 1]];
      if s[|s| - 1] == '\n' {
        var ls := Lines(p) + [Rest(p) + "\n"];
        assert ls[..|ls| - 1] == Lines(p);
      }
    }
  }

  /** Every line ends with its line break and holds no other. */
  lemma {:induction false} LinesShape(s: string)
    ensures forall i :: 0 <= i < |Lines(s)| ==>
      |Lines(s)[i]| > 0 && Lines(s)[i][|Lines(s)[i]| - 1] == '\n' && '\n' !in Lines(s)[i][..|Lines(s)[i]| - 1]
  {
    if |s| > 0 {
      var p := s[..|s| - 1];
      LinesShape(p);
      if s[|s| - 1] == '\n' {
        var l := Rest(p) + "\n";
        assert l[..|l| - 1] == Rest(p);
      }
    }
  }

  /** The concatenated lines are the text up to and including its last line break. */
  lemma LinesAreCompletePrefix(s: string)
    ensures HasPrefix(s, Concat(Lines(s)))
    ensures '\n' !in s[|Concat(Lines(s))|..]
  {
    LinesAndRest(s);
    var c := Concat(Lines(s));
    assert s[..|c|] == c;
    assert s[|c|..] == Rest(s);
  }

  /**
   * The loop of `getCompletedTaskOutput`: `ReadString('\n')` is called
   * until it reports EOF; each complete line is kept, the final fragment
   * returned with EOF is not.
   */
  method ReadLines(data: string) returns (lines: seq<string>)
    ensures lines == Lines(data)
  {
    lines := [];
    var cur := "";
    var i := 0;
    while i < |data|
      invariant 0 <= i <= |data|
      invariant lines == Lines(data[..i]) && cur == Rest(data[..i])
    {
      assert data[..i + 1][..i] == data[..i];
      cur := cur + [data[i]];
      if data[i] == '\n' {
        lines := lines + [cur];
        cur := "";
      }
      i := i + 1;
    }
    assert data[..i] == data;
  }

  // ---- Fetching saved output from S3 ----

  /** Where one download attempt left off: the suffixes tried in order, and the outcome. */
  datatype PullResult = PullResult(tried: seq<string>, outcome: Outcome)

  function DownloadError(sdkErr: string): string {
    "failed to download task output from S3. Error: " + sdkErr
  }

  /** `pullS3TaskOutputWithStatus`: downloads the object named by the status; `available` names the suffixes S3 holds. */
  function PullWithStatus(status: TaskStatus, available: set<string>, sdkErr: string): (r: PullResult)
    ensures r.tried == [GetStatusString(status)]
    ensures r.outcome.Pass? <==> GetStatusString(status) in available
  {
    var suffix := GetStatusString(status);
    PullResult([suffix], if suffix in available then Pass else Failure(DownloadError(sdkErr)))
  }

  /**
   * `PullS3TaskOutput`: for a task the manager knows, only its current
   * status is tried; for an unknown one, done, failed and timeout are tried
   * in that order until one download works.
   */
  function PullS3TaskOutput(taskId: int, known: Option<TaskStatus>, available: set<string>, sdkErr: string)
    : (r: PullResult)
    ensures known.Some? ==> r == PullWithStatus(known.value, available, sdkErr)
    ensures known.None? ==> (r.outcome.Pass? <==> "done" in available || "failed" in available || "timeout" in available)
    ensures known.None? ==> 1 <= |r.tried| <= 3 && r.tried == ["done", "failed", "timeout"][..|r.tried|]
    ensures known.None? ==> forall i :: 0 <= i < |r.tried| - 1 ==> r.tried[i] !in available
    ensures known.None? && r.outcome.Pass? ==> r.tried[|r.tried| - 1] in available
    ensures known.None? && r.outcome.Failure? ==>
      r.outcome.error == "failed to download task " + Itoa(taskId) + " output.  Error: " + DownloadError(sdkErr)
  {
    match known
    case Some(st) => PullWithStatus(st, available, sdkErr)
    case None =>
      var d := PullWithStatus(DONE, available, sdkErr);
      if d.outcome.Pass? then d
      else
        var f := PullWithStatus(FAILED, available, sdkErr);
        if f.outcome.Pass? then PullResult(d.tried + f.tried, Pass)
        else
          var t := PullWithStatus(TIMEOUT, available, sdkErr);
          if t.outcome.Pass? then PullResult(d.tried + f.tried + t.tried, Pass)
          else PullResult(d.tried + f.tried + t.tried,
                          Failure("failed to download task " + Itoa(taskId) + " output.  Error: " + t.outcome.error))
  }

  /** What reading a task's saved output gives: its bytes, no such file, or another error. */
  datatype ReadResult = Data(bytes: string) | Missing | ReadError(msg: string)

  function ReadFailed(taskId: int, err: string): string {
    "failed to get task " + Itoa(taskId) + " output. Error: " + err
  }

  /** The status the shared manager knows for a task, if it knows the task. */
  function KnownStatus(tm: TaskManagerImpl, taskId: int): (s: Option<TaskStatus>)
    reads tm`tasks, tm.tasks.Values`status
    ensures s.Some? <==> taskId in tm.tasks
    ensures s.Some? ==> s.value == tm.tasks[taskId].status
  {
    if taskId in tm.tasks then Some(tm.tasks[taskId].status) else None
  }

  /**
   * `getCompletedTaskOutput`: the saved output as lines. A missing file
   * is fetched from S3 and read once more (`first` and `second` are the
   * two reads); with no retry left, a second miss is an error. Any other
   * read error, and a failed fetch, are errors.
   */
  method GetCompletedTaskOutput(tm: TaskManagerImpl, taskId: int, retry: bool, first: ReadResult, second: ReadResult,
                                available: set<string>, sdkErr: string) returns (r: Result<seq<string>>)
    decreases if retry then 1 else 0
    ensures first.Data? ==> r == Ok(Lines(first.bytes))
    ensures first.ReadError? ==> r == Err(ReadFailed(taskId, first.msg))
    ensures first.Missing? && PullS3TaskOutput(taskId, KnownStatus(tm, taskId), available, sdkErr).outcome.Failure? ==>
      r == Err(ReadFailed(taskId, PullS3TaskOutput(taskId, KnownStatus(tm, taskId), available, sdkErr).outcome.error))
    ensures first.Missing? && PullS3TaskOutput(taskId, KnownStatus(tm, taskId), available, sdkErr).outcome.Pass? ==>
      if !retry || second.Missing? then r == Err("cannot retry reading task " + Itoa(taskId) + " more than once")
      else if second.Data? then r == Ok(Lines(second.bytes))
      else r == Err(ReadFailed(taskId, second.msg))
  {
    match first
    case Data(bytes) =>
      var lines := ReadLines(bytes);
      r := Ok(lines);
    case ReadError(msg) =>
      r := Err(ReadFailed(taskId, msg));
    case Missing =>
      var pull := PullS3TaskOutput(taskId, KnownStatus(tm, taskId), available, sdkErr);
      if pull.outcome.Failure? {
        r := Err(ReadFailed(taskId, pull.outcome.error));
      } else if retry {
        r := GetCompletedTaskOutput(tm, taskId, false, second, second, available, sdkErr);
      } else {
        r := Err("cannot retry reading task " + Itoa(taskId) + " more than once");
      }
  }

  /** A known task that ended DONE is fetched under its own status only, even if S3 holds other suffixes. */
  lemma KnownTaskTriesOwnStatus(taskId: int, available: set<string>, sdkErr: string)
    requires "done" !in available && "failed" in available
    ensures PullS3TaskOutput(taskId, Some(DONE), available, sdkErr).outcome.Failure?
    ensures PullS3TaskOutput(taskId, None, available, sdkErr) == PullResult(["done", "failed"], Pass)
  {
  }

  // ---- Following a running task ----

  /**
   * `GetTaskLineReader` before its bridge starts: an unknown output path
   * or an unknown task is an error; otherwise the task is subscribed to
   * and the new channel (an index into its inboxes) is the one followed.
   */
  method GetTaskLineReader(tm: TaskManagerImpl, taskId: int, taskPath: Result<string>) returns (r: Result<nat>)
    requires taskId in tm.tasks ==> tm.tasks[taskId].Valid()
    modifies if taskId in tm.tasks then {tm.tasks[taskId]} else {}
    ensures taskPath.Err? ==> r == Err(taskPath.error)
    ensures taskPath.Ok? && taskId !in tm.tasks ==> r == Err("Cannot find a task by id: " + Itoa(taskId))
    ensures taskPath.Ok? && taskId in tm.tasks ==>
      var t := tm.tasks[taskId];
      t.Valid() && r == Ok(|old(t.inboxes)|) && t.inboxes == old(t.inboxes) + [[t.status]] &&
      t.subscribers == (if IsCompletedStatus(t.status) then old(t.subscribers) else old(t.subscribers) + [r.value])
  {
    if taskPath.Err? {
      return Err(taskPath.error);
    }
    var task := tm.Get(taskId);
    if task == null {
      return Err("Cannot find a task by id: " + Itoa(taskId));
    }
    var c := task.Subscribe();
    r := Ok(c);
  }

  /** How far the bridge reads: through the first completed status, or all of a closed channel. */
  function Consumed(events: seq<TaskStatus>): (n: nat)
    ensures n <= |events|
    ensures forall i :: 0 <= i < n - 1 ==> !IsCompletedStatus(events[i])
    ensures n < |events| ==> n > 0 && IsCompletedStatus(events[n - 1])
  {
    if |events| == 0 then 0
    else if IsCompletedStatus(events[0]) then 1
    else 1 + Consumed(events[1..])
  }

  /** The positions among the first `n` events at which a follower is started. */
  function Started(events: seq<TaskStatus>, n: nat, ok: bool): (s: seq<nat>)
    requires n <= |events|
  {
    if n == 0 then []
    else Started(events, n - 1, ok) + (if ok && events[n - 1] == STARTED then [n - 1] else [])
  }

  /** The followers started are exactly the STARTED events read, when creating one works, and none otherwise. */
  lemma {:induction false} StartedPositions(events: seq<TaskStatus>, n: nat, ok: bool)
    requires n <= |events|
    ensures forall i :: 0 <= i < |Started(events, n, ok)| ==>
      Started(events, n, ok)[i] < n && events[Started(events, n, ok)[i]] == STARTED
    ensures ok ==> forall i :: 0 <= i < n && events[i] == STARTED ==> i in Started(events, n, ok)
    ensures !ok ==> Started(events, n, ok) == []
  {
    if n > 0 {
      StartedPositions(events, n - 1, ok);
    }
  }

  /** The bridge ended on a completed status rather than on a closed channel. */
  predicate EndsCompleted(events: seq<TaskStatus>) {
    Consumed(events) > 0 && IsCompletedStatus(events[Consumed(events) - 1])
  }

  /**
   * The bridge as written: the follower made on STARTED is declared with
   * `:=` inside the case, so the variable checked on completion is never
   * set and no follower is ever stopped. Followers are named by the
   * position of their STARTED event; `ok` is whether creating one works.
   */
  method BridgeAsWritten(events: seq<TaskStatus>, ok: bool) returns (started: seq<nat>, stopped: seq<nat>)
    ensures started == Started(events, Consumed(events), ok)
    ensures stopped == []
  {
    var follower: Option<nat> := None;
    started := [];
    stopped := [];
    var i := 0;
    var n := Consumed(events);
    while i < n
      invariant 0 <= i <= n
      invariant started == Started(events, i, ok)
      invariant follower.None? && stopped == []
    {
      var status := events[i];
      if status == STARTED {
        var inner: Option<nat> := None;
        if ok {
          inner := Some(i);
          started := started + [i];
        }
      } else if IsCompletedStatus(status) {
        if follower.Some? {
          stopped := stopped + [follower.value];
        }
      }
      i := i + 1;
    }
  }

  /** The evidently intended bridge: the follower made on STARTED is the one stopped on completion. */
  method Bridge(events: seq<TaskStatus>, ok: bool) returns (started: seq<nat>, stopped: seq<nat>)
    ensures started == Started(events, Consumed(events), ok)
    ensures stopped == if EndsCompleted(events) && |started| > 0 then [started[|started| - 1]] else []
  {
    var follower: Option<nat> := None;
    started := [];
    stopped := [];
    var i := 0;
    var n := Consumed(events);
    while i < n
      invariant 0 <= i <= n
      invariant started == Started(events, i, ok)
      invariant follower == if |started| > 0 then Some(started[|started| - 1]) else None
      invariant stopped == if i == n && EndsCompleted(events) && |started| > 0 then [started[|started| - 1]] else []
    {
      var status := events[i];
      assert Started(events, i + 1, ok) == Started(events, i, ok) + (if ok && status == STARTED then [i] else []);
      if status == STARTED {
        if ok {
          follower := Some(i);
          started := started + [i];
        }
        assert !IsCompletedStatus(status);
        assert i + 1 == n ==> !EndsCompleted(events);
      } else if IsCompletedStatus(status) {
        assert i == n - 1 && EndsCompleted(events);
        if follower.Some? {
          stopped := stopped + [follower.value];
        }
      } else {
        assert i + 1 == n ==> !EndsCompleted(events);
      }
      i := i + 1;
    }
  }

  /** A task that starts and then ends: as written its follower is started and never stopped. */
  lemma StartedThenDone()
    ensures Consumed([STARTED, DONE]) == 2 && EndsCompleted([STARTED, DONE])
    ensures Started([STARTED, DONE], 2, true) == [0]
  {
    assert [STARTED, DONE][1..] == [DONE];
    assert STARTED != DONE;
    assert Started([STARTED, DONE], 1, true) == [0];
  }
}
