/**
 * The task manager that keeps its id counter in memory: the persisted
 * sequence file, the task registry, one queue per sync name, the cancel
 * registry, and the process-wide shared instance.
 */
module TaskManagerModel {
  import opened Common
  import opened Strings
  import opened MiscConsts
  import opened LauncherTask
  import opened RunShTaskModel
  import Runner
  import GH = GitHubManager

  /** A context's cancel function, named by a token; calling it is recorded by the manager. */
  type CancelToken = nat

  /**
   * `readSequence`: the number stored in the sequence file; a missing or
   * unreadable file (`None`) and text that is not an integer both give 0.
   */
  function ReadSequence(text: Option<string>): (n: int)
    ensures MinInt <= n <= MaxInt
    ensures text.None? ==> n == 0
    ensures text.Some? && Atoi(text.value).None? ==> n == 0
  {
    match text
    case None => 0
    case Some(t) => match Atoi(t) case Some(v) => v case None => 0
  }

  /**
   * `writeSequence` as written: the file is opened for writing without
   * truncation, so the number overwrites only the beginning of the old text.
   */
  function WriteSequenceAsWritten(text: Option<string>, i: int): (r: Option<string>)
    ensures r.Some? && HasPrefix(r.value, Itoa(i))
    ensures text.Some? ==> |r.value| == if |text.value| > |Itoa(i)| then |text.value| else |Itoa(i)|
  {
    var data := Itoa(i);
    match text
    case None => Some(data)
    case Some(t) => if |t| > |data| then Some(data + t[|data|..]) else Some(data)
  }

  /** The file `writeSequence` evidently means to leave: exactly the number's text. */
  function WriteSequence(i: int): (r: Option<string>)
    ensures forall text: Option<string> :: text.None? || |text.value| <= |Itoa(i)| ==> r == WriteSequenceAsWritten(text, i)
  {
    Some(Itoa(i))
  }

  /** A value written and read back is the same value. */
  lemma ReadAfterWrite(i: int)
    requires MinInt <= i <= MaxInt
    ensures ReadSequence(WriteSequence(i)) == i
  {
    AtoiItoa(i);
  }

  /** The persisted sequence file, shared by every manager of the process. */
  class SequenceStore {
    /** The file's text; `None` when it is missing or cannot be read. */
    var text: Option<string>

    constructor (text: Option<string>)
      ensures this.text == text
    {
      this.text := text;
    }

    method Write(i: int)
      modifies this`text
      ensures text == WriteSequence(i)
    {
      text := WriteSequence(i);
    }
  }

  class TaskManagerImpl {
    var sequence: int
    const store: SequenceStore
    /** The directory checkouts live under, handed to every task created here. */
    const repoDir: string
    /** One FIFO queue of launched tasks per sync name. */
    var threads: map<string, seq<RunShTask>>
    /** Cancel functions by task id; `None` is a nil entry. */
    var cancel: map<int, Option<CancelToken>>
    var tasks: map<int, RunShTask>
    /** Whether the stop channel has been closed. */
    var stopped: bool
    /** Every cancel function called, in order. */
    var cancelled: seq<CancelToken>

    /** `NewTaskManager`: the counter starts from the persisted sequence. */
    constructor (store: SequenceStore, repoDir: string)
      ensures this.store == store && this.repoDir == repoDir
      ensures sequence == ReadSequence(store.text)
      ensures threads == map[] && cancel == map[] && tasks == map[] && !stopped && cancelled == []
    {
      this.store := store;
      this.repoDir := repoDir;
      sequence := ReadSequence(store.text);
      threads := map[];
      cancel := map[];
      tasks := map[];
      stopped := false;
      cancelled := [];
    }

    function Queue(key: string): seq<RunShTask>
      reads this`threads
    {
      if key in threads then threads[key] else []
    }

    /** `Get`: the registered task, or nil. */
    function Get(id: int): (t: RunShTask?)
      reads this`tasks
      ensures t != null <==> id in tasks
      ensures t != null ==> t == tasks[id]
    {
      if id in tasks then tasks[id] else null
    }

    /**
     * `Add`: a nil task is refused. Otherwise the in-memory counter moves
     * on (the file is not read again), becomes the task's id, is persisted,
     * and the task is registered under it.
     */
    method Add(t: RunShTask?) returns (r: Outcome)
      modifies this`sequence, this`tasks, store`text, (if t == null then {} else {t})`id
      ensures t == null ==> r == Failure("cannot add nil task") && sequence == old(sequence) &&
                            tasks == old(tasks) && store.text == old(store.text)
      ensures t != null ==> r.Pass? && sequence == IncInt(old(sequence)) && t.id == sequence &&
                            store.text == WriteSequence(sequence) && tasks == old(tasks)[sequence := t]
    {
      if t == null {
        return Failure("cannot add nil task");
      }
      sequence := IncInt(sequence);
      t.SetId(sequence);
      store.Write(sequence);
      tasks := tasks[t.id := t];
      r := Pass;
    }

    /**
     * `AddRunSh`: an invalid command is refused; otherwise a new OPEN
     * task locked on "env/layer", without git origins, is added.
     */
    method AddRunSh(rcs: Runner.RunShCmd, ctx: ContextValue) returns (t: RunShTask?, r: Outcome)
      modifies this`sequence, this`tasks, store`text
      ensures rcs.env == "" <==> t == null
      ensures t == null ==> r.Failure? && sequence == old(sequence) && tasks == old(tasks)
      ensures t != null ==> r.Pass? && fresh(t) && t.status == OPEN && t.command == Runner.RUNSH &&
                            t.args == Runner.Flags(rcs) + [Runner.Target(rcs)] &&
                            t.stateLock == rcs.env + "/" + rcs.layer && t.gitOrigins == [] && t.context == ctx
      ensures t != null ==> sequence == IncInt(old(sequence)) && t.id == sequence && tasks == old(tasks)[sequence := t]
    {
      var ca := Runner.CommandArgs(rcs);
      if ca.Err? {
        return null, Failure(ca.error);
      }
      t := new RunShTask(repoDir, ca.value.0, ca.value.1, ctx, rcs.env + "/" + rcs.layer, []);
      r := Add(t);
    }

    /** `LaunchById`: an unknown id is an error; a known task is launched. */
    method LaunchById(id: int) returns (r: Outcome)
      modifies this`threads, (if id in tasks then {tasks[id]} else {})`status
      ensures id !in tasks ==> r == Failure("there is no task with id " + Itoa(id)) && threads == old(threads)
      ensures id in tasks ==> (r.Pass? <==> old(tasks[id].status) == OPEN)
      ensures id in tasks && r.Failure? ==> r.error == "cannot launch task in not open status"
      ensures id in tasks && r.Pass? ==>
        tasks[id].status == SCHEDULED &&
        threads == old(threads)[tasks[id].SyncName() := old(Queue(tasks[id].SyncName())) + [tasks[id]]]
      ensures id in tasks && r.Failure? ==> threads == old(threads) && tasks[id].status == old(tasks[id].status)
    {
      var t := Get(id);
      if t == null {
        return Failure("there is no task with id " + Itoa(id));
      }
      r := Launch(t);
    }

    /** `RegisterCancel`: only a registered task gets a cancel function. */
    method RegisterCancel(id: int, c: CancelToken) returns (r: Outcome)
      modifies this`cancel
      ensures r.Pass? <==> id in tasks
      ensures r.Pass? ==> cancel == old(cancel)[id := Some(c)]
      ensures r.Failure? ==> cancel == old(cancel)
    {
      if Get(id) == null {
        return Failure("there is no task with id " + Itoa(id));
      }
      cancel := cancel[id := Some(c)];
      r := Pass;
    }

    /** `Cancel`: calls the stored cancel function; a missing or nil one is an error. */
    method Cancel(id: int) returns (r: Outcome)
      modifies this`cancelled
      ensures r.Pass? <==> id in cancel && cancel[id].Some?
      ensures r.Pass? ==> cancelled == old(cancelled) + [cancel[id].value]
      ensures r.Failure? ==> r.error == "task id: $d has no registered cancel function" && cancelled == old(cancelled)
    {
      var c := if id in cancel then cancel[id] else None;
      if c.None? {
        return Failure("task id: $d has no registered cancel function");
      }
      cancelled := cancelled + [c.value];
      r := Pass;
    }

    /** `Launch`: only an OPEN task is launched; it becomes SCHEDULED at the tail of its queue. */
    method Launch(bt: RunShTask) returns (r: Outcome)
      modifies this`threads, bt`status
      ensures r.Pass? <==> old(bt.status) == OPEN
      ensures r.Failure? ==> r.error == "cannot launch task in not open status" &&
                             threads == old(threads) && bt.status == old(bt.status)
      ensures r.Pass? ==> bt.status == SCHEDULED &&
                          threads == old(threads)[bt.SyncName() := old(Queue(bt.SyncName())) + [bt]]
    {
      if bt.status != OPEN {
        return Failure("cannot launch task in not open status");
      }
      var key := bt.SyncName();
      if key !in threads {
        threads := threads[key := []];
      }
      bt.SetStatus(SCHEDULED);
      threads := threads[key := threads[key] + [bt]];
      r := Pass;
    }

    /**
     * `Close`: closes the stop channel, then calls every cancel function
     * in map order and nils its entry. A nil entry would be called as nil,
     * and the channel can be closed only once, so both are excluded.
     */
    method Close(order: seq<int>)
      requires Enumerates(order, cancel.Keys) && !stopped
      requires forall id :: id in cancel ==> cancel[id].Some?
      modifies this`stopped, this`cancel, this`cancelled
      ensures stopped
      ensures cancel.Keys == old(cancel.Keys) && forall id :: id in cancel ==> cancel[id].None?
      ensures |cancelled| == |old(cancelled)| + |order|
      ensures cancelled[..|old(cancelled)|] == old(cancelled)
      ensures forall i :: 0 <= i < |order| ==>
        order[i] in old(cancel) && old(cancel)[order[i]] == Some(cancelled[|old(cancelled)| + i])
    {
      stopped := true;
      var i := 0;
      while i < |order|
        invariant 0 <= i <= |order| && stopped
        invariant cancel.Keys == old(cancel.Keys)
        invariant forall j :: i <= j < |order| ==> order[j] in cancel && cancel[order[j]] == old(cancel)[order[j]]
        invariant forall j :: 0 <= j < i ==> order[j] in cancel && cancel[order[j]].None?
        invariant |cancelled| == |old(cancelled)| + i
        invariant cancelled[..|old(cancelled)|] == old(cancelled)
        invariant forall j :: 0 <= j < i ==>
          order[j] in old(cancel) && old(cancel)[order[j]] == Some(cancelled[|old(cancelled)| + j])
      {
        var id := order[i];
        EnumeratedKey(order, cancel.Keys, i);
        cancelled := cancelled + [cancel[id].value];
        cancel := cancel[id := None];
        i := i + 1;
      }
      forall id | id in cancel ensures cancel[id].None? {
        var j := EnumeratedPosition(order, cancel.Keys, id);
      }
    }

    /**
     * One step of a queue's worker: take the oldest task, run it (its
     * error is only logged) and nil its cancel entry, which is created if
     * it was not there. The remaining parameters are what `Run` needs.
     */
    method WorkerStep(key: string, ambient: seq<string>, gh: GH.Registry,
                      order: seq<string>, pathOrder: seq<string>, reportOrder: seq<string>,
                      parse: string -> Option<string>, gitPrep: Outcome, runsh: set<string>, wtf: set<string>,
                      envOrder: seq<string>, debug: bool, cmdErr: Option<string>, cmdOut: string)
      returns (t: RunShTask)
      requires key in threads && |threads[key]| > 0
      requires threads[key][0].Valid() && gh.Valid() && Enumerates(order, threads[key][0].OriginSet())
      requires Enumerates(pathOrder, threads[key][0].OriginSet()) && Enumerates(reportOrder, threads[key][0].OriginSet())
      requires ContextVars(threads[key][0].context).Some? ==>
        Enumerates(envOrder, ContextVars(threads[key][0].context).value.Keys)
      requires forall k :: k in gh.managers ==> !gh.managers[k].closed
      modifies this`threads, this`cancel, threads[key][0]
      modifies gh`managers, gh.managers.Values`started, gh.managers.Values`consumers, gh.managers.Values`pending
      ensures t == old(threads[key][0])
      ensures threads == old(threads)[key := old(threads[key][1..])]
      ensures cancel == old(cancel)[t.id := None]
      ensures old(t.status) != SCHEDULED ==> t.status == old(t.status)
      ensures (old(t.status) == SCHEDULED && |t.gitOrigins| > 0 && gitPrep.Pass? &&
               FirstGitManager(t.id, order, runsh, wtf).Ok?) ==> t.status == FinalStatus(cmdErr)
    {
      t := threads[key][0];
      threads := threads[key := threads[key][1..]];
      var _ := t.Run(ambient, gh, order, pathOrder, reportOrder, parse, gitPrep, runsh, wtf, envOrder, debug, cmdErr, cmdOut);
      cancel := cancel[t.id := None];
    }
  }

  /** The process-wide variable that holds the shared task manager. */
  class Shared {
    var tm: TaskManagerImpl?

    constructor ()
      ensures tm == null
    {
      tm := null;
    }

    /** `GetTaskManager`: the first call creates the manager; every call returns that same one. */
    method GetTaskManager(store: SequenceStore, repoDir: string) returns (r: TaskManagerImpl)
      modifies this`tm
      ensures tm == r
      ensures old(tm) != null ==> r == old(tm)
      ensures old(tm) == null ==> fresh(r) && r.sequence == ReadSequence(store.text) && r.tasks == map[]
    {
      if tm == null {
        tm := new TaskManagerImpl(store, repoDir);
      }
      r := tm;
    }
  }

  /**
   * As written, an earlier text longer than the number survives behind it:
   * over "abc" the manager that re-reads the file before each id gets
   * id 1 twice, since "1bc" reads back as 0.
   */
  lemma UntruncatedWriteRepeatsIds()
    ensures IncInt(ReadSequence(Some("abc"))) == 1
    ensures WriteSequenceAsWritten(Some("abc"), 1) == Some("1bc")
    ensures IncInt(ReadSequence(WriteSequenceAsWritten(Some("abc"), 1))) == 1
  {
    assert "abc"[0] == 'a' && !IsDigit('a');
    assert !AllDigits("abc");
    assert Itoa(1) == "1";
    assert "1" + "abc"[1..] == "1bc";
    assert "1bc"[1] == 'b' && !IsDigit('b');
    assert "1bc"[0] != '-' && "1bc"[0] != '+';
    assert !AllDigits("1bc");
  }

  /** With the truncating write, re-reading the file before each id gives strictly increasing ids. */
  lemma TruncatedWriteIncreasesIds(text: Option<string>)
    requires ReadSequence(text) < MaxInt - 1
    ensures IncInt(ReadSequence(WriteSequence(IncInt(ReadSequence(text))))) == IncInt(ReadSequence(text)) + 1
  {
    ReadAfterWrite(IncInt(ReadSequence(text)));
  }
}
