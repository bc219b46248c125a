/**
 * The task manager in use: like the in-memory one, but it reads the
 * persisted sequence again before every id so that several processes
 * share one counter, it remembers which command hash created which task,
 * and a second launch of a scheduled task is accepted as a duplicate
 * webhook.
 */
module WtfTaskManagerModel {
  import opened Common
  import opened Strings
  import opened MiscConsts
  import opened LauncherTask
  import opened RunShTaskModel
  import opened TaskManagerModel
  import Runner
  import GH = GitHubManager

  /** The error `AddWebhookLocks` gives for a task without origins. */
  function NoLocksError(taskId: int): string {
    "cannot get git managers for task " + Itoa(taskId) + " " + NoRemotesError(taskId)
  }

  /** The task `AddRunSh` creates, holding the variables the context stores through a pointer. */
  method NewTask(repoDir: string, command: string, args: seq<string>, ctx: ContextValue,
                 stateLock: string, gitOrigins: seq<string>) returns (t: RunShTask)
    ensures fresh(t) && t.repoDir == repoDir && t.command == command && t.args == args
    ensures t.status == OPEN && t.stateLock == stateLock && t.gitOrigins == gitOrigins && t.context == ctx
    ensures t.extraEnv == if ctx.MapPointer? then ctx.vars else map[]
  {
    t := new RunShTask(repoDir, command, args, ctx, stateLock, gitOrigins);
    if ctx.MapPointer? {
      t.extraEnv := ctx.vars;
    }
  }

  class WtfTaskManagerImpl {
    var sequence: int
    const store: SequenceStore
    const repoDir: string
    /** One FIFO queue of launched tasks per sync name. */
    var threads: map<string, seq<RunShTask>>
    /** Cancel functions by task id; `None` is a nil entry. */
    var cancel: map<int, Option<CancelToken>>
    var tasks: map<int, RunShTask>
    /** The id of the task each command hash created. */
    var taskHashes: map<string, int>
    var stopped: bool
    /** Every cancel function called, in order. */
    var cancelled: seq<CancelToken>

    /** `NewWtfTaskManager`: the counter starts from the persisted sequence. */
    constructor (store: SequenceStore, repoDir: string)
      ensures this.store == store && this.repoDir == repoDir
      ensures sequence == ReadSequence(store.text)
      ensures threads == map[] && cancel == map[] && tasks == map[] && taskHashes == map[]
      ensures !stopped && cancelled == []
    {
      this.store := store;
      this.repoDir := repoDir;
      sequence := ReadSequence(store.text);
      threads := map[];
      cancel := map[];
      tasks := map[];
      taskHashes := map[];
      stopped := false;
      cancelled := [];
    }

    function Queue(key: string): seq<RunShTask>
      reads this`threads
    {
      if key in threads then threads[key] else []
    }

    /** `Get`: the registered task, or nil. */
    function Get(id: int): (t: RunShTask?)
      reads this`tasks
      ensures t != null <==> id in tasks
      ensures t != null ==> t == tasks[id]
    {
      if id in tasks then tasks[id] else null
    }

    /**
     * `Add`: a nil task is refused. Otherwise the persisted sequence is
     * read again and moved on; the new value is the task's id, is
     * persisted, and reads back as that id, so the next `Add` gets the
     * next id.
     */
    method Add(t: RunShTask?) returns (r: Outcome)
      modifies this`sequence, this`tasks, store`text, (if t == null then {} else {t})`id
      ensures t == null ==> r == Failure("cannot add nil task") && sequence == old(sequence) &&
                            tasks == old(tasks) && store.text == old(store.text)
      ensures t != null ==> r.Pass? && sequence == IncInt(ReadSequence(old(store.text))) && t.id == sequence &&
                            tasks == old(tasks)[sequence := t]
      ensures t != null ==> store.text == WriteSequence(t.id) && ReadSequence(store.text) == t.id
    {
      if t == null {
        return Failure("cannot add nil task");
      }
      sequence := ReadSequence(store.text);
      sequence := IncInt(sequence);
      t.SetId(sequence);
      store.Write(sequence);
      ReadAfterWrite(sequence);
      tasks := tasks[t.id := t];
      r := Pass;
    }

    /**
     * `AddRunSh`: an invalid command is refused. Otherwise a new OPEN task
     * locked on "env/layer" with the command's git origins is added, takes
     * the variables the context holds through a pointer, and is recorded
     * under the command's hash. `locks` is how registering its webhook
     * locks ends; that error is returned with the task.
     */
    method AddRunSh(rcs: Runner.RunShCmd, ctx: ContextValue, locks: Outcome) returns (t: RunShTask?, r: Outcome)
      modifies this`sequence, this`tasks, this`taskHashes, store`text
      ensures rcs.env == "" <==> t == null
      ensures t == null ==> r.Failure? && sequence == old(sequence) && tasks == old(tasks) &&
                            taskHashes == old(taskHashes) && store.text == old(store.text)
      ensures t != null ==> fresh(t) && t.status == OPEN && t.command == Runner.RUNSH &&
                            t.args == Runner.Flags(rcs) + [Runner.Target(rcs)] &&
                            t.stateLock == rcs.env + "/" + rcs.layer && t.gitOrigins == rcs.gitOrigins &&
                            t.context == ctx && t.extraEnv == (if ctx.MapPointer? then ctx.vars else map[])
      ensures t != null ==> t.id == IncInt(ReadSequence(old(store.text))) && tasks == old(tasks)[t.id := t] &&
                            taskHashes == old(taskHashes)[rcs.hash := t.id]
      ensures t != null && |rcs.gitOrigins| == 0 ==> r == Failure(NoLocksError(t.id))
      ensures t != null && |rcs.gitOrigins| > 0 ==> r == locks
    {
      var ca := Runner.CommandArgs(rcs);
      if ca.Err? {
        return null, Failure(ca.error);
      }
      var task := NewTask(repoDir, ca.value.0, ca.value.1, ctx, rcs.env + "/" + rcs.layer, rcs.gitOrigins);
      var _ := Add(task);
      taskHashes := taskHashes[rcs.hash := task.id];
      if |task.gitOrigins| == 0 {
        r := Failure(NoLocksError(task.id));
      } else {
        r := locks;
      }
      t := task;
    }

    /** `GetId`: the task a command hash created, or an error. */
    method GetId(hash: string) returns (r: Result<int>)
      ensures r.Ok? <==> hash in taskHashes
      ensures r.Ok? ==> r.value == taskHashes[hash]
      ensures r.Err? ==> r.error == "No task were registered with hash " + hash
    {
      if hash in taskHashes {
        return Ok(taskHashes[hash]);
      }
      r := Err("No task were registered with hash " + hash);
    }

    /** `LaunchById`: an unknown id is an error; a known task is launched. */
    method LaunchById(id: int) returns (r: Outcome)
      modifies this`threads, if id in tasks then {tasks[id]} else {}
      ensures id !in tasks ==> r == Failure("there is no task with id " + Itoa(id)) && threads == old(threads)
      ensures id in tasks ==> (r.Pass? <==> old(tasks[id].status) == OPEN || old(tasks[id].status) == SCHEDULED)
      ensures id in tasks && old(tasks[id].status) == OPEN ==>
        tasks[id].status == SCHEDULED &&
        threads == old(threads)[tasks[id].SyncName() := old(Queue(tasks[id].SyncName())) + [tasks[id]]]
      ensures id in tasks && old(tasks[id].status) != OPEN ==>
        threads == old(threads) && tasks[id].status == old(tasks[id].status)
    {
      var t := Get(id);
      if t == null {
        return Failure("there is no task with id " + Itoa(id));
      }
      r := Launch(t);
    }

    /** `RegisterCancel`: only a registered task gets a cancel function. */
    method RegisterCancel(id: int, c: CancelToken) returns (r: Outcome)
      modifies this`cancel
      ensures r.Pass? <==> id in tasks
      ensures r.Pass? ==> cancel == old(cancel)[id := Some(c)]
      ensures r.Failure? ==> r.error == "there is no task with id " + Itoa(id) && cancel == old(cancel)
    {
      if Get(id) == null {
        return Failure("there is no task with id " + Itoa(id));
      }
      cancel := cancel[id := Some(c)];
      r := Pass;
    }

    /** `Cancel`: calls the stored cancel function; a missing or nil one is an error. No task changes. */
    method Cancel(id: int) returns (r: Outcome)
      modifies this`cancelled
      ensures r.Pass? <==> id in cancel && cancel[id].Some?
      ensures r.Pass? ==> cancelled == old(cancelled) + [cancel[id].value]
      ensures r.Failure? ==> r.error == "task id: " + Itoa(id) + " has no registered cancel function" &&
                             cancelled == old(cancelled)
    {
      var c := if id in cancel then cancel[id] else None;
      if c.None? {
        return Failure("task id: " + Itoa(id) + " has no registered cancel function");
      }
      cancelled := cancelled + [c.value];
      r := Pass;
    }

    /**
     * `Launch`: an OPEN task becomes SCHEDULED at the tail of its queue;
     * an already SCHEDULED one is accepted without change (two webhooks
     * for one task); any other status is an error.
     */
    method Launch(bt: RunShTask) returns (r: Outcome)
      modifies this`threads, bt`status
      ensures r.Pass? <==> old(bt.status) == OPEN || old(bt.status) == SCHEDULED
      ensures r.Failure? ==> r.error == "cannot launch task in not scheduled status"
      ensures old(bt.status) != OPEN ==> threads == old(threads) && bt.status == old(bt.status)
      ensures old(bt.status) == OPEN ==> bt.status == SCHEDULED &&
                                         threads == old(threads)[bt.SyncName() := old(Queue(bt.SyncName())) + [bt]]
    {
      if bt.status != OPEN {
        if bt.status == SCHEDULED {
          return Pass;
        }
        return Failure("cannot launch task in not scheduled status");
      }
      var key := bt.SyncName();
      if key !in threads {
        threads := threads[key := []];
      }
      bt.SetStatus(SCHEDULED);
      threads := threads[key := threads[key] + [bt]];
      r := Pass;
    }

    /**
     * `Close`: closes the stop channel, then calls every cancel function
     * in map order and nils its entry. An entry a worker has already
     * nilled would be called as nil, and the channel can be closed only
     * once, so both are excluded.
     */
    method Close(order: seq<int>)
      requires Enumerates(order, cancel.Keys) && !stopped
      requires forall id :: id in cancel ==> cancel[id].Some?
      modifies this`stopped, this`cancel, this`cancelled
      ensures stopped
      ensures cancel.Keys == old(cancel.Keys) && forall id :: id in cancel ==> cancel[id].None?
      ensures |cancelled| == |old(cancelled)| + |order|
      ensures cancelled[..|old(cancelled)|] == old(cancelled)
      ensures forall i :: 0 <= i < |order| ==>
        order[i] in old(cancel) && old(cancel)[order[i]] == Some(cancelled[|old(cancelled)| + i])
    {
      stopped := true;
      var i := 0;
      while i < |order|
        invariant 0 <= i <= |order| && stopped
        invariant cancel.Keys == old(cancel.Keys)
        invariant forall j :: i <= j < |order| ==> order[j] in cancel && cancel[order[j]] == old(cancel)[order[j]]
        invariant forall j :: 0 <= j < i ==> order[j] in cancel && cancel[order[j]].None?
        invariant |cancelled| == |old(cancelled)| + i
        invariant cancelled[..|old(cancelled)|] == old(cancelled)
        invariant forall j :: 0 <= j < i ==>
          order[j] in old(cancel) && old(cancel)[order[j]] == Some(cancelled[|old(cancelled)| + j])
      {
        var id := order[i];
        EnumeratedKey(order, cancel.Keys, i);
        cancelled := cancelled + [cancel[id].value];
        cancel := cancel[id := None];
        i := i + 1;
      }
      forall id | id in cancel ensures cancel[id].None? {
        var j := EnumeratedPosition(order, cancel.Keys, id);
      }
    }

    /**
     * One step of `runTasks`: take the oldest task of a queue, run it (its
     * error is only logged) and nil its cancel entry, which is created if
     * it was not there. The remaining parameters are what `Run` needs.
     */
    method WorkerStep(key: string, ambient: seq<string>, gh: GH.Registry,
                      order: seq<string>, pathOrder: seq<string>, reportOrder: seq<string>,
                      parse: string -> Option<string>, gitPrep: Outcome, runsh: set<string>, wtf: set<string>,
                      envOrder: seq<string>, debug: bool, cmdErr: Option<string>, cmdOut: string)
      returns (t: RunShTask)
      requires key in threads && |threads[key]| > 0
      requires threads[key][0].Valid() && gh.Valid() && Enumerates(order, threads[key][0].OriginSet())
      requires Enumerates(pathOrder, threads[key][0].OriginSet()) && Enumerates(reportOrder, threads[key][0].OriginSet())
      requires ContextVars(threads[key][0].context).Some? ==>
        Enumerates(envOrder, ContextVars(threads[key][0].context).value.Keys)
      requires forall k :: k in gh.managers ==> !gh.managers[k].closed
      modifies this`threads, this`cancel, threads[key][0]
      modifies gh`managers, gh.managers.Values`started, gh.managers.Values`consumers, gh.managers.Values`pending
      ensures t == old(threads[key][0])
      ensures threads == old(threads)[key := old(threads[key][1..])]
      ensures cancel == old(cancel)[t.id := None]
      ensures old(t.status) != SCHEDULED ==> t.status == old(t.status)
      ensures (old(t.status) == SCHEDULED && |t.gitOrigins| > 0 && gitPrep.Pass? &&
               FirstGitManager(t.id, order, runsh, wtf).Ok?) ==> t.status == FinalStatus(cmdErr)
    {
      t := threads[key][0];
      threads := threads[key := threads[key][1..]];
      var _ := t.Run(ambient, gh, order, pathOrder, reportOrder, parse, gitPrep, runsh, wtf, envOrder, debug, cmdErr, cmdOut);
      cancel := cancel[t.id := None];
    }
  }
}
