/**
 * The second-generation task manager: background tasks that take their
 * working directory and environment from the context, a counter for ids,
 * one queue per command and a registry of cancel functions. It shares the
 * runner's status enumeration.
 */
module Background {
  import opened Common
  import opened Strings
  import opened Runner

  class BackgroundTask {
    var name: string
    var id: int
    var command: string
    var args: seq<string>
    /** The WD value of the task's context, if any. */
    var contextWd: Option<string>
    /** The ENVVARS value of the task's context, if any. */
    var contextEnv: Option<map<string, string>>
    var status: RunnerStatus
    /** The process the last `Run` started. */
    var launched: Option<Invocation>

    constructor (id: int, command: string, args: seq<string>,
                 contextWd: Option<string>, contextEnv: Option<map<string, string>>)
      ensures this.id == id && this.command == command && this.args == args
      ensures this.contextWd == contextWd && this.contextEnv == contextEnv
      ensures name == "" && status == OPEN && launched.None?
    {
      this.name := "";
      this.id := id;
      this.command := command;
      this.args := args;
      this.contextWd := contextWd;
      this.contextEnv := contextEnv;
      this.status := OPEN;
      this.launched := None;
    }

    /** Background tasks queue by their command. */
    function SyncName(): (key: string)
      reads this`command
      ensures key == command
    {
      command
    }

    /**
     * Runs a scheduled task: the directory is the context's, or else the
     * server's (`getwd`); the environment is exactly the context's
     * variables when it has them, or else the server's (`ambient`). Any
     * error of the command fails the task; there is no timeout status here.
     */
    method Run(ambient: seq<string>, getwd: Result<string>, envOrder: seq<string>, cmdErr: Option<string>)
      returns (err: Option<string>)
      requires contextEnv.Some? ==> Enumerates(envOrder, contextEnv.value.Keys)
      modifies this`status, this`launched
      ensures old(status) != SCHEDULED ==>
        err == Some("cannot run unscheduled task") && status == old(status) && launched == old(launched)
      ensures old(status) == SCHEDULED && contextWd.None? && getwd.Err? ==>
        err == Some(getwd.error) && status == old(status) && launched == old(launched)
      ensures old(status) == SCHEDULED && (contextWd.Some? || getwd.Ok?) ==>
        err == cmdErr && status == (if cmdErr.Some? then FAILED else DONE) &&
        launched.Some? && launched.value.command == command && launched.value.args == args &&
        launched.value.dir == (if contextWd.Some? then contextWd.value else getwd.value)
      ensures old(status) == SCHEDULED && (contextWd.Some? || getwd.Ok?) && contextEnv.None? ==>
        launched.value.env == ambient
      ensures old(status) == SCHEDULED && (contextWd.Some? || getwd.Ok?) && contextEnv.Some? ==>
        |launched.value.env| == |envOrder| &&
        (forall i :: 0 <= i < |envOrder| ==>
           launched.value.env[i] == envOrder[i] + "=" + contextEnv.value[envOrder[i]])
    {
      if status != SCHEDULED {
        return Some("cannot run unscheduled task");
      }
      var cwd: string;
      if contextWd.Some? {
        cwd := contextWd.value;
      } else {
        if getwd.Err? {
          return Some(getwd.error);
        }
        cwd := getwd.value;
      }
      var sysenv: seq<string>;
      if contextEnv.Some? {
        sysenv := EnvFromContext(contextEnv.value, envOrder);
      } else {
        sysenv := ambient;
      }
      launched := Some(Invocation(command, args, cwd, sysenv));
      status := STARTED;
      if cmdErr.Some? {
        status := FAILED;
      } else {
        status := DONE;
      }
      err := cmdErr;
    }
  }

  /** The `KEY=VALUE` entries of the context's variables, appended one by one in visiting order. */
  method EnvFromContext(vars: map<string, string>, order: seq<string>) returns (env: seq<string>)
    requires Enumerates(order, vars.Keys)
    ensures |env| == |order|
    ensures forall i :: 0 <= i < |order| ==> env[i] == order[i] + "=" + vars[order[i]]
  {
    env := [];
    var i := 0;
    while i < |order|
      invariant 0 <= i <= |order|
      invariant |env| == i
      invariant forall j :: 0 <= j < i ==> env[j] == order[j] + "=" + vars[order[j]]
    {
      EnumeratedKey(order, vars.Keys, i);
      env := env + [order[i] + "=" + vars[order[i]]];
      i := i + 1;
    }
  }

  /** Every context variable reaches the environment. */
  lemma ContextVariablePresent(vars: map<string, string>, order: seq<string>, env: seq<string>, k: string)
    requires Enumerates(order, vars.Keys)
    requires |env| == |order|
    requires forall i :: 0 <= i < |order| ==> env[i] == order[i] + "=" + vars[order[i]]
    requires k in vars
    ensures k + "=" + vars[k] in env
  {
    var i := EnumeratedPosition(order, vars.Keys, k);
    assert env[i] == k + "=" + vars[k];
  }

  /** A cancel function, named by a token; calling it is recorded in the manager. */
  type CancelToken = nat

  class TaskManager {
    var sequence: int
    /** One FIFO queue of launched tasks per sync name. */
    var threads: map<string, seq<BackgroundTask>>
    /** Cancel functions by task id; `None` is a nil entry. */
    var cancel: map<int, Option<CancelToken>>
    /** Whether the stop channel has been closed. */
    var stopped: bool
    /** Every cancel function called, in order. */
    var cancelled: seq<CancelToken>

    /** `NewTaskManager`: a zero counter and empty maps. */
    constructor ()
      ensures sequence == 0 && threads == map[] && cancel == map[] && !stopped && cancelled == []
    {
      sequence := 0;
      threads := map[];
      cancel := map[];
      stopped := false;
      cancelled := [];
    }

    function Queue(key: string): seq<BackgroundTask>
      reads this`threads
    {
      if key in threads then threads[key] else []
    }

    /**
     * `TaskOfRunSh`: a `run.sh` task with the next id. An invalid command
     * is refused before the counter moves.
     */
    method TaskOfRunSh(rcs: RunShCmd, contextWd: Option<string>, contextEnv: Option<map<string, string>>)
      returns (r: Result<BackgroundTask>)
      modifies this`sequence
      ensures rcs.env == "" <==> r.Err?
      ensures r.Err? ==> sequence == old(sequence)
      ensures r.Ok? ==> sequence == IncInt(old(sequence)) && fresh(r.value) && r.value.id == sequence &&
                        r.value.status == OPEN && r.value.command == RUNSH &&
                        r.value.args == Flags(rcs) + [Target(rcs)] &&
                        r.value.contextWd == contextWd && r.value.contextEnv == contextEnv
    {
      var ca := CommandArgs(rcs);
      if ca.Err? {
        return Err(ca.error);
      }
      sequence := IncInt(sequence);
      var t := new BackgroundTask(sequence, ca.value.0, ca.value.1, contextWd, contextEnv);
      r := Ok(t);
    }

    /** Only an OPEN task is launched: it becomes SCHEDULED at the tail of its command's queue. */
    method Launch(bt: BackgroundTask) returns (r: Outcome)
      modifies this`threads, bt`status
      ensures r.Pass? <==> old(bt.status) == OPEN
      ensures r.Failure? ==> r.error == "cannot launch task in not open status" &&
                             threads == old(threads) && bt.status == old(bt.status)
      ensures r.Pass? ==> bt.status == SCHEDULED &&
                          threads == old(threads)[bt.command := old(Queue(bt.command)) + [bt]]
    {
      if bt.status != OPEN {
        return Failure("cannot launch task in not open status");
      }
      var key := bt.SyncName();
      if key !in threads {
        threads := threads[key := []];
      }
      bt.status := SCHEDULED;
      threads := threads[key := threads[key] + [bt]];
      r := Pass;
    }

    /** Stores the cancel function under the task's id, whether or not the task is known. */
    method RegisterCancel(task: BackgroundTask, c: CancelToken)
      modifies this`cancel
      ensures cancel == old(cancel)[task.id := Some(c)]
    {
      cancel := cancel[task.id := Some(c)];
    }

    /**
     * Closes the stop channel, then calls every cancel function in the
     * order the map is visited and nils its entry. A nil entry would be
     * called as nil, and a second close would close a closed channel, so
     * both are excluded.
     */
    method Close(order: seq<int>)
      requires Enumerates(order, cancel.Keys) && !stopped
      requires forall id :: id in cancel ==> cancel[id].Some?
      modifies this`stopped, this`cancel, this`cancelled
      ensures stopped
      ensures cancel.Keys == old(cancel.Keys) && forall id :: id in cancel ==> cancel[id].None?
      ensures |cancelled| == |old(cancelled)| + |order|
      ensures cancelled[..|old(cancelled)|] == old(cancelled)
      ensures forall i :: 0 <= i < |order| ==>
        order[i] in old(cancel) && old(cancel)[order[i]] == Some(cancelled[|old(cancelled)| + i])
    {
      stopped := true;
      var i := 0;
      while i < |order|
        invariant 0 <= i <= |order| && stopped
        invariant cancel.Keys == old(cancel.Keys)
        invariant forall j :: i <= j < |order| ==> order[j] in cancel && cancel[order[j]] == old(cancel)[order[j]]
        invariant forall j :: 0 <= j < i ==> order[j] in cancel && cancel[order[j]].None?
        invariant |cancelled| == |old(cancelled)| + i
        invariant cancelled[..|old(cancelled)|] == old(cancelled)
        invariant forall j :: 0 <= j < i ==>
          order[j] in old(cancel) && old(cancel)[order[j]] == Some(cancelled[|old(cancelled)| + j])
      {
        var id := order[i];
        EnumeratedKey(order, cancel.Keys, i);
        cancelled := cancelled + [cancel[id].value];
        cancel := cancel[id := None];
        i := i + 1;
      }
      forall id | id in cancel ensures cancel[id].None? {
        var j := EnumeratedPosition(order, cancel.Keys, id);
      }
    }

    /**
     * One step of a queue's worker: take the oldest task, run it (an
     * error is only logged) and nil its cancel entry, which is created
     * if it was not there.
     */
    method WorkerStep(key: string, ambient: seq<string>, getwd: Result<string>, envOrder: seq<string>,
                      cmdErr: Option<string>) returns (t: BackgroundTask)
      requires key in threads && |threads[key]| > 0
      requires threads[key][0].contextEnv.Some? ==> Enumerates(envOrder, threads[key][0].contextEnv.value.Keys)
      modifies this`threads, this`cancel, threads[key][0]
      ensures t == old(threads[key][0])
      ensures old(t.status) != SCHEDULED ==> t.status == old(t.status)
      ensures old(t.status) == SCHEDULED && (t.contextWd.Some? || getwd.Ok?) ==>
        t.status == if cmdErr.Some? then FAILED else DONE
      ensures threads == old(threads)[key := old(threads[key][1..])]
      ensures cancel == old(cancel)[t.id := None]
    {
      t := threads[key][0];
      threads := threads[key := threads[key][1..]];
      var err := t.Run(ambient, getwd, envOrder, cmdErr);
      cancel := cancel[t.id := None];
    }
  }
}
