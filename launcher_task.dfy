/**
 * The task abstraction: status names, and the background task whose
 * `Run` launches one command and records how it ended.
 */
module LauncherTask {
  import opened Common
  import opened Strings
  import opened MiscConsts

  /** The lower-case name of a known status; any other value is "unknown". */
  function GetStatusString(status: TaskStatus): (name: string)
    ensures name == "unknown" <==> status > DONE
  {
    match status
    case 0 => "open"
    case 1 => "registered"
    case 2 => "scheduled"
    case 3 => "started"
    case 4 => "failed"
    case 5 => "timeout"
    case 6 => "done"
    case _ => "unknown"
  }

  /** Distinct known statuses have distinct names. */
  lemma StatusStringInjective(a: TaskStatus, b: TaskStatus)
    requires a <= DONE && b <= DONE && a != b
    ensures GetStatusString(a) != GetStatusString(b)
  {
  }

  /** The terminal statuses. */
  predicate IsCompletedStatus(s: TaskStatus) {
    s == DONE || s == FAILED || s == TIMEOUT
  }

  /**
   * How a finished command is classified: no error is DONE, the context
   * deadline error is TIMEOUT, every other error is FAILED.
   */
  function FinalStatus(cmdErr: Option<string>): (s: TaskStatus)
    ensures IsCompletedStatus(s)
    ensures s == DONE <==> cmdErr.None?
    ensures s == TIMEOUT <==> cmdErr == Some(DEADLINE_EXCEEDED)
  {
    match cmdErr
    case None => DONE
    case Some(e) => if e == DEADLINE_EXCEEDED then TIMEOUT else FAILED
  }

  /** The `KEY=VALUE` entries of a map, in the order Go's range visits it. */
  function EnvEntries(vars: map<string, string>, order: seq<string>): (env: seq<string>)
    requires forall k :: k in order ==> k in vars
    ensures |env| == |order|
    ensures forall i :: 0 <= i < |order| ==> env[i] == order[i] + "=" + vars[order[i]]
  {
    if |order| == 0 then [] else [order[0] + "=" + vars[order[0]]] + EnvEntries(vars, order[1..])
  }

  /** Every variable of the map reaches the environment exactly at its place in the visiting order. */
  lemma EnvEntriesCover(vars: map<string, string>, order: seq<string>, k: string)
    requires Enumerates(order, vars.Keys)
    requires k in vars
    ensures exists i :: 0 <= i < |order| && EnvEntries(vars, order)[i] == k + "=" + vars[k]
  {
    var i :| 0 <= i < |order| && order[i] == k;
    assert EnvEntries(vars, order)[i] == k + "=" + vars[k];
  }

  function StateErrorText(what: string, status: TaskStatus): string {
    what + " Current state number is " + Itoa(status as int)
  }

  /** The plain background task: one command, guarded status transitions without notifications. */
  class BackgroundTaskImpl {
    var name: string
    var id: int
    var command: string
    var args: seq<string>
    /** The working directory stored in the task's context, if any. */
    var contextWd: Option<string>
    /** The extra environment stored in the task's context, if any. */
    var contextEnv: Option<map<string, string>>
    var status: TaskStatus
    /** The process the last successful `Run` started. */
    var launched: Option<Invocation>

    constructor (name: string, id: int, command: string, args: seq<string>,
                 contextWd: Option<string>, contextEnv: Option<map<string, string>>)
      ensures this.name == name && this.id == id && this.command == command && this.args == args
      ensures this.contextWd == contextWd && this.contextEnv == contextEnv
      ensures status == OPEN && launched.None?
    {
      this.name := name;
      this.id := id;
      this.command := command;
      this.args := args;
      this.contextWd := contextWd;
      this.contextEnv := contextEnv;
      status := OPEN;
      launched := None;
    }

    /** The queue a task waits in is named by its command. */
    function SyncName(): (key: string)
      reads this
      ensures key == command
    {
      command
    }

    method Register() returns (r: Outcome)
      modifies this`status
      ensures r.Pass? <==> old(status) == OPEN
      ensures status == if r.Pass? then REGISTERED else old(status)
    {
      if status == OPEN {
        status := REGISTERED;
        r := Pass;
      } else {
        r := Failure(StateErrorText("Task cannot be scheduled registered, beacuse it is not open. Please make get request.", status));
      }
    }

    method Schedule() returns (r: Outcome)
      modifies this`status
      ensures r.Pass? <==> old(status) == REGISTERED
      ensures status == if r.Pass? then SCHEDULED else old(status)
    {
      if status == REGISTERED {
        status := SCHEDULED;
        r := Pass;
      } else {
        r := Failure(StateErrorText("Task cannot be scheduled because it has been not registered. Please wait for a webhook.", status));
      }
    }

    method Start() returns (r: Outcome)
      modifies this`status
      ensures r.Pass? <==> old(status) < STARTED
      ensures status == if r.Pass? then STARTED else old(status)
    {
      if status < STARTED {
        status := STARTED;
        r := Pass;
      } else {
        r := Failure(StateErrorText("Task cannot be started because it is not in scheduled state.", status));
      }
    }

    method Done() returns (r: Outcome)
      modifies this`status
      ensures r.Pass? <==> old(status) == STARTED
      ensures status == if r.Pass? then DONE else old(status)
    {
      if status == STARTED {
        status := DONE;
        r := Pass;
      } else {
        r := Failure(StateErrorText("Task cannot be done, because it has been not started.", status));
      }
    }

    method Fail() returns (r: Outcome)
      modifies this`status
      ensures r.Pass? <==> old(status) == STARTED
      ensures status == if r.Pass? then FAILED else old(status)
    {
      if status == STARTED {
        status := FAILED;
        r := Pass;
      } else {
        r := Failure(StateErrorText("Task cannot be failed, because it has been not started.", status));
      }
    }

    method TimeoutFail() returns (r: Outcome)
      modifies this`status
      ensures r.Pass? <==> old(status) == STARTED
      ensures status == if r.Pass? then TIMEOUT else old(status)
    {
      if status == STARTED {
        status := TIMEOUT;
        r := Pass;
      } else {
        r := Failure(StateErrorText("Task cannot be timed out, because it has been not started.", status));
      }
    }

    /**
     * Runs a scheduled task. `ambient` is the server's environment, `getwd`
     * the result of `os.Getwd`, `envOrder` the order in which the context's
     * variables are visited and `cmdErr` the error the command ends with.
     * The command's own error is returned.
     */
    method Run(ambient: seq<string>, getwd: Result<string>, envOrder: seq<string>, cmdErr: Option<string>)
      returns (err: Option<string>)
      requires contextEnv.Some? ==> Enumerates(envOrder, contextEnv.value.Keys)
      modifies this`status, this`launched
      ensures old(status) != SCHEDULED ==>
        err == Some("cannot run unscheduled task") && status == old(status) && launched == old(launched)
      ensures old(status) == SCHEDULED && contextWd.None? && getwd.Err? ==>
        err == Some(getwd.error) && status == old(status) && launched == old(launched)
      ensures old(status) == SCHEDULED && (contextWd.Some? || getwd.Ok?) ==>
        err == cmdErr && status == FinalStatus(cmdErr) &&
        launched == Some(Invocation(command, args,
                                    if contextWd.Some? then contextWd.value else getwd.value,
                                    ambient + if contextEnv.Some? then EnvEntries(contextEnv.value, envOrder) else []))
    {
      if status != SCHEDULED {
        return Some("cannot run unscheduled task");
      }
      var cwd: string;
      if contextWd.Some? {
        cwd := contextWd.value;
      } else {
        if getwd.Err? {
          return Some(getwd.error);
        }
        cwd := getwd.value;
      }
      var sysenv := ambient + if contextEnv.Some? then EnvEntries(contextEnv.value, envOrder) else [];
      launched := Some(Invocation(command, args, cwd, sysenv));
      status := STARTED;
      status := FinalStatus(cmdErr);
      err := cmdErr;
    }
  }
}
