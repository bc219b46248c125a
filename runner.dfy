/**
 * The earliest task type: its own status enumeration (without
 * REGISTERED), guarded transitions, the command runner and the builder
 * of `run.sh` arguments.
 */
module Runner {
  import opened Common
  import opened Strings

  /** This file's task status; the ordinals differ from the shared ones. */
  newtype RunnerStatus = x: int | 0 <= x < 256

  const OPEN: RunnerStatus := 0
  const SCHEDULED: RunnerStatus := 1
  const STARTED: RunnerStatus := 2
  const FAILED: RunnerStatus := 3
  const TIMEOUT: RunnerStatus := 4
  const DONE: RunnerStatus := 5

  /** The variable every command run here gets on top of the server's environment. */
  const NOPB_ENTRY := "TFRESDIF_NOPB=true"
  const RUNSH := "./run.sh"

  function StateErrorText(what: string, status: RunnerStatus): string {
    what + " Current state number is " + Itoa(status as int)
  }

  class Task {
    var name: string
    var id: int
    var workingDirectory: string
    var command: string
    var args: seq<string>
    /** The timeout in nanoseconds, as a Go `time.Duration`. */
    var timeout: int
    var status: RunnerStatus

    /** `NewTask`: an OPEN task with the given fields and id 0. */
    constructor (name: string, workDir: string, command: string, args: seq<string>, timeout: int)
      ensures this.name == name && workingDirectory == workDir && this.command == command
      ensures this.args == args && this.timeout == timeout
      ensures id == 0 && status == OPEN
    {
      this.name := name;
      this.id := 0;
      this.workingDirectory := workDir;
      this.command := command;
      this.args := args;
      this.timeout := timeout;
      this.status := OPEN;
    }

    /** Scheduling is allowed only below SCHEDULED, that is from OPEN. */
    method Schedule() returns (r: Outcome)
      modifies this`status
      ensures r.Pass? <==> old(status) == OPEN
      ensures status == if r.Pass? then SCHEDULED else old(status)
    {
      if status < SCHEDULED {
        status := SCHEDULED;
        r := Pass;
      } else {
        r := Failure(StateErrorText("Task cannot be scheduled because it is not in open state.", status));
      }
    }

    method Start() returns (r: Outcome)
      modifies this`status
      ensures r.Pass? <==> old(status) < STARTED
      ensures status == if r.Pass? then STARTED else old(status)
    {
      if status < STARTED {
        status := STARTED;
        r := Pass;
      } else {
        r := Failure(StateErrorText("Task cannot be started because it is not in scheduled state.", status));
      }
    }

    method Done() returns (r: Outcome)
      modifies this`status
      ensures r.Pass? <==> old(status) == STARTED
      ensures status == if r.Pass? then DONE else old(status)
    {
      if status == STARTED {
        status := DONE;
        r := Pass;
      } else {
        r := Failure(StateErrorText("Task cannot be done, because it has been not started.", status));
      }
    }

    method Fail() returns (r: Outcome)
      modifies this`status
      ensures r.Pass? <==> old(status) == STARTED
      ensures status == if r.Pass? then FAILED else old(status)
    {
      if status == STARTED {
        status := FAILED;
        r := Pass;
      } else {
        r := Failure(StateErrorText("Task cannot be failed, because it has been not started.", status));
      }
    }

    method TimeoutFail() returns (r: Outcome)
      modifies this`status
      ensures r.Pass? <==> old(status) == STARTED
      ensures status == if r.Pass? then TIMEOUT else old(status)
    {
      if status == STARTED {
        status := TIMEOUT;
        r := Pass;
      } else {
        r := Failure(StateErrorText("Task cannot be timed out, because it has been not started.", status));
      }
    }
  }

  /**
   * `RunCommand` up to the point where the process starts: an empty
   * command is refused; the directory is the context's WD value, or else
   * the server's own (`getwd`, which may fail); the environment is the
   * server's with the no-progress-bar variable appended.
   */
  function RunCommand(cmd: string, args: seq<string>, wd: Option<string>, getwd: Result<string>,
                      ambient: seq<string>): (r: Result<Invocation>)
    ensures r.Err? <==> cmd == "" || (wd.None? && getwd.Err?)
    ensures cmd == "" ==> r == Err("Empty command received")
    ensures r.Ok? ==> r.value.command == cmd && r.value.args == args
    ensures r.Ok? ==> r.value.dir == (if wd.Some? then wd.value else getwd.value)
    ensures r.Ok? ==> |r.value.env| == |ambient| + 1 && r.value.env[..|ambient|] == ambient && r.value.env[|ambient|] == NOPB_ENTRY
  {
    if |cmd| < 1 then Err("Empty command received")
    else if wd.Some? then Ok(Invocation(cmd, args, wd.value, ambient + [NOPB_ENTRY]))
    else if getwd.Err? then Err(getwd.error)
    else Ok(Invocation(cmd, args, getwd.value, ambient + [NOPB_ENTRY]))
  }

  /**
   * `RunTask`: starts the task, runs the command in the task's working
   * directory, and ends FAILED on any error or DONE otherwise. A refused
   * start is sent on the error channel `errc`, which is unbuffered and
   * which `CommandRunner` never reads, so the call blocks for good there:
   * `blocked` holds, `inv` is `None`, nothing runs and the status stays.
   * `cmdErr` is how the process ends.
   */
  method RunTask(t: Task, ambient: seq<string>, cmdErr: Option<string>)
    returns (blocked: bool, inv: Option<Result<Invocation>>, runErr: Option<string>)
    modifies t`status
    ensures blocked <==> old(t.status) >= STARTED
    ensures blocked ==> inv.None? && runErr.None? && t.status == old(t.status)
    ensures !blocked ==> inv.Some? && (inv.value.Err? <==> t.command == "")
    ensures !blocked && inv.value.Ok? ==>
      inv.value.value.dir == t.workingDirectory && inv.value.value.command == t.command &&
      inv.value.value.args == t.args && inv.value.value.env == ambient + [NOPB_ENTRY]
    ensures !blocked && inv.value.Err? ==> runErr == Some(inv.value.error)
    ensures !blocked && inv.value.Ok? ==> runErr == cmdErr
    ensures !blocked ==> t.status == if runErr.Some? then FAILED else DONE
  {
    var started := t.Start();
    if started.Failure? {
      return true, None, None;
    }
    var run := RunCommand(t.command, t.args, Some(t.workingDirectory), Err(""), ambient);
    inv := Some(run);
    if run.Err? {
      runErr := Some(run.error);
    } else {
      runErr := cmdErr;
    }
    if runErr.Some? {
      t.status := FAILED;
    } else {
      t.status := DONE;
    }
    blocked := false;
  }

  /**
   * The options of one `run.sh` invocation. `gitOrigins` and `hash` are
   * the fields the later task managers read from it.
   */
  datatype RunShCmd = RunShCmd(all: bool, omit: bool, no: bool, yes: bool, env: string, layer: string,
                               targets: seq<string>, gitOrigins: seq<string>, hash: string)

  /** The flags `run.sh` is given, in the order -a, -o, -n, -y; -y only when -n is not given. */
  function Flags(rsc: RunShCmd): seq<string> {
    (if rsc.all then ["-a"] else []) + (if rsc.omit then ["-o"] else []) +
    (if rsc.no then ["-n"] else []) + (if rsc.yes && !rsc.no then ["-y"] else [])
  }

  /** The environment, or environment/layer, that `run.sh` is pointed at. */
  function Target(rsc: RunShCmd): string {
    if rsc.layer != "" then rsc.env + "/" + rsc.layer else rsc.env
  }

  /**
   * `CommandArgs`: the command is `./run.sh`, the arguments are the flags
   * followed by the target; without an environment it is an error.
   */
  method CommandArgs(rsc: RunShCmd) returns (r: Result<(string, seq<string>)>)
    ensures r.Err? <==> rsc.env == ""
    ensures r.Err? ==> r.error == "cannot launch run.sh if environment is not specified"
    ensures r.Ok? ==> r.value.0 == RUNSH && r.value.1 == Flags(rsc) + [Target(rsc)]
  {
    var args: seq<string> := [];
    if rsc.all {
      args := args + ["-a"];
    }
    if rsc.omit {
      args := args + ["-o"];
    }
    if rsc.no {
      args := args + ["-n"];
    }
    if rsc.yes && !rsc.no {
      args := args + ["-y"];
    }
    if rsc.env != "" {
      if rsc.layer != "" {
        args := args + [rsc.env + "/" + rsc.layer];
      } else {
        args := args + [rsc.env];
      }
    } else {
      return Err("cannot launch run.sh if environment is not specified");
    }
    r := Ok((RUNSH, args));
  }

  /** Each flag is present exactly when its option asks for it; -y is suppressed by -n. */
  lemma FlagsMeaning(rsc: RunShCmd)
    ensures "-a" in Flags(rsc) <==> rsc.all
    ensures "-o" in Flags(rsc) <==> rsc.omit
    ensures "-n" in Flags(rsc) <==> rsc.no
    ensures "-y" in Flags(rsc) <==> rsc.yes && !rsc.no
    ensures |Flags(rsc)| <= 3
  {
    var f := Flags(rsc);
    var a := if rsc.all then ["-a"] else [];
    var o := if rsc.omit then ["-o"] else [];
    var n := if rsc.no then ["-n"] else [];
    var y := if rsc.yes && !rsc.no then ["-y"] else [];
    assert f == a + o + n + y;
    assert forall x :: x in f <==> x in a || x in o || x in n || x in y;
  }

  /** The targets do not reach the command line. */
  lemma TargetsIgnored(rsc: RunShCmd, targets: seq<string>)
    ensures Flags(rsc.(targets := targets)) + [Target(rsc.(targets := targets))] == Flags(rsc) + [Target(rsc)]
  {
  }

  /** The target is always the last argument, and it names a layer only when one is given. */
  lemma TargetLast(rsc: RunShCmd)
    requires rsc.env != ""
    ensures (Flags(rsc) + [Target(rsc)])[|Flags(rsc)|] == Target(rsc)
    ensures HasPrefix(Target(rsc), rsc.env)
    ensures rsc.layer == "" <==> Target(rsc) == rsc.env
  {
    if rsc.layer != "" {
      assert |Target(rsc)| > |rsc.env|;
      assert Target(rsc)[..|rsc.env|] == rsc.env;
    }
  }
}
