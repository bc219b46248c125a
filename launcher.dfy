/**
 * The first dispatcher: commands are queued per environment (and a
 * layer marker) as runner tasks, and every launch is answered with the
 * next execution id.
 */
module Launcher {
  import opened Common
  import opened Strings
  import opened Runner

  /** Every queue is a channel of this capacity. */
  const QUEUE_CAPACITY := 50
  /** Every task is given five minutes, in nanoseconds. */
  const TASK_TIMEOUT := 300 * 1_000_000_000
  const DEFAULT_WD := "/tmp/production_42"

  /**
   * The queue of a launch: the environment, marked with the literal text
   * "/layer" when any layer is given (the layer's own name is not used).
   */
  function StateKey(env: string, layer: string): (key: string)
    ensures layer == "" ==> key == env
    ensures layer != "" ==> key == env + "/layer"
  {
    if layer != "" then env + "/layer" else env
  }

  /** Two launches with the same environment share a queue whatever their layers are, once both name one. */
  lemma LayersShareQueue(env: string, l1: string, l2: string)
    requires l1 != "" && l2 != ""
    ensures StateKey(env, l1) == StateKey(env, l2)
  {
  }

  class Dispatcher {
    var sequence: int
    const wd: string
    /** One FIFO queue of tasks per state key. */
    var threads: map<string, seq<Task>>

    /** `NewDispatcher`. */
    constructor ()
      ensures sequence == 0 && wd == DEFAULT_WD && threads == map[]
    {
      sequence := 0;
      wd := DEFAULT_WD;
      threads := map[];
    }

    function Queue(key: string): seq<Task>
      reads this`threads
    {
      if key in threads then threads[key] else []
    }

    /** `increment`: moves the counter on and returns its new value. */
    method Increment() returns (n: int)
      modifies this`sequence
      ensures sequence == IncInt(old(sequence)) && n == sequence
    {
      sequence := IncInt(sequence);
      n := sequence;
    }

    /**
     * `Launch`: without an environment the answer is -1 and an error, and
     * nothing changes. Otherwise a task named after the counter's current
     * value is appended to its queue and scheduled, and the counter's next
     * value is the answer. The task's own id is never set. `cmd` is the
     * program followed by its arguments, read only once the environment
     * is known; sending to a full queue blocks, so the model is called
     * only when there is room.
     */
    method Launch(env: string, layer: string, cmd: seq<string>) returns (id: int, err: Outcome)
      requires env != "" ==> |cmd| >= 1
      requires env != "" ==> |Queue(StateKey(env, layer))| < QUEUE_CAPACITY
      modifies this`sequence, this`threads
      ensures env == "" ==> id == -1 && err == Failure("you must specify environment") &&
                            sequence == old(sequence) && threads == old(threads)
      ensures env != "" ==> err.Pass? && sequence == IncInt(old(sequence)) && id == sequence
      ensures env != "" ==>
        var key := StateKey(env, layer);
        key in threads && threads == old(threads)[key := threads[key]] &&
        |threads[key]| == |old(Queue(key))| + 1 && threads[key][..|threads[key]| - 1] == old(Queue(key))
      ensures env != "" ==>
        var t := threads[StateKey(env, layer)][|threads[StateKey(env, layer)]| - 1];
        fresh(t) && t.name == "Task " + Itoa(old(sequence)) && t.id == 0 && t.workingDirectory == wd &&
        t.command == cmd[0] && t.args == cmd[1..] && t.timeout == TASK_TIMEOUT && t.status == SCHEDULED
    {
      if env == "" {
        return -1, Failure("you must specify environment");
      }
      var state := env;
      if layer != "" {
        state := state + "/layer";
      }
      if state !in threads {
        threads := threads[state := []];
      }
      var t := new Task("Task " + Itoa(sequence), wd, cmd[0], cmd[1..], TASK_TIMEOUT);
      threads := threads[state := threads[state] + [t]];
      var _ := t.Schedule();
      id := Increment();
      err := Pass;
    }
  }

  /**
   * `LaunchRunSh`: builds the `run.sh` command line and launches it under
   * the command's environment and layer; an invalid command is answered
   * with -1 and its error.
   */
  method LaunchRunSh(d: Dispatcher, cmd: RunShCmd) returns (id: int, err: Outcome)
    requires cmd.env != "" ==> |d.Queue(StateKey(cmd.env, cmd.layer))| < QUEUE_CAPACITY
    modifies d`sequence, d`threads
    ensures cmd.env == "" ==> id == -1 && err.Failure? && d.sequence == old(d.sequence) && d.threads == old(d.threads)
    ensures cmd.env != "" ==> err.Pass? && id == d.sequence && d.sequence == IncInt(old(d.sequence))
    ensures cmd.env != "" ==> StateKey(cmd.env, cmd.layer) in d.threads
    ensures cmd.env != "" ==>
      var q := d.threads[StateKey(cmd.env, cmd.layer)];
      |q| > 0 && q[..|q| - 1] == old(d.Queue(StateKey(cmd.env, cmd.layer))) &&
      q[|q| - 1].command == RUNSH && q[|q| - 1].args == Flags(cmd) + [Target(cmd)]
  {
    var ca := CommandArgs(cmd);
    if ca.Err? {
      return -1, Failure(ca.error);
    }
    var comargs := [ca.value.0] + ca.value.1;
    id, err := d.Launch(cmd.env, cmd.layer, comargs);
  }
}
