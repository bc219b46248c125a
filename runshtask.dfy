/**
 * The CI task that runs `run.sh`: guarded life-cycle transitions, each of
 * which notifies every subscriber, the results reported to the GitHub
 * managers when the task ends, and the control flow of `Run`.
 */
module RunShTaskModel {
  import opened Common
  import opened Strings
  import opened MiscConsts
  import opened LauncherTask
  import GH = GitHubManager
  import Git = GitManager

  /** The variable through which `run.sh` learns the checkouts of all the task's repositories. */
  const RUNSH_PATH_VAR := "RUNSH_PATH"
  /** The variable that keeps `run.sh` from notifying the service back. */
  const NOTIFY_VAR := "NOTIFY_TFCHEK"
  const UNSCHEDULED := "cannot run unscheduled task"

  /** What a task's context holds under the environment-variables key. */
  datatype ContextValue = NoValue | MapValue(vars: map<string, string>) | MapPointer(vars: map<string, string>)

  /** As written, `Run` accepts only a map stored by value; a pointer to a map is ignored. */
  function ContextVarsAsWritten(v: ContextValue): (vars: Option<map<string, string>>)
    ensures vars.Some? <==> v.MapValue?
    ensures vars.Some? ==> vars.value == v.vars
  {
    if v.MapValue? then Some(v.vars) else None
  }

  /** The variables the context carries, whether stored by value or through a pointer. */
  function ContextVars(v: ContextValue): (vars: Option<map<string, string>>)
    ensures vars.Some? <==> !v.NoValue?
    ensures vars.Some? ==> vars.value == v.vars
  {
    if v.NoValue? then None else Some(v.vars)
  }

  /** The API stores a pointer to the variables; as written they never reach the command. */
  lemma PointerContextDropped(vars: map<string, string>)
    ensures ContextVarsAsWritten(MapPointer(vars)).None?
    ensures ContextVars(MapPointer(vars)) == Some(vars)
  {
  }

  /** The message of `getGitManagers` for a task without origins. */
  function NoRemotesError(taskId: int): string {
    "Cannot obtain a git manager. Task id " + Itoa(taskId) + " contains no git remotes"
  }

  const NO_EXECUTABLE := "failed to find repository with run.sh executable"

  /** The log reported to GitHub: the output, or a placeholder when there is none. */
  function ReportedLog(output: string): (log: string)
    ensures log != ""
    ensures output != "" ==> log == output
    ensures output == "" ==> log == NOOUTPUT
  {
    if output == "" then NOOUTPUT else output
  }

  predicate Distinct(s: seq<nat>) {
    forall i, j :: 0 <= i < j < |s| ==> s[i] != s[j]
  }

  predicate IndicesBelow(s: seq<nat>, n: nat) {
    forall i :: 0 <= i < |s| ==> s[i] < n
  }

  /** Every channel listed in `subs`, in order, receives `s`. */
  function Broadcast(inboxes: seq<seq<TaskStatus>>, subs: seq<nat>, s: TaskStatus): (r: seq<seq<TaskStatus>>)
    requires IndicesBelow(subs, |inboxes|)
    ensures |r| == |inboxes|
  {
    if |subs| == 0 then inboxes
    else
      var b := Broadcast(inboxes, subs[..|subs| - 1], s);
      var c := subs[|subs| - 1];
      b[c := b[c] + [s]]
  }

  /** A broadcast adds the status once to each subscribed channel and leaves every other channel as it was. */
  lemma {:induction false} BroadcastAt(inboxes: seq<seq<TaskStatus>>, subs: seq<nat>, s: TaskStatus, c: nat)
    requires IndicesBelow(subs, |inboxes|) && Distinct(subs) && c < |inboxes|
    ensures Broadcast(inboxes, subs, s)[c] == inboxes[c] + (if c in subs then [s] else [])
  {
    if |subs| > 0 {
      var init := subs[..|subs| - 1];
      var last := subs[|subs| - 1];
      BroadcastAt(inboxes, init, s, c);
      assert subs == init + [last];
      assert last !in init;
    }
  }

  /** The last element of `order` that is in `s`. */
  function LastIn(order: seq<string>, s: set<string>): (r: Option<string>)
    ensures r.Some? ==> r.value in s && r.value in order
    ensures r.None? <==> forall i :: 0 <= i < |order| ==> order[i] !in s
  {
    if |order| == 0 then None
    else if order[|order| - 1] in s then Some(order[|order| - 1])
    else
      assert forall i :: 0 <= i < |order| - 1 ==> order[..|order| - 1][i] == order[i];
      LastIn(order[..|order| - 1], s)
  }

  /** What `LastIn` finds is last: no later element of `order` lies in `s`. */
  lemma {:induction false} LastInIsLast(order: seq<string>, s: set<string>)
    ensures LastIn(order, s).Some? ==>
      exists i :: 0 <= i < |order| && order[i] == LastIn(order, s).value && forall j :: i < j < |order| ==> order[j] !in s
  {
    if |order| > 0 && order[|order| - 1] !in s {
      var p := order[..|order| - 1];
      LastInIsLast(p, s);
      if LastIn(p, s).Some? {
        LastInExtend(order, s, LastIn(p, s).value);
      }
    }
  }

  /** A last occurrence in `s` within the prefix stays last once an element outside `s` follows. */
  lemma LastInExtend(order: seq<string>, s: set<string>, x: string)
    requires |order| > 0 && order[|order| - 1] !in s
    requires var p := order[..|order| - 1]; exists i :: 0 <= i < |p| && p[i] == x && forall j :: i < j < |p| ==> p[j] !in s
    ensures x in order
    ensures exists i :: 0 <= i < |order| && order[i] == x && forall j :: i < j < |order| ==> order[j] !in s
  {
    var p := order[..|order| - 1];
    var i :| 0 <= i < |p| && p[i] == x && forall j :: i < j < |p| ==> p[j] !in s;
    assert order[i] == x;
    assert forall j :: i < j < |order| ==> order[j] !in s by {
      forall j | i < j < |order| ensures order[j] !in s {
        if j < |p| {
          assert p[j] == order[j];
        }
      }
    }
  }

  /**
   * `getFirstGitManager`: among the origins, visited in `order`, the one
   * whose checkout holds an executable `run.sh` (the last such one visited);
   * failing that, one holding the WTF executable; otherwise an error.
   * `runsh` and `wtf` are the origins whose checkouts hold the executables.
   */
  function FirstGitManager(taskId: int, order: seq<string>, runsh: set<string>, wtf: set<string>): (r: Result<string>)
    ensures |order| == 0 ==> r == Err(NoRemotesError(taskId))
    ensures r.Ok? ==> r.value in order
    ensures r.Ok? ==> r.value in runsh || (r.value in wtf && forall i :: 0 <= i < |order| ==> order[i] !in runsh)
    ensures |order| > 0 ==> (r.Err? <==> forall i :: 0 <= i < |order| ==> order[i] !in runsh && order[i] !in wtf)
  {
    if |order| == 0 then Err(NoRemotesError(taskId))
    else
      match LastIn(order, runsh)
      case Some(o) => Ok(o)
      case None =>
        match LastIn(order, wtf)
        case Some(o) => Ok(o)
        case None => Err(NO_EXECUTABLE)
  }

  /**
   * Whether `getFirstGitManager` finds a manager does not depend on the
   * order in which it ranges over the managers map.
   */
  lemma FirstGitManagerOrderFree(taskId: int, order: seq<string>, other: seq<string>, keys: set<string>,
                                 runsh: set<string>, wtf: set<string>)
    requires Enumerates(order, keys) && Enumerates(other, keys)
    ensures FirstGitManager(taskId, order, runsh, wtf).Ok? <==> FirstGitManager(taskId, other, runsh, wtf).Ok?
  {
    forall k ensures k in order <==> k in other {
      EnumeratedMember(order, keys, k);
      EnumeratedMember(other, keys, k);
    }
    if |order| > 0 {
      assert order[0] in other;
    }
    if |other| > 0 {
      assert other[0] in order;
    }
  }

  /**
   * When exactly one origin's checkout holds `run.sh`, every order finds
   * that origin, so the failure report goes to the checkout that ran.
   */
  lemma FirstGitManagerSoleHolder(taskId: int, order: seq<string>, keys: set<string>,
                                  runsh: set<string>, wtf: set<string>, o: string)
    requires Enumerates(order, keys) && o in keys && keys * runsh == {o}
    ensures FirstGitManager(taskId, order, runsh, wtf) == Ok(o)
  {
    EnumeratedMember(order, keys, o);
    var r := FirstGitManager(taskId, order, runsh, wtf);
    var i :| 0 <= i < |order| && order[i] == o;
    assert order[i] in runsh;
    EnumeratedMember(order, keys, r.value);
    assert r.value in keys * runsh;
  }

  /** Two origins that both hold `run.sh` are found in the order of the range, so two ranges can disagree. */
  lemma FirstGitManagerDependsOnOrder()
    ensures FirstGitManager(0, ["a", "b"], {"a", "b"}, {}) == Ok("b")
    ensures FirstGitManager(0, ["b", "a"], {"a", "b"}, {}) == Ok("a")
  {
  }

  /** The checkout paths of the origins, in visiting order. */
  function Paths(repoDir: string, order: seq<string>, state: string): (paths: seq<string>)
    ensures |paths| == |order|
    ensures forall i :: 0 <= i < |order| ==> paths[i] == Git.ManagerPath(repoDir, order[i], state)
  {
    if |order| == 0 then [] else [Git.ManagerPath(repoDir, order[0], state)] + Paths(repoDir, order[1..], state)
  }

  /**
   * The environment `Run` hands to `run.sh`: the server's own, the context's
   * variables, `RUNSH_PATH` when it could be generated, and the
   * notification switch turned off.
   */
  function RunEnv(ambient: seq<string>, vars: Option<map<string, string>>, envOrder: seq<string>,
                  runshPath: Result<string>): (env: seq<string>)
    requires vars.Some? ==> Enumerates(envOrder, vars.value.Keys)
    ensures |env| > |ambient| && env[|env| - 1] == NOTIFY_VAR + "=false"
    ensures env[..|ambient|] == ambient
  {
    ambient
    + (if vars.Some? then EnvEntries(vars.value, envOrder) else [])
    + (if runshPath.Ok? then [RUNSH_PATH_VAR + "=" + runshPath.value] else [])
    + [NOTIFY_VAR + "=false"]
  }

  /** Every variable of the context reaches the command's environment. */
  lemma RunEnvCarriesContext(ambient: seq<string>, vars: map<string, string>, envOrder: seq<string>,
                             runshPath: Result<string>, k: string)
    requires Enumerates(envOrder, vars.Keys) && k in vars
    ensures k + "=" + vars[k] in RunEnv(ambient, Some(vars), envOrder, runshPath)
  {
    EnvEntriesCover(vars, envOrder, k);
    var entries := EnvEntries(vars, envOrder);
    var i :| 0 <= i < |envOrder| && entries[i] == k + "=" + vars[k];
    var tail := (if runshPath.Ok? then [RUNSH_PATH_VAR + "=" + runshPath.value] else []) + [NOTIFY_VAR + "=false"];
    InMiddle(ambient, entries, tail, i);
  }

  lemma InMiddle<T>(a: seq<T>, b: seq<T>, c: seq<T>, i: nat)
    requires i < |b|
    ensures b[i] in a + b + c
  {
    assert (a + b + c)[|a| + i] == b[i];
  }

  /** A RUNSH_PATH that was generated is the last entry before the notification switch. */
  lemma RunEnvCarriesRunshPath(ambient: seq<string>, vars: Option<map<string, string>>, envOrder: seq<string>, p: string)
    requires vars.Some? ==> Enumerates(envOrder, vars.value.Keys)
    ensures var env := RunEnv(ambient, vars, envOrder, Ok(p));
      |env| >= 2 && env[|env| - 2] == RUNSH_PATH_VAR + "=" + p
  {
  }

  /** A listing of a set holds exactly the set's members. */
  lemma EnumeratedMember(order: seq<string>, keys: set<string>, k: string)
    requires Enumerates(order, keys)
    ensures k in order <==> k in keys
  {
    if k in order {
      var j :| 0 <= j < |order| && order[j] == k;
      assert k in Listed(order);
    }
    if k in keys {
      assert k in Listed(order);
    }
  }

  class RunShTask {
    /** The configured directory under which repositories are checked out. */
    const repoDir: string
    var name: string
    var id: int
    var command: string
    var args: seq<string>
    var stateLock: string
    var context: ContextValue
    /** Variables copied from the context when the task is created; `Run` does not read them. */
    var extraEnv: map<string, string>
    var status: TaskStatus
    var gitOrigins: seq<string>
    var authors: seq<string>
    /** Everything the command wrote to its standard output and error. */
    var output: string
    /** Every channel `Subscribe` has handed out, with all it was sent. */
    var inboxes: seq<seq<TaskStatus>>
    /** The channels currently registered, as indices into `inboxes`. */
    var subscribers: seq<nat>
    /** The process the last `Run` started. */
    var launched: Option<Invocation>
    /** The status names under which the output was uploaded, in order. */
    var uploads: seq<string>

    ghost predicate Valid()
      reads this`subscribers, this`inboxes
    {
      IndicesBelow(subscribers, |inboxes|) && Distinct(subscribers)
    }

    constructor (repoDir: string, command: string, args: seq<string>, context: ContextValue,
                 stateLock: string, gitOrigins: seq<string>)
      ensures this.repoDir == repoDir && this.command == command && this.args == args
      ensures this.context == context && this.stateLock == stateLock && this.gitOrigins == gitOrigins
      ensures name == "" && id == 0 && status == OPEN && authors == [] && output == ""
      ensures inboxes == [] && subscribers == [] && launched.None? && uploads == [] && extraEnv == map[]
      ensures Valid()
    {
      this.repoDir := repoDir;
      this.command := command;
      this.args := args;
      this.context := context;
      this.stateLock := stateLock;
      this.gitOrigins := gitOrigins;
      name := "";
      id := 0;
      status := OPEN;
      authors := [];
      extraEnv := map[];
      output := "";
      inboxes := [];
      subscribers := [];
      launched := None;
      uploads := [];
    }

    function OriginSet(): set<string>
      reads this`gitOrigins
    {
      set o | o in gitOrigins
    }

    /** The result every GitHub manager is sent. */
    function ResultFor(successful: bool): GH.TaskResult
      reads this`id, this`output, this`authors
    {
      GH.TaskResult(id, successful, ReportedLog(output), authors)
    }

    /** Tasks sharing a state lock share a queue; without one, a task queues by its command. */
    function SyncName(): (key: string)
      reads this`stateLock, this`command
      ensures stateLock != "" ==> key == stateLock
      ensures stateLock == "" ==> key == command
    {
      if stateLock != "" then stateLock else command
    }

    /** `getGitManagers`: each distinct origin with its checkout path; an error without origins. */
    function GetGitManagers(): (r: Result<map<string, string>>)
      reads this`gitOrigins, this`id, this`stateLock
      ensures r.Err? <==> |gitOrigins| == 0
      ensures r.Ok? ==> r.value.Keys == OriginSet()
      ensures r.Ok? ==> forall o :: o in r.value ==> r.value[o] == Git.ManagerPath(repoDir, o, stateLock)
    {
      if |gitOrigins| == 0 then Err(NoRemotesError(id))
      else Ok(map o | o in gitOrigins :: Git.ManagerPath(repoDir, o, stateLock))
    }

    /**
     * `generateRunshPath`: the checkout paths joined by ':'. Without origins
     * the error is returned only in debug mode; otherwise it is swallowed
     * and the path is empty.
     */
    function GenerateRunshPath(order: seq<string>, debug: bool): (r: Result<string>)
      reads this`gitOrigins, this`id, this`stateLock
      requires Enumerates(order, OriginSet())
      ensures |gitOrigins| == 0 && debug ==> r == Err(NoRemotesError(id))
      ensures |gitOrigins| == 0 && !debug ==> r == Ok("")
      ensures |gitOrigins| > 0 ==> r.Ok? && Join(Paths(repoDir, order, stateLock), ':') == r.value
    {
      assert |order| > 0 ==> order[0] in OriginSet();
      if |gitOrigins| == 0 && debug then Err(NoRemotesError(id))
      else Ok(Join(Paths(repoDir, order, stateLock), ':'))
    }

    /** Splitting RUNSH_PATH on ':' gives back every checkout path, when no path holds a ':'. */
    lemma RunshPathSplits(order: seq<string>, debug: bool)
      requires Enumerates(order, OriginSet()) && |gitOrigins| > 0
      requires forall o :: o in gitOrigins ==> ':' !in Git.ManagerPath(repoDir, o, stateLock)
      ensures Split(GenerateRunshPath(order, debug).value, ':') == Paths(repoDir, order, stateLock)
    {
      assert gitOrigins[0] in OriginSet();
      var paths := Paths(repoDir, order, stateLock);
      forall i | 0 <= i < |paths| ensures ':' !in paths[i] {
        assert order[i] in OriginSet();
      }
      SplitJoin(paths, ':');
    }

    /** Every channel registered now receives the current status; a terminal status then drops them all. */
    method NotifySubscribers()
      requires Valid()
      modifies this`inboxes, this`subscribers
      ensures Valid()
      ensures inboxes == Broadcast(old(inboxes), old(subscribers), status)
      ensures subscribers == if IsCompletedStatus(status) then [] else old(subscribers)
    {
      var subs := subscribers;
      var i := 0;
      while i < |subs|
        invariant 0 <= i <= |subs|
        invariant |inboxes| == |old(inboxes)|
        invariant inboxes == Broadcast(old(inboxes), subs[..i], status)
        invariant subscribers == subs && status == old(status)
      {
        var c := subs[i];
        assert subs[..i + 1][..i] == subs[..i];
        inboxes := inboxes[c := inboxes[c] + [status]];
        i := i + 1;
      }
      assert subs[..i] == subs;
      if IsCompletedStatus(status) {
        subscribers := [];
      }
    }

    /** Sets the status and notifies. */
    method MoveTo(next: TaskStatus)
      requires Valid()
      modifies this`status, this`inboxes, this`subscribers
      ensures Valid() && status == next
      ensures inboxes == Broadcast(old(inboxes), old(subscribers), next)
      ensures subscribers == if IsCompletedStatus(next) then [] else old(subscribers)
    {
      status := next;
      NotifySubscribers();
    }

    method Register() returns (r: Outcome)
      requires Valid()
      modifies this`status, this`inboxes, this`subscribers
      ensures Valid()
      ensures r.Pass? <==> old(status) == OPEN
      ensures r.Pass? ==> status == REGISTERED && inboxes == Broadcast(old(inboxes), old(subscribers), REGISTERED)
                          && subscribers == old(subscribers)
      ensures r.Failure? ==> status == old(status) && inboxes == old(inboxes) && subscribers == old(subscribers)
    {
      if status == OPEN {
        MoveTo(REGISTERED);
        r := Pass;
      } else {
        r := Failure(StateErrorText("Task cannot be scheduled registered, beacuse it is not open. Please make get request.", status));
      }
    }

    method Schedule() returns (r: Outcome)
      requires Valid()
      modifies this`status, this`inboxes, this`subscribers
      ensures Valid()
      ensures r.Pass? <==> old(status) == REGISTERED
      ensures r.Pass? ==> status == SCHEDULED && inboxes == Broadcast(old(inboxes), old(subscribers), SCHEDULED)
                          && subscribers == old(subscribers)
      ensures r.Failure? ==> status == old(status) && inboxes == old(inboxes) && subscribers == old(subscribers)
    {
      if status == REGISTERED {
        MoveTo(SCHEDULED);
        r := Pass;
      } else {
        r := Failure(StateErrorText("Task cannot be scheduled because it has been not registered. Please wait for a webhook.", status));
      }
    }

    method Start() returns (r: Outcome)
      requires Valid()
      modifies this`status, this`inboxes, this`subscribers
      ensures Valid()
      ensures r.Pass? <==> old(status) < STARTED
      ensures r.Pass? ==> status == STARTED && inboxes == Broadcast(old(inboxes), old(subscribers), STARTED)
                          && subscribers == old(subscribers)
      ensures r.Failure? ==> status == old(status) && inboxes == old(inboxes) && subscribers == old(subscribers)
    {
      if status < STARTED {
        MoveTo(STARTED);
        r := Pass;
      } else {
        r := Failure(StateErrorText("Task cannot be Started because it is not in scheduled state.", status));
      }
    }

    /** Sends the successful result to the GitHub manager of every origin that has one. */
    method ReportToAll(gh: GH.Registry, order: seq<string>)
      requires gh.Valid() && Enumerates(order, OriginSet())
      requires forall o :: o in gitOrigins && o in gh.managers ==> !gh.managers[o].closed
      modifies gh.managers.Values`pending
      ensures forall k :: k in gh.managers ==>
        gh.managers[k].pending == old(gh.managers[k].pending) + (if k in gitOrigins then [ResultFor(true)] else [])
    {
      var i := 0;
      while i < |order|
        invariant 0 <= i <= |order|
        invariant forall k :: k in gh.managers ==>
          gh.managers[k].pending == old(gh.managers[k].pending) + (if k in order[..i] then [ResultFor(true)] else [])
      {
        var o := order[i];
        assert o in OriginSet();
        var m := gh.GetManager(o);
        if m.Some? {
          m.value.Send(ResultFor(true));
        }
        forall k | k in gh.managers
          ensures k in order[..i + 1] <==> k in order[..i] || k == o
        {
          assert order[..i + 1] == order[..i] + [o];
        }
        i := i + 1;
      }
      assert order[..i] == order;
      forall k | k in gh.managers ensures k in order <==> k in gitOrigins {
        EnumeratedMember(order, OriginSet(), k);
      }
    }

    /** Sends the failed result to the GitHub manager of the first git manager, if both exist. */
    method ReportToFirst(gh: GH.Registry, order: seq<string>, runsh: set<string>, wtf: set<string>) returns (r: Outcome)
      requires gh.Valid()
      requires forall o :: o in gh.managers ==> !gh.managers[o].closed
      modifies gh.managers.Values`pending
      ensures r.Pass? <==> FirstGitManager(id, order, runsh, wtf).Ok?
      ensures r.Failure? ==> r.error == FirstGitManager(id, order, runsh, wtf).error
      ensures forall k :: k in gh.managers ==>
        gh.managers[k].pending == old(gh.managers[k].pending) +
          (if FirstGitManager(id, order, runsh, wtf) == Ok(k) then [ResultFor(false)] else [])
    {
      var first := FirstGitManager(id, order, runsh, wtf);
      if first.Err? {
        return Failure(first.error);
      }
      var m := gh.GetManager(first.value);
      if m.Some? {
        m.value.Send(ResultFor(false));
      }
      r := Pass;
    }

    /** From STARTED: DONE, then the successful result to every origin's GitHub manager. */
    method Done(gh: GH.Registry, order: seq<string>) returns (r: Outcome)
      requires Valid() && gh.Valid() && Enumerates(order, OriginSet())
      requires forall o :: o in gitOrigins && o in gh.managers ==> !gh.managers[o].closed
      modifies this`status, this`inboxes, this`subscribers, gh.managers.Values`pending
      ensures Valid()
      ensures r.Pass? <==> old(status) == STARTED && |gitOrigins| > 0
      ensures old(status) == STARTED ==> status == DONE && inboxes == Broadcast(old(inboxes), old(subscribers), DONE) && subscribers == []
      ensures old(status) != STARTED ==> status == old(status) && inboxes == old(inboxes) && subscribers == old(subscribers)
      ensures forall k :: k in gh.managers ==>
        gh.managers[k].pending == old(gh.managers[k].pending) + (if old(status) == STARTED && k in gitOrigins then [ResultFor(true)] else [])
    {
      if status != STARTED {
        return Failure(StateErrorText("Task cannot be done, because it has been not Started.", status));
      }
      MoveTo(DONE);
      if |gitOrigins| == 0 {
        return Failure(NoRemotesError(id));
      }
      ReportToAll(gh, order);
      r := Pass;
    }

    /** From STARTED: FAILED, then the failed result to the first git manager's GitHub manager. */
    method Fail(gh: GH.Registry, order: seq<string>, runsh: set<string>, wtf: set<string>) returns (r: Outcome)
      requires Valid() && gh.Valid()
      requires forall o :: o in gh.managers ==> !gh.managers[o].closed
      modifies this`status, this`inboxes, this`subscribers, gh.managers.Values`pending
      ensures Valid()
      ensures r.Pass? <==> old(status) == STARTED && FirstGitManager(id, order, runsh, wtf).Ok?
      ensures old(status) == STARTED ==> status == FAILED && inboxes == Broadcast(old(inboxes), old(subscribers), FAILED) && subscribers == []
      ensures old(status) != STARTED ==> status == old(status) && inboxes == old(inboxes) && subscribers == old(subscribers)
      ensures forall k :: k in gh.managers ==>
        gh.managers[k].pending == old(gh.managers[k].pending) +
          (if old(status) == STARTED && FirstGitManager(id, order, runsh, wtf) == Ok(k) then [ResultFor(false)] else [])
    {
      if status != STARTED {
        return Failure(StateErrorText("Task cannot be failed, because it has been not Started.", status));
      }
      MoveTo(FAILED);
      r := ReportToFirst(gh, order, runsh, wtf);
    }

    /** From STARTED: TIMEOUT, then the failed result to the first git manager's GitHub manager. */
    method TimeoutFail(gh: GH.Registry, order: seq<string>, runsh: set<string>, wtf: set<string>) returns (r: Outcome)
      requires Valid() && gh.Valid()
      requires forall o :: o in gh.managers ==> !gh.managers[o].closed
      modifies this`status, this`inboxes, this`subscribers, gh.managers.Values`pending
      ensures Valid()
      ensures r.Pass? <==> old(status) == STARTED && FirstGitManager(id, order, runsh, wtf).Ok?
      ensures old(status) == STARTED ==> status == TIMEOUT && inboxes == Broadcast(old(inboxes), old(subscribers), TIMEOUT) && subscribers == []
      ensures old(status) != STARTED ==> status == old(status) && inboxes == old(inboxes) && subscribers == old(subscribers)
      ensures forall k :: k in gh.managers ==>
        gh.managers[k].pending == old(gh.managers[k].pending) +
          (if old(status) == STARTED && FirstGitManager(id, order, runsh, wtf) == Ok(k) then [ResultFor(false)] else [])
    {
      if status != STARTED {
        return Failure(StateErrorText("Task cannot be timed out, because it has been not Started.", status));
      }
      MoveTo(TIMEOUT);
      r := ReportToFirst(gh, order, runsh, wtf);
    }

    /** FAILED from any status, with no guard; the subscribers are notified and dropped. */
    method ForceFail()
      requires Valid()
      modifies this`status, this`inboxes, this`subscribers
      ensures Valid() && status == FAILED && subscribers == []
      ensures inboxes == Broadcast(old(inboxes), old(subscribers), FAILED)
    {
      MoveTo(FAILED);
    }

    method SetStatus(s: TaskStatus)
      modifies this`status
      ensures status == s
    {
      status := s;
    }

    method SetId(newId: int)
      modifies this`id
      ensures id == newId
    {
      id := newId;
    }

    method SetAuthors(a: seq<string>)
      modifies this`authors
      ensures authors == a
    {
      authors := a;
    }

    /**
     * A new channel that already holds the current status; it stays
     * registered for later transitions only while the task is not completed.
     */
    method Subscribe() returns (c: nat)
      requires Valid()
      modifies this`inboxes, this`subscribers
      ensures Valid()
      ensures c == |old(inboxes)| && inboxes == old(inboxes) + [[status]]
      ensures subscribers == if IsCompletedStatus(status) then old(subscribers) else old(subscribers) + [c]
    {
      c := |inboxes|;
      inboxes := inboxes + [[status]];
      if !IsCompletedStatus(status) {
        subscribers := subscribers + [c];
      }
    }

    /** The GitHub manager of origin `o`, created first when there is none, and started. */
    static method EnsureStarted(gh: GH.Registry, o: string, parse: string -> Option<string>)
      requires gh.Valid()
      modifies gh`managers, gh.managers.Values`started, gh.managers.Values`consumers
      ensures gh.Valid()
      ensures gh.managers.Keys == old(gh.managers.Keys) + {o}
      ensures forall k :: k in old(gh.managers) ==> gh.managers[k] == old(gh.managers[k])
      ensures o !in old(gh.managers) ==>
        fresh(gh.managers[o]) && gh.managers[o].pending == [] && !gh.managers[o].closed &&
        gh.managers[o].repoName == GH.ExtractRepoName(o, parse(o))
      ensures gh.managers[o].started
      ensures forall k :: k in old(gh.managers) && k != o ==> gh.managers[k].started == old(gh.managers[k].started)
    {
      var found := gh.GetManager(o);
      var m: GH.Manager;
      if found.None? {
        m := gh.InitManager(o, parse(o));
      } else {
        m := found.value;
      }
      m.Start();
    }

    /**
     * `prepareGitHub`: every origin gets a started GitHub manager, a new one
     * where none exists yet. `parse` stands for `giturls.Parse` of the origin.
     */
    method PrepareGitHub(gh: GH.Registry, order: seq<string>, parse: string -> Option<string>) returns (r: Outcome)
      requires gh.Valid() && Enumerates(order, OriginSet())
      modifies gh`managers, gh.managers.Values`started, gh.managers.Values`consumers
      ensures gh.Valid()
      ensures r.Pass? <==> |gitOrigins| > 0
      ensures forall k :: k in gh.managers <==> k in old(gh.managers) || (r.Pass? && k in gitOrigins)
      ensures forall k :: k in old(gh.managers) ==> gh.managers[k] == old(gh.managers[k])
      ensures forall k :: k in gh.managers && k !in old(gh.managers) ==>
        fresh(gh.managers[k]) && gh.managers[k].pending == [] && !gh.managers[k].closed &&
        gh.managers[k].repoName == GH.ExtractRepoName(k, parse(k))
      ensures r.Pass? ==> forall o :: o in gitOrigins ==> gh.managers[o].started
      ensures forall k :: k in gh.managers ==>
        gh.managers[k].pending == (if k in old(gh.managers) then old(gh.managers[k].pending) else []) &&
        gh.managers[k].closed == (k in old(gh.managers) && old(gh.managers[k].closed))
    {
      if |gitOrigins| == 0 {
        return Failure(NoRemotesError(id));
      }
      StartAll(gh, order, parse);
      forall k ensures k in order <==> k in gitOrigins {
        EnumeratedMember(order, OriginSet(), k);
      }
      r := Pass;
    }

    /** Every origin in `order` gets a started GitHub manager, a new one where none exists yet. */
    static method StartAll(gh: GH.Registry, order: seq<string>, parse: string -> Option<string>)
      requires gh.Valid()
      modifies gh`managers, gh.managers.Values`started, gh.managers.Values`consumers
      ensures gh.Valid()
      ensures forall k :: k in gh.managers <==> k in old(gh.managers) || k in order
      ensures forall k :: k in old(gh.managers) ==> gh.managers[k] == old(gh.managers[k])
      ensures forall k :: k in gh.managers && k !in old(gh.managers) ==>
        fresh(gh.managers[k]) && gh.managers[k].pending == [] && !gh.managers[k].closed &&
        gh.managers[k].repoName == GH.ExtractRepoName(k, parse(k))
      ensures forall k :: k in order ==> gh.managers[k].started
    {
      var i := 0;
      while i < |order|
        invariant 0 <= i <= |order|
        invariant gh.Valid()
        invariant forall k :: k in gh.managers <==> k in old(gh.managers) || k in order[..i]
        invariant forall k :: k in old(gh.managers) ==> gh.managers[k] == old(gh.managers[k])
        invariant forall k :: k in gh.managers && k !in old(gh.managers) ==>
          fresh(gh.managers[k]) && gh.managers[k].pending == [] && !gh.managers[k].closed &&
          gh.managers[k].repoName == GH.ExtractRepoName(k, parse(k))
        invariant forall k :: k in order[..i] ==> gh.managers[k].started
      {
        assert order[..i + 1] == order[..i] + [order[i]];
        EnsureStarted(gh, order[i], parse);
        i := i + 1;
      }
      assert order[..i] == order;
    }

    /** The process `Run` starts: the command in the checkout of `first`, with `RunEnv`'s environment. */
    function Process(ambient: seq<string>, first: string, order: seq<string>, envOrder: seq<string>, debug: bool): Invocation
      reads this`command, this`args, this`stateLock, this`context, this`gitOrigins, this`id
      requires Enumerates(order, OriginSet())
      requires ContextVars(context).Some? ==> Enumerates(envOrder, ContextVars(context).value.Keys)
    {
      Invocation(command, args, Git.ManagerPath(repoDir, first, stateLock),
                 RunEnv(ambient, ContextVars(context), envOrder, GenerateRunshPath(order, debug)))
    }

    /** What one GitHub manager is sent when a run that reached the command ends in `final`. */
    function Reported(k: string, final: TaskStatus, first: Result<string>): seq<GH.TaskResult>
      reads this`gitOrigins, this`id, this`output, this`authors
    {
      if final == DONE then (if k in gitOrigins then [ResultFor(true)] else [])
      else if first == Ok(k) then [ResultFor(false)] else []
    }

    /**
     * Runs a scheduled task. `gh` holds the GitHub managers. Each range
     * over the managers map has its own order: `order` for choosing the
     * checkout, `pathOrder` for RUNSH_PATH, and `reportOrder` for the
     * reports of `Done`, `Fail` and `TimeoutFail`. `parse` stands for
     * `giturls.Parse`; `gitPrep` is the outcome of preparing the checkouts;
     * `runsh` and `wtf` name the origins whose checkouts hold the
     * executables; `envOrder` is the order of the context's variables;
     * `cmdErr` and `cmdOut` are how the command ends and what it prints.
     */
    method Run(ambient: seq<string>, gh: GH.Registry, order: seq<string>, pathOrder: seq<string>, reportOrder: seq<string>,
               parse: string -> Option<string>,
               gitPrep: Outcome, runsh: set<string>, wtf: set<string>, envOrder: seq<string>, debug: bool,
               cmdErr: Option<string>, cmdOut: string) returns (r: Outcome)
      requires Valid() && gh.Valid() && Enumerates(order, OriginSet())
      requires Enumerates(pathOrder, OriginSet()) && Enumerates(reportOrder, OriginSet())
      requires ContextVars(context).Some? ==> Enumerates(envOrder, ContextVars(context).value.Keys)
      requires forall k :: k in gh.managers ==> !gh.managers[k].closed
      modifies this`status, this`inboxes, this`subscribers, this`launched, this`output, this`uploads
      modifies gh`managers, gh.managers.Values`started, gh.managers.Values`consumers, gh.managers.Values`pending
      ensures Valid() && gh.Valid()
      ensures old(status) != SCHEDULED ==>
        r == Failure(UNSCHEDULED) && status == old(status) && launched == old(launched) &&
        inboxes == old(inboxes) && subscribers == old(subscribers) && gh.managers == old(gh.managers)
      ensures old(status) == SCHEDULED && (|gitOrigins| == 0 || gitPrep.Failure?) ==>
        r.Failure? && (|gitOrigins| > 0 ==> r == gitPrep) &&
        status == FAILED && launched == old(launched) && subscribers == [] &&
        inboxes == Broadcast(old(inboxes), old(subscribers), FAILED)
      ensures old(status) == SCHEDULED && |gitOrigins| > 0 && gitPrep.Pass? && FirstGitManager(id, order, runsh, wtf).Err? ==>
        r == Failure(FirstGitManager(id, order, runsh, wtf).error) &&
        status == SCHEDULED && launched == old(launched) && inboxes == old(inboxes) &&
        subscribers == old(subscribers) && output == old(output) && uploads == old(uploads) &&
        forall k :: k in gh.managers ==>
          gh.managers[k].pending == if k in old(gh.managers) then old(gh.managers[k].pending) else []
      ensures old(status) == SCHEDULED && |gitOrigins| > 0 && gitPrep.Pass? && FirstGitManager(id, order, runsh, wtf).Ok? ==>
        r == Pass && status == FinalStatus(cmdErr) && output == old(output) + cmdOut &&
        subscribers == [] && uploads == old(uploads) + [GetStatusString(FinalStatus(cmdErr))]
      ensures old(status) == SCHEDULED && |gitOrigins| > 0 && gitPrep.Pass? && FirstGitManager(id, order, runsh, wtf).Ok? ==>
        launched == old(Some(Process(ambient, FirstGitManager(id, order, runsh, wtf).value, pathOrder, envOrder, debug)))
      ensures old(status) == SCHEDULED && |gitOrigins| > 0 && gitPrep.Pass? && FirstGitManager(id, order, runsh, wtf).Ok? ==>
        inboxes == old(Broadcast(Broadcast(inboxes, subscribers, STARTED), subscribers, FinalStatus(cmdErr)))
      ensures old(status) == SCHEDULED && |gitOrigins| > 0 && gitPrep.Pass? && FirstGitManager(id, order, runsh, wtf).Ok? ==>
        forall k :: k in gh.managers ==>
          gh.managers[k].pending == (if k in old(gh.managers) then old(gh.managers[k].pending) else []) +
                                    Reported(k, FinalStatus(cmdErr), FirstGitManager(id, reportOrder, runsh, wtf))
    {
      if status != SCHEDULED {
        return Failure(UNSCHEDULED);
      }
      r := RunScheduled(ambient, gh, order, pathOrder, reportOrder, parse, gitPrep, runsh, wtf, envOrder, debug, cmdErr, cmdOut);
    }

    /** `Run` once the task is known to be scheduled. */
    method RunScheduled(ambient: seq<string>, gh: GH.Registry, order: seq<string>, pathOrder: seq<string>, reportOrder: seq<string>,
                        parse: string -> Option<string>,
                        gitPrep: Outcome, runsh: set<string>, wtf: set<string>, envOrder: seq<string>, debug: bool,
                        cmdErr: Option<string>, cmdOut: string) returns (r: Outcome)
      requires Valid() && gh.Valid() && Enumerates(order, OriginSet()) && status == SCHEDULED
      requires Enumerates(pathOrder, OriginSet()) && Enumerates(reportOrder, OriginSet())
      requires ContextVars(context).Some? ==> Enumerates(envOrder, ContextVars(context).value.Keys)
      requires forall k :: k in gh.managers ==> !gh.managers[k].closed
      modifies this`status, this`inboxes, this`subscribers, this`launched, this`output, this`uploads
      modifies gh`managers, gh.managers.Values`started, gh.managers.Values`consumers, gh.managers.Values`pending
      ensures Valid() && gh.Valid()
      ensures |gitOrigins| == 0 || gitPrep.Failure? ==>
        r.Failure? && (|gitOrigins| > 0 ==> r == gitPrep) &&
        status == FAILED && launched == old(launched) && subscribers == [] &&
        inboxes == Broadcast(old(inboxes), old(subscribers), FAILED)
      ensures |gitOrigins| > 0 && gitPrep.Pass? && FirstGitManager(id, order, runsh, wtf).Err? ==>
        r == Failure(FirstGitManager(id, order, runsh, wtf).error) &&
        status == SCHEDULED && launched == old(launched) && inboxes == old(inboxes) &&
        subscribers == old(subscribers) && output == old(output) && uploads == old(uploads) &&
        forall k :: k in gh.managers ==>
          gh.managers[k].pending == if k in old(gh.managers) then old(gh.managers[k].pending) else []
      ensures |gitOrigins| > 0 && gitPrep.Pass? && FirstGitManager(id, order, runsh, wtf).Ok? ==>
        r == Pass && status == FinalStatus(cmdErr) && output == old(output) + cmdOut &&
        subscribers == [] && uploads == old(uploads) + [GetStatusString(FinalStatus(cmdErr))]
      ensures |gitOrigins| > 0 && gitPrep.Pass? && FirstGitManager(id, order, runsh, wtf).Ok? ==>
        launched == old(Some(Process(ambient, FirstGitManager(id, order, runsh, wtf).value, pathOrder, envOrder, debug)))
      ensures |gitOrigins| > 0 && gitPrep.Pass? && FirstGitManager(id, order, runsh, wtf).Ok? ==>
        inboxes == old(Broadcast(Broadcast(inboxes, subscribers, STARTED), subscribers, FinalStatus(cmdErr)))
      ensures |gitOrigins| > 0 && gitPrep.Pass? && FirstGitManager(id, order, runsh, wtf).Ok? ==>
        forall k :: k in gh.managers ==>
          gh.managers[k].pending == (if k in old(gh.managers) then old(gh.managers[k].pending) else []) +
                                    Reported(k, FinalStatus(cmdErr), FirstGitManager(id, reportOrder, runsh, wtf))
    {
      var prep := PrepareGitHub(gh, order, parse);
      if prep.Failure? {
        ForceFail();
        return prep;
      }
      r := RunPrepared(ambient, gh, order, pathOrder, reportOrder, gitPrep, runsh, wtf, envOrder, debug, cmdErr, cmdOut);
    }

    /** `Run` once the GitHub managers are started: the git preparation, the first checkout and the command. */
    method RunPrepared(ambient: seq<string>, gh: GH.Registry, order: seq<string>, pathOrder: seq<string>, reportOrder: seq<string>,
                       gitPrep: Outcome, runsh: set<string>, wtf: set<string>, envOrder: seq<string>, debug: bool,
                       cmdErr: Option<string>, cmdOut: string) returns (r: Outcome)
      requires Valid() && gh.Valid() && Enumerates(order, OriginSet()) && status == SCHEDULED && |gitOrigins| > 0
      requires Enumerates(pathOrder, OriginSet()) && Enumerates(reportOrder, OriginSet())
      requires ContextVars(context).Some? ==> Enumerates(envOrder, ContextVars(context).value.Keys)
      requires forall k :: k in gh.managers ==> !gh.managers[k].closed
      modifies this`status, this`inboxes, this`subscribers, this`launched, this`output, this`uploads
      modifies gh.managers.Values`pending
      ensures Valid()
      ensures gitPrep.Failure? ==>
        r == gitPrep && status == FAILED && launched == old(launched) && subscribers == [] &&
        inboxes == Broadcast(old(inboxes), old(subscribers), FAILED)
      ensures gitPrep.Pass? && FirstGitManager(id, order, runsh, wtf).Err? ==>
        r == Failure(FirstGitManager(id, order, runsh, wtf).error) &&
        status == SCHEDULED && launched == old(launched) && inboxes == old(inboxes) &&
        subscribers == old(subscribers) && output == old(output) && uploads == old(uploads) &&
        forall k :: k in gh.managers ==> gh.managers[k].pending == old(gh.managers[k].pending)
      ensures gitPrep.Pass? && FirstGitManager(id, order, runsh, wtf).Ok? ==>
        r == Pass && status == FinalStatus(cmdErr) && output == old(output) + cmdOut &&
        subscribers == [] && uploads == old(uploads) + [GetStatusString(FinalStatus(cmdErr))]
      ensures gitPrep.Pass? && FirstGitManager(id, order, runsh, wtf).Ok? ==>
        launched == old(Some(Process(ambient, FirstGitManager(id, order, runsh, wtf).value, pathOrder, envOrder, debug)))
      ensures gitPrep.Pass? && FirstGitManager(id, order, runsh, wtf).Ok? ==>
        inboxes == old(Broadcast(Broadcast(inboxes, subscribers, STARTED), subscribers, FinalStatus(cmdErr)))
      ensures gitPrep.Pass? && FirstGitManager(id, order, runsh, wtf).Ok? ==>
        forall k :: k in gh.managers ==>
          gh.managers[k].pending == old(gh.managers[k].pending) + Reported(k, FinalStatus(cmdErr), FirstGitManager(id, reportOrder, runsh, wtf))
    {
      if gitPrep.Failure? {
        ForceFail();
        return gitPrep;
      }
      r := RunFirst(ambient, gh, order, pathOrder, reportOrder, runsh, wtf, envOrder, debug, cmdErr, cmdOut);
    }

    /** `Run` once the checkouts are prepared: a missing first manager is the error; otherwise the command runs as in Execute. */
    method RunFirst(ambient: seq<string>, gh: GH.Registry, order: seq<string>, pathOrder: seq<string>, reportOrder: seq<string>,
                    runsh: set<string>, wtf: set<string>, envOrder: seq<string>, debug: bool,
                    cmdErr: Option<string>, cmdOut: string) returns (r: Outcome)
      requires Valid() && gh.Valid() && Enumerates(order, OriginSet()) && status == SCHEDULED && |gitOrigins| > 0
      requires Enumerates(pathOrder, OriginSet()) && Enumerates(reportOrder, OriginSet())
      requires ContextVars(context).Some? ==> Enumerates(envOrder, ContextVars(context).value.Keys)
      requires forall k :: k in gh.managers ==> !gh.managers[k].closed
      modifies this`status, this`inboxes, this`subscribers, this`launched, this`output, this`uploads
      modifies gh.managers.Values`pending
      ensures Valid()
      ensures FirstGitManager(id, order, runsh, wtf).Err? ==>
        r == Failure(FirstGitManager(id, order, runsh, wtf).error) &&
        status == SCHEDULED && launched == old(launched) && inboxes == old(inboxes) &&
        subscribers == old(subscribers) && output == old(output) && uploads == old(uploads) &&
        forall k :: k in gh.managers ==> gh.managers[k].pending == old(gh.managers[k].pending)
      ensures FirstGitManager(id, order, runsh, wtf).Ok? ==>
        r == Pass && status == FinalStatus(cmdErr) && output == old(output) + cmdOut &&
        subscribers == [] && uploads == old(uploads) + [GetStatusString(FinalStatus(cmdErr))]
      ensures FirstGitManager(id, order, runsh, wtf).Ok? ==>
        launched == old(Some(Process(ambient, FirstGitManager(id, order, runsh, wtf).value, pathOrder, envOrder, debug)))
      ensures FirstGitManager(id, order, runsh, wtf).Ok? ==>
        inboxes == old(Broadcast(Broadcast(inboxes, subscribers, STARTED), subscribers, FinalStatus(cmdErr)))
      ensures FirstGitManager(id, order, runsh, wtf).Ok? ==>
        forall k :: k in gh.managers ==>
          gh.managers[k].pending == old(gh.managers[k].pending) + Reported(k, FinalStatus(cmdErr), FirstGitManager(id, reportOrder, runsh, wtf))
    {
      var first := FirstGitManager(id, order, runsh, wtf);
      if first.Err? {
        return Failure(first.error);
      }
      r := Execute(ambient, gh, order, pathOrder, reportOrder, runsh, wtf, envOrder, debug, cmdErr, cmdOut);
    }

    /** The part of `Run` after preparation: launch the command in the first checkout and classify its end. */
    method Execute(ambient: seq<string>, gh: GH.Registry, order: seq<string>, pathOrder: seq<string>, reportOrder: seq<string>,
                   runsh: set<string>, wtf: set<string>,
                   envOrder: seq<string>, debug: bool, cmdErr: Option<string>, cmdOut: string) returns (r: Outcome)
      requires Valid() && gh.Valid() && Enumerates(order, OriginSet()) && status == SCHEDULED
      requires Enumerates(pathOrder, OriginSet()) && Enumerates(reportOrder, OriginSet())
      requires ContextVars(context).Some? ==> Enumerates(envOrder, ContextVars(context).value.Keys)
      requires forall k :: k in gh.managers ==> !gh.managers[k].closed
      requires |gitOrigins| > 0 && FirstGitManager(id, order, runsh, wtf).Ok?
      modifies this`status, this`inboxes, this`subscribers, this`launched, this`output, this`uploads
      modifies gh.managers.Values`pending
      ensures Valid()
      ensures r == Pass && status == FinalStatus(cmdErr) && output == old(output) + cmdOut
      ensures launched == old(Some(Process(ambient, FirstGitManager(id, order, runsh, wtf).value, pathOrder, envOrder, debug)))
      ensures inboxes == old(Broadcast(Broadcast(inboxes, subscribers, STARTED), subscribers, FinalStatus(cmdErr)))
      ensures subscribers == [] && uploads == old(uploads) + [GetStatusString(FinalStatus(cmdErr))]
      ensures forall k :: k in gh.managers ==>
        gh.managers[k].pending == old(gh.managers[k].pending) + Reported(k, FinalStatus(cmdErr), FirstGitManager(id, reportOrder, runsh, wtf))
    {
      var first := FirstGitManager(id, order, runsh, wtf);
      var cwd := Git.ManagerPath(repoDir, first.value, stateLock);
      var env := RunEnv(ambient, ContextVars(context), envOrder, GenerateRunshPath(pathOrder, debug));
      Begin(Invocation(command, args, cwd, env), cmdOut);
      FirstGitManagerOrderFree(id, order, reportOrder, OriginSet(), runsh, wtf);
      r := Finish(gh, reportOrder, runsh, wtf, cmdErr);
    }

    /** Records the process, moves to STARTED and collects what the command prints. */
    method Begin(inv: Invocation, cmdOut: string)
      requires Valid() && status == SCHEDULED
      modifies this`status, this`inboxes, this`subscribers, this`launched, this`output
      ensures Valid() && status == STARTED && launched == Some(inv) && output == old(output) + cmdOut
      ensures inboxes == Broadcast(old(inboxes), old(subscribers), STARTED) && subscribers == old(subscribers)
    {
      launched := Some(inv);
      var started := Start();
      output := output + cmdOut;
    }

    /**
     * The transition that classifies how the command ended, with its
     * reports. `reportOrder` is the order of the managers map
     * `Done`, `Fail` and `TimeoutFail` range over, a range of its own.
     */
    method Finish(gh: GH.Registry, reportOrder: seq<string>, runsh: set<string>, wtf: set<string>, cmdErr: Option<string>)
      returns (r: Outcome)
      requires Valid() && gh.Valid() && Enumerates(reportOrder, OriginSet()) && status == STARTED
      requires forall k :: k in gh.managers ==> !gh.managers[k].closed
      requires |gitOrigins| > 0 && FirstGitManager(id, reportOrder, runsh, wtf).Ok?
      modifies this`status, this`inboxes, this`subscribers, this`uploads, gh.managers.Values`pending
      ensures Valid()
      ensures uploads == old(uploads) + [GetStatusString(FinalStatus(cmdErr))]
      ensures r == Pass && status == FinalStatus(cmdErr) && subscribers == []
      ensures inboxes == Broadcast(old(inboxes), old(subscribers), FinalStatus(cmdErr))
      ensures forall k :: k in gh.managers ==>
        gh.managers[k].pending == old(gh.managers[k].pending) +
          Reported(k, FinalStatus(cmdErr), FirstGitManager(id, reportOrder, runsh, wtf))
    {
      if cmdErr.Some? {
        if cmdErr.value == DEADLINE_EXCEEDED {
          r := TimeoutFail(gh, reportOrder, runsh, wtf);
        } else {
          r := Fail(gh, reportOrder, runsh, wtf);
        }
      } else {
        r := Done(gh, reportOrder);
      }
      uploads := uploads + [GetStatusString(status)];
    }
  }
}
