/**
 * The HTTP handlers' decision logic: which pushes launch a task, how a
 * branch names its task, the authors of a push, and how a posted
 * `run.sh` command becomes a registered, cancellable task.
 */
module Api {
  import opened Common
  import opened Strings
  import opened MiscConsts
  import opened RunShTaskModel
  import opened TaskManagerModel
  import Runner

  /** What a handler writes back: nothing at all, or a status code and a body. */
  datatype Reply = NoReply | Reply(code: int, body: string)

  predicate NoDuplicates(s: seq<string>) {
    forall i, j :: 0 <= i < j < |s| ==> s[i] != s[j]
  }

  /**
   * `fetch_authors`: every commit author's user name once. The source
   * collects them in a map and lists the map in its unspecified order;
   * the model lists them in order of first appearance. A nil payload
   * gives an empty list.
   */
  method FetchAuthors(commits: Option<seq<string>>) returns (res: seq<string>)
    ensures NoDuplicates(res)
    ensures forall a :: a in res <==> commits.Some? && a in commits.value
  {
    res := [];
    if commits.None? {
      return;
    }
    var cs := commits.value;
    var i := 0;
    while i < |cs|
      invariant 0 <= i <= |cs|
      invariant NoDuplicates(res)
      invariant forall a :: a in res <==> a in cs[..i]
    {
      assert cs[..i + 1] == cs[..i] + [cs[i]];
      if cs[i] !in res {
        res := res + [cs[i]];
      }
      i := i + 1;
    }
    assert cs[..i] == cs;
  }

  /** The pushed branch: the reference with every "refs/heads/" removed. */
  function BranchName(ref: string): string {
    RemoveAll(ref, "refs/heads/")
  }

  /** The branch of a pushed head reference is the name after "refs/heads/". */
  lemma BranchNameOfHead(branch: string)
    requires !Contains(branch, "refs/heads/")
    ensures BranchName("refs/heads/" + branch) == branch
  {
    var ref := "refs/heads/" + branch;
    assert HasPrefix(ref, "refs/heads/");
    assert ref[|"refs/heads/"|..] == branch;
    RemoveAllAbsent(branch, "refs/heads/");
  }

  /** A branch launches a task only if it begins with the task prefix and a digit. */
  predicate Eligible(branch: string) {
    HasPrefix(branch, TASKPREFIX) && |branch| > |TASKPREFIX| && IsDigit(branch[|TASKPREFIX|])
  }

  /** The second '-'-separated chunk of an eligible branch, which names the task. */
  function TaskIdChunk(branch: string): (c: string)
    requires Eligible(branch)
    ensures '-' !in c
  {
    assert branch[4] == '-';
    Split(branch, '-')[1]
  }

  /** The chunk after the prefix runs up to the next '-' or to the end of the branch. */
  lemma BranchChunk(d: string, rest: string)
    requires |d| > 0 && IsDigit(d[0]) && '-' !in d
    requires rest == "" || rest[0] == '-'
    ensures Eligible(TASKPREFIX + d + rest) && TaskIdChunk(TASKPREFIX + d + rest) == d
  {
    var b := TASKPREFIX + d + rest;
    assert b[..|TASKPREFIX|] == TASKPREFIX;
    assert IndexOf(b, '-') == 4 by {
      assert b[4] == '-' && forall k :: 0 <= k < 4 ==> b[k] != '-';
    }
    var t := b[5..];
    assert t == d + rest;
    assert Split(b, '-') == [b[..4]] + Split(t, '-');
    if rest == "" {
      assert t == d;
      assert Split(t, '-') == [t];
    } else {
      assert t[|d|] == '-';
      assert IndexOf(t, '-') == |d| by {
        assert forall k :: 0 <= k < |d| ==> t[k] == d[k];
      }
      assert t[..|d|] == d;
    }
  }

  /** "tfci-12x" is eligible, but its chunk is not a number. */
  lemma NonNumericChunk()
    ensures Eligible("tfci-12x") && Atoi(TaskIdChunk("tfci-12x")).None?
  {
    BranchChunk("12x", "");
    assert !AllDigits("12x") by { assert !IsDigit("12x"[2]); }
  }

  /**
   * The push-event branch of `RunShWebHook`. A push that did not create
   * the branch gets no reply. An ineligible branch gets 200; one whose
   * task id is not a number gets 400; an unknown task 404. Otherwise
   * the push's authors are given to the task and it is launched: 202,
   * or 400 with the launch error.
   */
  method WebHook(tm: TaskManagerImpl, created: bool, ref: string, commits: seq<string>) returns (reply: Reply)
    modifies tm`threads, tm.tasks.Values
    ensures !created ==> reply == NoReply && tm.threads == old(tm.threads)
    ensures created && !Eligible(BranchName(ref)) ==> reply == Reply(200, "") && tm.threads == old(tm.threads)
    ensures created && Eligible(BranchName(ref)) && Atoi(TaskIdChunk(BranchName(ref))).None? ==>
      reply == Reply(400, "Cannot parse task id " + TaskIdChunk(BranchName(ref))) && tm.threads == old(tm.threads)
    ensures created && Eligible(BranchName(ref)) && Atoi(TaskIdChunk(BranchName(ref))).Some? ==>
      var id := Atoi(TaskIdChunk(BranchName(ref))).value;
      (id !in tm.tasks ==> reply == Reply(404, "Cannot find task by id: " + Itoa(id)) && tm.threads == old(tm.threads)) &&
      (id in tm.tasks ==> LaunchedForPush(tm, id, commits, reply, old(tm.tasks[id].status), old(tm.threads),
                                          old(tm.Queue(tm.tasks[id].SyncName()))))
  {
    if !created {
      return NoReply;
    }
    var branch := RemoveAll(ref, "refs/heads/");
    if !Eligible(branch) {
      return Reply(200, "");
    }
    var chunk := TaskIdChunk(branch);
    var parsed := Atoi(chunk);
    if parsed.None? {
      return Reply(400, "Cannot parse task id " + chunk);
    }
    var id := parsed.value;
    var task := tm.Get(id);
    if task == null {
      return Reply(404, "Cannot find task by id: " + Itoa(id));
    }
    reply := LaunchForPush(tm, id, commits);
  }

  /** What a push does to a known task: its authors are set and it is launched if OPEN. */
  ghost predicate LaunchedForPush(tm: TaskManagerImpl, id: int, commits: seq<string>, reply: Reply,
                                  oldStatus: TaskStatus, oldThreads: map<string, seq<RunShTask>>, oldQueue: seq<RunShTask>)
    requires id in tm.tasks
    reads tm`tasks, tm`threads, tm.tasks[id]
  {
    var t := tm.tasks[id];
    NoDuplicates(t.authors) && (forall a :: a in t.authors <==> a in commits) &&
    (oldStatus == OPEN ==>
      reply == Reply(202, "") && t.status == SCHEDULED && tm.threads == oldThreads[t.SyncName() := oldQueue + [t]]) &&
    (oldStatus != OPEN ==>
      reply == Reply(400, LaunchError(id, "cannot launch task in not open status")) &&
      tm.threads == oldThreads)
  }

  function LaunchError(id: int, err: string): string {
    "Cannot launch task id " + Itoa(id) + ". Error: " + err
  }

  /** The end of `RunShWebHook` for a task the manager knows. */
  method LaunchForPush(tm: TaskManagerImpl, id: int, commits: seq<string>) returns (reply: Reply)
    requires id in tm.tasks
    modifies tm`threads, {tm.tasks[id]}`authors, {tm.tasks[id]}`status
    ensures id in tm.tasks && tm.tasks == old(tm.tasks)
    ensures LaunchedForPush(tm, id, commits, reply, old(tm.tasks[id].status), old(tm.threads),
                            old(tm.Queue(tm.tasks[id].SyncName())))
  {
    var task := tm.tasks[id];
    ghost var status := task.status;
    ghost var key := task.SyncName();
    ghost var threads := tm.threads;
    ghost var queue := tm.Queue(key);
    var authors := FetchAuthors(Some(commits));
    task.SetAuthors(authors);
    assert task.SyncName() == key && tm.Queue(key) == queue;
    var err := tm.LaunchById(id);
    assert task.authors == authors && task.SyncName() == key;
    if err.Failure? {
      assert status != OPEN && tm.threads == threads;
      reply := Reply(400, LaunchError(id, err.error));
    } else {
      assert status == OPEN && tm.threads == threads[key := queue + [task]];
      reply := Reply(202, "");
    }
  }

  /** The variables `RunShPost` always puts in the task's context. */
  const POST_ENV: map<string, string> := map["TFRESDIF_NOPB" := "true", "NOTIFY_TFCHEK" := "false"]

  /**
   * `submitCommand`: the command is added to the shared manager with the
   * context (holding a pointer to the variables) and its cancel function
   * is registered; either failing is the answer, with no task.
   */
  method SubmitCommand(tm: TaskManagerImpl, cmd: Runner.RunShCmd, env: map<string, string>, cancel: CancelToken)
    returns (t: RunShTask?, r: Outcome)
    modifies tm`sequence, tm`tasks, tm.store`text, tm`cancel
    ensures r.Pass? <==> cmd.env != ""
    ensures r.Failure? ==> t == null && tm.tasks == old(tm.tasks) && tm.cancel == old(tm.cancel)
    ensures r.Pass? ==> t != null && fresh(t) && t.status == OPEN && t.context == MapPointer(env) &&
                        t.id == tm.sequence && tm.sequence == IncInt(old(tm.sequence)) &&
                        tm.tasks == old(tm.tasks)[t.id := t] && tm.cancel == old(tm.cancel)[t.id := Some(cancel)]
  {
    t, r := tm.AddRunSh(cmd, MapPointer(env));
    if r.Failure? {
      return;
    }
    r := tm.RegisterCancel(t.id, cancel);
    if r.Failure? {
      t := null;
    }
  }

  /**
   * `RunShPost` after the body is decoded: a command that cannot be
   * built is a 400, a task that cannot be submitted a 500, and a
   * submitted task is answered with 201 and its id.
   */
  method RunShPost(tm: TaskManagerImpl, cmd: Result<Runner.RunShCmd>, cancel: CancelToken) returns (reply: Reply)
    modifies tm`sequence, tm`tasks, tm.store`text, tm`cancel
    ensures cmd.Err? ==> reply == Reply(400, "Cannot create background task. Error: " + cmd.error) &&
                         tm.tasks == old(tm.tasks)
    ensures cmd.Ok? && cmd.value.env == "" ==> reply.Reply? && reply.code == 500 && tm.tasks == old(tm.tasks)
    ensures cmd.Ok? && cmd.value.env != "" ==>
      reply == Reply(201, Itoa(tm.sequence)) && tm.sequence in tm.tasks &&
      tm.tasks[tm.sequence].context == MapPointer(POST_ENV) && tm.tasks[tm.sequence].status == OPEN
  {
    if cmd.Err? {
      return Reply(400, "Cannot create background task. Error: " + cmd.error);
    }
    var t, r := SubmitCommand(tm, cmd.value, POST_ENV, cancel);
    if r.Failure? {
      return Reply(500, "Cannot create background task. Error: " + r.error);
    }
    reply := Reply(201, Itoa(t.id));
  }
}
