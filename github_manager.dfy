/**
 * The per-repository GitHub manager: a registry of managers keyed by
 * repository URL, each with a buffered channel of task results and a
 * consumer that turns every result into pull-request or issue calls.
 */
module GitHubManager {
  import opened Common
  import opened Strings
  import opened MiscConsts

  /** The outcome of one task, sent to the manager of a repository. */
  datatype TaskResult = TaskResult(taskId: int, successful: bool, log: string, authors: seq<string>)

  /** A call the manager makes on its GitHub client. */
  datatype ClientCall =
    | CreatePR(branch: string)
    | RequestReview(number: int, reviewers: seq<string>)
    | Comment(number: int, text: string)
    | Merge(number: int, message: string)
    | CreateIssue(branch: string, assignees: seq<string>)

  const COMMENT_HEAD := "Command output:\n```"
  const COMMENT_TAIL := "```"

  /** A task's output as a comment: a heading and the output inside a code fence. */
  function WrapComment(data: string): (c: string)
    ensures |c| == |COMMENT_HEAD| + |data| + |COMMENT_TAIL|
    ensures HasPrefix(c, COMMENT_HEAD) && HasSuffix(c, COMMENT_TAIL)
    ensures c[|COMMENT_HEAD|..|c| - |COMMENT_TAIL|] == data
  {
    COMMENT_HEAD + data + COMMENT_TAIL
  }

  /** Go's `%v` rendering of a `[]string`: elements separated by spaces, in brackets. */
  function FormatList(items: seq<string>): (s: string)
    ensures |s| >= 2 && s[0] == '[' && s[|s| - 1] == ']'
    ensures s[1..|s| - 1] == Join(items, ' ')
  {
    "[" + Join(items, ' ') + "]"
  }

  function MergeMessage(authors: seq<string>): string {
    "Automatically merged by tfChek (Authors " + FormatList(authors) + ")"
  }

  /** The CI branch of a task: the task prefix followed by the decimal id. */
  function TaskBranch(taskId: int): (b: string)
    ensures HasPrefix(b, TASKPREFIX) && b[|TASKPREFIX|..] == Itoa(taskId)
  {
    TASKPREFIX + Itoa(taskId)
  }

  /**
   * The client calls for one task result. `prNumber` and `issueNumber` are
   * what the client returns when asked to create a pull request or an
   * issue (None: the call failed); `fuse` disables automatic merging.
   */
  function Process(prd: TaskResult, fuse: bool, prNumber: Option<int>, issueNumber: Option<int>): (calls: seq<ClientCall>)
    ensures |calls| >= 1
    ensures calls[0] == if prd.successful then CreatePR(TaskBranch(prd.taskId))
                        else CreateIssue(TaskBranch(prd.taskId), prd.authors)
    ensures prd.successful ==> (|calls| == 1 <==> prNumber.None?)
    ensures !prd.successful ==> (|calls| == 1 <==> issueNumber.None?)
    ensures forall i :: 0 < i < |calls| ==> !calls[i].CreatePR? && !calls[i].CreateIssue? && calls[i].number == (if prd.successful then prNumber else issueNumber).value
    ensures (exists i :: 0 <= i < |calls| && calls[i].Merge?) <==> prd.successful && prNumber.Some? && !fuse
    ensures forall i :: 0 <= i < |calls| && calls[i].Comment? ==> calls[i].text == WrapComment(prd.log)
    ensures forall i :: 0 <= i < |calls| && calls[i].RequestReview? ==> calls[i].reviewers == prd.authors
  {
    var branch := TaskBranch(prd.taskId);
    if prd.successful then
      match prNumber
      case None => [CreatePR(branch)]
      case Some(n) =>
        var calls := [CreatePR(branch), RequestReview(n, prd.authors), Comment(n, WrapComment(prd.log))]
                     + (if fuse then [] else [Merge(n, MergeMessage(prd.authors))]);
        assert !fuse ==> calls[3].Merge?;
        calls
    else
      match issueNumber
      case None => [CreateIssue(branch, prd.authors)]
      case Some(n) => [CreateIssue(branch, prd.authors), Comment(n, WrapComment(prd.log))]
  }

  /** `name` with every trailing ".git" removed. */
  function StripGitSuffixes(name: string): (r: string)
    ensures !HasSuffix(r, ".git")
    ensures |r| <= |name| && name[..|r|] == r
    decreases |name|
  {
    if HasSuffix(name, ".git") then StripGitSuffixes(name[..|name| - 4]) else name
  }

  /** `k` copies of ".git". */
  function GitSuffixes(k: nat): (r: string)
    ensures |r| == 4 * k
  {
    if k == 0 then "" else GitSuffixes(k - 1) + ".git"
  }

  /** What StripGitSuffixes removes is a run of ".git" copies. */
  lemma {:induction false} StripGitSuffixesShape(name: string)
    ensures exists k: nat :: name == StripGitSuffixes(name) + GitSuffixes(k)
    decreases |name|
  {
    var r := StripGitSuffixes(name);
    if HasSuffix(name, ".git") {
      var shorter := name[..|name| - 4];
      StripGitSuffixesShape(shorter);
      var k: nat :| shorter == r + GitSuffixes(k);
      assert name == shorter + ".git";
      assert name == r + GitSuffixes(k + 1);
    } else {
      assert name == r + GitSuffixes(0);
    }
  }

  /** A name without the suffix is recovered from any number of ".git" copies after it. */
  lemma {:induction false} StripGitSuffixesRoundTrip(r: string, k: nat)
    requires !HasSuffix(r, ".git")
    ensures StripGitSuffixes(r + GitSuffixes(k)) == r
  {
    if k > 0 {
      StripGitSuffixesRoundTrip(r, k - 1);
      var n := r + GitSuffixes(k);
      assert n == (r + GitSuffixes(k - 1)) + ".git";
      assert n[|n| - 4..] == ".git";
      assert n[..|n| - 4] == r + GitSuffixes(k - 1);
    } else {
      assert r + GitSuffixes(0) == r;
    }
  }

  /** Index just after the last `/` of `path`. */
  function AfterLastSlash(path: string): (i: nat)
    requires '/' in path
    ensures 0 < i <= |path| && path[i - 1] == '/' && '/' !in path[i..]
  {
    if path[|path| - 1] == '/' then |path|
    else
      assert '/' in path[..|path| - 1] by {
        var k :| 0 <= k < |path| && path[k] == '/';
        assert path[..|path| - 1][k] == '/';
      }
      var i := AfterLastSlash(path[..|path| - 1]);
      assert path[i..] == path[..|path| - 1][i..] + [path[|path| - 1]];
      i
  }

  /**
   * The repository name the GitHub client is created with. `parsedPath` is
   * the path component of the parsed URL (None: the URL did not parse).
   * The name is the last path segment without its ".git" suffixes; an
   * unparsable URL or a path without `/` falls back to the URL itself.
   */
  function ExtractRepoName(repository: string, parsedPath: Option<string>): (name: string)
    ensures parsedPath.None? ==> name == repository
    ensures parsedPath.Some? && '/' !in parsedPath.value ==> name == repository
    ensures parsedPath.Some? && '/' in parsedPath.value ==> '/' !in name && !HasSuffix(name, ".git")
    ensures parsedPath.Some? && '/' in parsedPath.value ==>
      exists k: nat :: parsedPath.value[AfterLastSlash(parsedPath.value)..] == name + GitSuffixes(k)
  {
    match parsedPath
    case None => repository
    case Some(path) =>
      if '/' !in path then repository
      else
        var i := AfterLastSlash(path);
        var r := StripGitSuffixes(path[i..]);
        assert forall k :: 0 <= k < |r| ==> r[k] == path[i..][k];
        StripGitSuffixesShape(path[i..]);
        r
  }

  /** A manager: the result channel (capacity 20), its client's target and its state flags. */
  class Manager {
    const repository: string
    const repoName: string
    /** Results sent but not yet taken by the consumer. */
    var pending: seq<TaskResult>
    var started: bool
    var stopped: bool
    /** Whether the result channel has been closed. */
    var closed: bool
    /** How many consumer goroutines have been launched. */
    var consumers: nat

    constructor (repository: string, repoName: string)
      ensures this.repository == repository && this.repoName == repoName
      ensures pending == [] && !started && !stopped && !closed && consumers == 0
    {
      this.repository := repository;
      this.repoName := repoName;
      pending := [];
      started := false;
      stopped := false;
      closed := false;
      consumers := 0;
    }

    /** Only the first call launches the consumer. */
    method Start()
      modifies this`started, this`consumers
      ensures started
      ensures consumers == old(consumers) + (if old(started) then 0 else 1)
    {
      if !started {
        started := true;
        consumers := consumers + 1;
      }
    }

    /** A send on the result channel; sending on a closed channel panics. */
    method Send(r: TaskResult)
      requires !closed
      modifies this`pending
      ensures pending == old(pending) + [r]
    {
      pending := pending + [r];
    }

    /** Marks the manager stopped and closes its channel; a second close panics. */
    method Close()
      requires !closed
      modifies this`stopped, this`closed
      ensures stopped && closed
    {
      stopped := true;
      closed := true;
    }

    /**
     * One turn of the consumer loop: it exits once stopped, blocks on an
     * empty open channel, skips the nil a closed channel yields, and
     * otherwise processes the oldest result.
     */
    method ConsumerStep(fuse: bool, prNumber: Option<int>, issueNumber: Option<int>) returns (step: ConsumerTurn)
      modifies this`pending
      ensures old(stopped) ==> step == Exited && pending == old(pending)
      ensures !old(stopped) && old(pending) == [] ==> pending == [] && step == (if closed then Skipped else Blocked)
      ensures !old(stopped) && old(pending) != [] ==>
        pending == old(pending)[1..] && step == Processed(Process(old(pending)[0], fuse, prNumber, issueNumber))
    {
      if stopped {
        return Exited;
      }
      if pending == [] {
        return if closed then Skipped else Blocked;
      }
      var prd := pending[0];
      pending := pending[1..];
      step := Processed(Process(prd, fuse, prNumber, issueNumber));
    }
  }

  datatype ConsumerTurn = Exited | Blocked | Skipped | Processed(calls: seq<ClientCall>)

  /** The process-wide table of managers, keyed by repository URL. */
  class Registry {
    var managers: map<string, Manager>

    /** Every manager is stored under its own repository, so different keys hold different managers. */
    ghost predicate Valid()
      reads this, managers.Values
    {
      forall k :: k in managers ==> managers[k].repository == k
    }

    constructor ()
      ensures managers == map[] && Valid()
    {
      managers := map[];
    }

    /**
     * Installs a fresh, unstarted manager for the repository, replacing any
     * previous one. `parsedPath` is the URL parser's view of its path.
     */
    method InitManager(repository: string, parsedPath: Option<string>) returns (m: Manager)
      requires Valid()
      modifies this`managers
      ensures Valid()
      ensures fresh(m) && managers == old(managers)[repository := m]
      ensures m.repository == repository && m.repoName == ExtractRepoName(repository, parsedPath)
      ensures m.pending == [] && !m.started && !m.stopped && !m.closed && m.consumers == 0
    {
      m := new Manager(repository, ExtractRepoName(repository, parsedPath));
      managers := managers[repository := m];
    }

    /** The manager of a repository, or nil when none was initialised. */
    function GetManager(repository: string): (m: Option<Manager>)
      reads this
      ensures m.Some? <==> repository in managers
      ensures m.Some? ==> m.value == managers[repository]
    {
      if repository in managers then Some(managers[repository]) else None
    }

    /** Every manager, in the map's visiting order `order`; nil (empty) when there are none. */
    method GetAllManagers(order: seq<string>) returns (ms: seq<Manager>)
      requires Enumerates(order, managers.Keys)
      ensures |ms| == |order|
      ensures forall i :: 0 <= i < |order| ==> ms[i] == managers[order[i]]
    {
      ms := [];
      var i := 0;
      while i < |order|
        invariant 0 <= i <= |order|
        invariant |ms| == i
        invariant forall j :: 0 <= j < i ==> ms[j] == managers[order[j]]
      {
        assert order[i] in managers.Keys;
        ms := ms + [managers[order[i]]];
        i := i + 1;
      }
    }
  }

  /** The branch, the comment and the merge message of a successful run with a pull request. */
  lemma ProcessSuccessMerges(prd: TaskResult, n: int)
    requires prd.successful
    ensures Process(prd, false, Some(n), None) ==
      [CreatePR(TaskBranch(prd.taskId)), RequestReview(n, prd.authors), Comment(n, WrapComment(prd.log)),
       Merge(n, MergeMessage(prd.authors))]
  {
  }

  /** The path of a cloned GitHub URL yields the bare repository name. */
  lemma ExtractRepoNameExample()
    ensures ExtractRepoName("git@github.com:wix-system/rg.git", Some("wix-system/rg.git")) == "rg"
  {
    assert AfterLastSlash("wix-system/rg.git") == 11 by {
      assert "wix-system/rg.git"[11..] == "rg.git";
    }
    assert "wix-system/rg.git"[11..] == "rg.git";
    assert StripGitSuffixes("rg.git") == "rg" by {
      assert "rg.git"[..2] == "rg";
    }
  }
}
