/**
 * The built-in git manager: one per remote URL and terraform state, with
 * the webhook locks that hold back fetching until GitHub reports the
 * branch, the fetch/pull retry loop of SwitchTo, and remote selection.
 */
module GitManager {
  import opened Common
  import opened Strings

  /**
   * A webhook lock: a nil channel, or a channel of capacity one that may
   * hold a branch name and may have been closed.
   */
  datatype Slot = NilSlot | Chan(value: Option<string>, closed: bool)

  /** A git remote as go-git configures it: its name and its fetch refspecs. */
  datatype Remote = Remote(name: string, fetch: seq<string>)

  const UP_TO_DATE := "already up-to-date"
  /** How many times SwitchTo tries a fetch and a pull. */
  const ATTEMPTS := 5
  const BRANCH_REFS := "refs/heads/"

  /** Go's `x << n` on a non-negative value. */
  function ShiftLeft(x: nat, n: nat): nat {
    if n == 0 then x else 2 * ShiftLeft(x, n - 1)
  }

  /** What a receive on the lock yields: the held name, or "" once a closed channel is drained. */
  function Received(s: Slot): string
    requires s.Chan?
  {
    if s.value.Some? then s.value.value else ""
  }

  /** The registry key of a manager: the URL, with `;state` appended when a state is given. */
  function ManagerKey(url: string, state: string): (key: string)
    ensures state == "" ==> key == url
    ensures state != "" ==> |key| == |url| + 1 + |state| && HasPrefix(key, url) && key[|url|] == ';' && key[|url| + 1..] == state
  {
    if state == "" then url else url + ";" + state
  }

  /** `strings.TrimRight(s, "/")`: every trailing slash removed. */
  function TrimRightSlash(s: string): (r: string)
    ensures |r| <= |s| && s[..|r|] == r
    ensures |r| > 0 ==> r[|r| - 1] != '/'
    ensures forall i :: |r| <= i < |s| ==> s[i] == '/'
  {
    if |s| > 0 && s[|s| - 1] == '/' then TrimRightSlash(s[..|s| - 1]) else s
  }

  /** The last `/`-separated chunk of a URL: the repository's directory name. */
  function LastChunk(url: string): (name: string)
    ensures '/' !in name
  {
    var chunks := Split(url, '/');
    chunks[|chunks| - 1]
  }

  /** Where the repository of `url` is checked out for `state`, under `repoDir`. */
  function ManagerPath(repoDir: string, url: string, state: string): (path: string)
    ensures |path| > 0 ==> path[|path| - 1] != '/'
  {
    TrimRightSlash(repoDir + "/" + LastChunk(url) + "/" + state)
  }

  /** Without a state, a repository lives directly under the repository directory. */
  lemma ManagerPathStateless(repoDir: string, url: string)
    requires LastChunk(url) != ""
    ensures ManagerPath(repoDir, url, "") == repoDir + "/" + LastChunk(url)
  {
    var name := LastChunk(url);
    var s := repoDir + "/" + name + "/" + "";
    var t := repoDir + "/" + name;
    assert s == t + "/";
    assert s[..|s| - 1] == t;
    assert t[|t| - 1] == name[|name| - 1];
    assert name[|name| - 1] != '/' by { assert name[|name| - 1] in name; }
    assert TrimRightSlash(s) == TrimRightSlash(t);
    assert TrimRightSlash(t) == t;
  }

  /** Keys are ambiguous: a URL containing `;` and a stateless lookup can meet another URL with a state. */
  lemma ManagerKeyCollision()
    ensures ManagerKey("a;b", "") == ManagerKey("a", "b")
  {
  }

  /**
   * The refspecs fetched for a reference: the remote's own, plus one that
   * maps the branch onto the remote-tracking branch. Only branch references
   * are accepted.
   */
  function GetBranchRefSpecs(gitRef: string, remote: Remote): (r: Result<seq<string>>)
    ensures r.Ok? <==> HasPrefix(gitRef, BRANCH_REFS)
    ensures r.Ok? ==> |r.value| == |remote.fetch| + 1 && r.value[..|remote.fetch|] == remote.fetch
  {
    if !HasPrefix(gitRef, BRANCH_REFS) then Err(gitRef + " should be branch")
    else
      var short := gitRef[|BRANCH_REFS|..];
      Ok(remote.fetch + ["+" + BRANCH_REFS + short + ":refs/remotes/" + remote.name + "/" + short])
  }

  /** For the branch reference of a branch name, the added refspec tracks exactly that branch. */
  lemma BranchRefSpecOfBranch(branch: string, remote: Remote)
    ensures GetBranchRefSpecs(BRANCH_REFS + branch, remote) ==
      Ok(remote.fetch + ["+refs/heads/" + branch + ":refs/remotes/" + remote.name + "/" + branch])
  {
    assert (BRANCH_REFS + branch)[..|BRANCH_REFS|] == BRANCH_REFS;
    assert (BRANCH_REFS + branch)[|BRANCH_REFS|..] == branch;
    assert "+" + BRANCH_REFS == "+refs/heads/";
  }

  /** The last remote called "origin", if any. */
  function LastOrigin(remotes: seq<Remote>): (r: Option<Remote>)
    ensures r.Some? ==> r.value in remotes && r.value.name == "origin"
    ensures r.None? <==> forall i :: 0 <= i < |remotes| ==> remotes[i].name != "origin"
  {
    if |remotes| == 0 then None
    else if remotes[|remotes| - 1].name == "origin" then Some(remotes[|remotes| - 1])
    else LastOrigin(remotes[..|remotes| - 1])
  }

  /**
   * The remote `initRemotes` settles on when `rs` is listed: the last one
   * named "origin"; failing that the one held before, or else the first.
   */
  function ChosenRemote(rs: seq<Remote>, before: Option<Remote>): (c: Remote)
    requires |rs| > 0
    ensures (exists i :: 0 <= i < |rs| && rs[i].name == "origin") ==> c.name == "origin" && c in rs
    ensures (forall i :: 0 <= i < |rs| ==> rs[i].name != "origin") ==> c == if before.Some? then before.value else rs[0]
  {
    match LastOrigin(rs)
    case Some(o) => o
    case None => if before.Some? then before.value else rs[0]
  }

  /** Whether one of the five attempts of a retry loop succeeds or finds everything up to date. */
  predicate Settles(outcomes: seq<Option<string>>)
    requires |outcomes| >= ATTEMPTS
  {
    exists i :: 0 <= i < ATTEMPTS && (outcomes[i].None? || outcomes[i] == Some(UP_TO_DATE))
  }

  /**
   * The fetch (or pull) loop of SwitchTo. `outcomes[i]` is the error of
   * attempt i (None: success). Success and "already up-to-date" end the
   * loop; any other error is followed by a cool-down of `4 << i` seconds,
   * skipped after the last attempt. The loop's error is reported only when
   * every attempt failed for a reason other than being up to date.
   */
  method RetryLoop(outcomes: seq<Option<string>>) returns (err: Option<string>, attempts: nat, sleeps: seq<nat>)
    requires |outcomes| >= ATTEMPTS
    ensures 1 <= attempts <= ATTEMPTS
    ensures forall j :: 0 <= j < attempts - 1 ==> outcomes[j].Some? && outcomes[j].value != UP_TO_DATE
    ensures attempts < ATTEMPTS ==> outcomes[attempts - 1].None? || outcomes[attempts - 1] == Some(UP_TO_DATE)
    ensures |sleeps| == attempts - 1 && forall j :: 0 <= j < |sleeps| ==> sleeps[j] == ShiftLeft(4, j)
    ensures err.Some? <==> attempts == ATTEMPTS && outcomes[ATTEMPTS - 1].Some? && outcomes[ATTEMPTS - 1] != Some(UP_TO_DATE)
    ensures err.Some? ==> err == outcomes[ATTEMPTS - 1]
    ensures err.None? <==> Settles(outcomes)
  {
    var last: Option<string> := None;
    attempts := 0;
    sleeps := [];
    var i := 0;
    while i < ATTEMPTS
      invariant 0 <= i <= ATTEMPTS && attempts == i
      invariant forall j :: 0 <= j < i ==> outcomes[j].Some? && outcomes[j].value != UP_TO_DATE
      invariant |sleeps| == (if i < ATTEMPTS then i else ATTEMPTS - 1) && forall j :: 0 <= j < |sleeps| ==> sleeps[j] == ShiftLeft(4, j)
      invariant i > 0 ==> last == outcomes[i - 1]
    {
      last := outcomes[i];
      attempts := i + 1;
      if last.None? || last.value == UP_TO_DATE {
        break;
      }
      if i < ATTEMPTS - 1 {
        sleeps := sleeps + [ShiftLeft(4, i)];
      }
      i := i + 1;
    }
    err := if last.Some? && last.value != UP_TO_DATE then last else None;
    if err.None? {
      assert outcomes[attempts - 1].None? || outcomes[attempts - 1] == Some(UP_TO_DATE);
    }
  }

  /** A cool-down schedule of 4, 8, 16 and 32 seconds when every attempt fails. */
  lemma CoolDownSchedule()
    ensures [ShiftLeft(4, 0), ShiftLeft(4, 1), ShiftLeft(4, 2), ShiftLeft(4, 3)] == [4, 8, 16, 32]
  {
  }

  class BuiltInManager {
    const remoteUrl: string
    const repoPath: string
    /** The registry key the manager was created under. */
    ghost const key: string
    var webhookLocks: map<string, Slot>
    /** Whether a repository has been opened or cloned (`b.repo != nil`). */
    var repoOpen: bool
    /** The remote fetches and pulls go through. */
    var remote: Option<Remote>

    constructor (key: string, remoteUrl: string, repoPath: string)
      ensures this.key == key && this.remoteUrl == remoteUrl && this.repoPath == repoPath
      ensures webhookLocks == map[] && !repoOpen && remote.None?
    {
      this.key := key;
      this.remoteUrl := remoteUrl;
      this.repoPath := repoPath;
      webhookLocks := map[];
      repoOpen := false;
      remote := None;
    }

    /**
     * Waits for the webhook of `branch`. A negative timeout, an unknown
     * branch and a nil lock are errors. A held name equal to the branch
     * consumes the lock; another non-empty name is an error; the empty name
     * of a drained closed lock is accepted. An empty open lock times out
     * without error (no other goroutine runs in this sequential model).
     */
    method WaitForWebhook(branch: string, timeout: int) returns (r: Outcome)
      modifies this`webhookLocks
      ensures timeout < 0 || branch !in old(webhookLocks) || old(webhookLocks[branch]).NilSlot? ==>
        r.Failure? && webhookLocks == old(webhookLocks)
      ensures timeout >= 0 && branch in old(webhookLocks) && old(webhookLocks[branch]) == Chan(None, false) ==>
        r.Pass? && webhookLocks == old(webhookLocks)
      ensures timeout >= 0 && branch in old(webhookLocks) && old(webhookLocks[branch]).Chan? &&
              (old(webhookLocks[branch]).value.Some? || old(webhookLocks[branch]).closed) ==>
        var v := Received(old(webhookLocks[branch]));
        (r.Pass? <==> (v == branch || v == "")) &&
        webhookLocks == if v == branch then old(webhookLocks) - {branch}
                        else old(webhookLocks)[branch := Chan(None, old(webhookLocks[branch]).closed)]
    {
      if timeout < 0 {
        return Failure("timeout value cannot be negative");
      }
      if branch !in webhookLocks {
        return Failure("no lock for a branch " + branch + " in repo " + repoPath + " exists");
      }
      var c := webhookLocks[branch];
      if c.NilSlot? {
        return Failure("webhook lock for branch " + branch + " is nil");
      }
      if c.value.None? && !c.closed {
        return Pass;
      }
      var name := Received(c);
      if name != branch {
        webhookLocks := webhookLocks[branch := Chan(None, c.closed)];
        if |name| > 0 {
          return Failure("webhook lock for branch " + branch + " received wrong value " + name +
                         " in its bucket. It should be the same. This should never happen. Please contact developers");
        }
        return Pass;
      }
      webhookLocks := webhookLocks - {branch};
      r := Pass;
    }

    /** Creates an empty lock for a branch that has none. */
    method RegisterWebhookLock(branch: string) returns (r: Outcome)
      modifies this`webhookLocks
      ensures r.Pass? <==> branch !in old(webhookLocks)
      ensures webhookLocks == if r.Pass? then old(webhookLocks)[branch := Chan(None, false)] else old(webhookLocks)
    {
      if branch in webhookLocks {
        return Failure("git manager for " + repoPath + " already has locking channel for the branch " + branch);
      }
      webhookLocks := webhookLocks[branch := Chan(None, false)];
      r := Pass;
    }

    /**
     * Puts the branch name into its lock and closes it. A lock that was
     * already filled or closed would block or panic, so only an empty open
     * lock may be unlocked.
     */
    method UnlockWebhookLock(branch: string) returns (r: Outcome)
      requires branch in webhookLocks ==> webhookLocks[branch] == Chan(None, false)
      modifies this`webhookLocks
      ensures r.Pass? <==> branch in old(webhookLocks)
      ensures webhookLocks == if r.Pass? then old(webhookLocks)[branch := Chan(Some(branch), true)] else old(webhookLocks)
    {
      if branch !in webhookLocks {
        return Failure("webhook for branch " + branch + " has not been registered");
      }
      webhookLocks := webhookLocks[branch := Chan(Some(branch), true)];
      r := Pass;
    }

    /**
     * Chooses the remote: the last one named "origin"; failing that the one
     * chosen before, or else the first. `remotes` is what the repository lists.
     */
    method InitRemotes(remotes: Result<seq<Remote>>) returns (r: Outcome)
      modifies this`remote
      ensures r.Pass? <==> remotes.Ok? && |remotes.value| > 0
      ensures r.Failure? ==> remote == old(remote)
      ensures r.Pass? ==> remote == Some(ChosenRemote(remotes.value, old(remote)))
    {
      if remotes.Err? {
        return Failure(remotes.error);
      }
      var rs := remotes.value;
      if |rs| == 0 {
        return Failure("No remotes available");
      }
      var i := 0;
      while i < |rs|
        invariant 0 <= i <= |rs|
        invariant remote == if LastOrigin(rs[..i]).Some? then LastOrigin(rs[..i]) else old(remote)
      {
        assert rs[..i + 1][..i] == rs[..i];
        if rs[i].name == "origin" {
          remote := Some(rs[i]);
        }
        i := i + 1;
      }
      assert rs[..|rs|] == rs;
      if remote.None? {
        remote := Some(rs[0]);
      }
      r := Pass;
    }

    /** Clones the repository (`cloneErr`: the clone's error); a failure to pick a remote is not an error. */
    method Clone(cloneErr: Option<string>, remotes: Result<seq<Remote>>) returns (r: Outcome)
      modifies this`repoOpen, this`remote
      ensures r.Pass? <==> cloneErr.None?
      ensures repoOpen == r.Pass?
      ensures r.Failure? ==> remote == old(remote)
      ensures r.Pass? ==> remote == if remotes.Ok? && |remotes.value| > 0 then Some(ChosenRemote(remotes.value, old(remote)))
                                    else old(remote)
    {
      if cloneErr.Some? {
        repoOpen := false;
        return Failure(cloneErr.value);
      }
      repoOpen := true;
      var ignored := InitRemotes(remotes);
      r := Pass;
    }

    /** Opens an existing checkout (`openErr`: the open's error); a failure to pick a remote is not an error. */
    method Open(openErr: Option<string>, remotes: Result<seq<Remote>>) returns (r: Outcome)
      modifies this`repoOpen, this`remote
      ensures r.Pass? <==> openErr.None?
      ensures r.Pass? ==> repoOpen
      ensures r.Failure? ==> repoOpen == old(repoOpen) && remote == old(remote)
      ensures r.Pass? ==> remote == if remotes.Ok? && |remotes.value| > 0 then Some(ChosenRemote(remotes.value, old(remote)))
                                    else old(remote)
    {
      if openErr.Some? {
        return Failure(openErr.value);
      }
      repoOpen := true;
      var ignored := InitRemotes(remotes);
      r := Pass;
    }

    /**
     * Switches the checkout to `branch`. `remotes`, `worktreeErr`,
     * `checkout` and `track` are the outcomes of listing remotes, opening the
     * worktree, checking the branch out and recording it as tracked;
     * `fetches` and `pulls` those of the attempts of the two retry loops.
     * A manager that lists remotes has chosen one of them.
     */
    method SwitchTo(branch: string, remotes: Result<seq<Remote>>, worktreeErr: Option<string>,
                    fetches: seq<Option<string>>, checkout: Outcome, track: Outcome, pulls: seq<Option<string>>)
      returns (r: Outcome)
      requires |fetches| >= ATTEMPTS && |pulls| >= ATTEMPTS
      requires repoOpen && remotes.Ok? && |remotes.value| > 0 ==> remote.Some?
      ensures !repoOpen ==> r == Failure("the repository has been not cloned yet")
      ensures repoOpen && remotes.Err? ==> r == Failure(remotes.error)
      ensures repoOpen && remotes.Ok? && worktreeErr.Some? ==> r == Failure(worktreeErr.value)
      ensures repoOpen && remotes.Ok? && worktreeErr.None? && |remotes.value| == 0 ==> r == Failure("cannot find git remotes")
      ensures r.Pass? <==> repoOpen && remotes.Ok? && worktreeErr.None? && |remotes.value| > 0 &&
                           Settles(fetches) && checkout.Pass? && track.Pass? && Settles(pulls)
      ensures repoOpen && remotes.Ok? && worktreeErr.None? && |remotes.value| > 0 && !Settles(fetches) ==>
        r == Failure(fetches[ATTEMPTS - 1].value)
      ensures (repoOpen && remotes.Ok? && worktreeErr.None? && |remotes.value| > 0 && Settles(fetches) &&
               checkout.Failure?) ==> r == checkout
      ensures (repoOpen && remotes.Ok? && worktreeErr.None? && |remotes.value| > 0 && Settles(fetches) &&
               checkout.Pass? && track.Failure?) ==> r == Failure("cannot set tracked branch. Error: " + track.error)
      ensures (repoOpen && remotes.Ok? && worktreeErr.None? && |remotes.value| > 0 && Settles(fetches) &&
               checkout.Pass? && track.Pass? && !Settles(pulls)) ==> r == Failure(pulls[ATTEMPTS - 1].value)
    {
      if !repoOpen {
        return Failure("the repository has been not cloned yet");
      }
      if remotes.Err? {
        return Failure(remotes.error);
      }
      if worktreeErr.Some? {
        return Failure(worktreeErr.value);
      }
      if |remotes.value| == 0 {
        return Failure("cannot find git remotes");
      }
      var fetchErr, _, _ := RetryLoop(fetches);
      if fetchErr.Some? {
        return Failure(fetchErr.value);
      }
      if checkout.Failure? {
        return checkout;
      }
      if track.Failure? {
        return Failure("cannot set tracked branch. Error: " + track.error);
      }
      var pullErr, _, _ := RetryLoop(pulls);
      if pullErr.Some? {
        return Failure(pullErr.value);
      }
      r := Pass;
    }
  }

  /** The process-wide table of git managers, keyed by URL and state. */
  class Registry {
    /** The configured directory all repositories are checked out under. */
    const repoDir: string
    var managers: map<string, BuiltInManager>

    ghost predicate Valid()
      reads this, managers.Values
    {
      forall k :: k in managers ==> managers[k].key == k
    }

    constructor (repoDir: string)
      ensures this.repoDir == repoDir && managers == map[] && Valid()
    {
      this.repoDir := repoDir;
      managers := map[];
    }

    /**
     * The manager of `url` for `state`: the existing one under its key, or
     * a new one whose checkout path is derived from the URL and the state.
     */
    method GetManager(url: string, state: string) returns (m: BuiltInManager)
      requires Valid()
      modifies this`managers
      ensures Valid()
      ensures ManagerKey(url, state) in old(managers) ==> managers == old(managers) && m == managers[ManagerKey(url, state)]
      ensures ManagerKey(url, state) !in old(managers) ==>
        fresh(m) && managers == old(managers)[ManagerKey(url, state) := m] &&
        m.remoteUrl == url && m.repoPath == ManagerPath(repoDir, url, state) && m.webhookLocks == map[] &&
        !m.repoOpen && m.remote.None?
    {
      var key := ManagerKey(url, state);
      if key in managers {
        return managers[key];
      }
      m := new BuiltInManager(key, url, ManagerPath(repoDir, url, state));
      managers := managers[key := m];
    }

    /** Different keys hold different managers. */
    lemma DistinctKeysDistinctManagers(k1: string, k2: string)
      requires Valid() && k1 in managers && k2 in managers && k1 != k2
      ensures managers[k1] != managers[k2]
    {
    }
  }

  /** Registering, unlocking and waiting for a branch in that order lets the wait through and frees the lock. */
  method WebhookRendezvous(branch: string, timeout: nat) returns (reg: Outcome, unlock: Outcome, wait: Outcome, again: Outcome)
    ensures reg.Pass? && unlock.Pass? && wait.Pass? && again.Pass?
  {
    var m := new BuiltInManager("", "", "");
    reg := m.RegisterWebhookLock(branch);
    unlock := m.UnlockWebhookLock(branch);
    wait := m.WaitForWebhook(branch, timeout);
    assert m.webhookLocks == map[];
    again := m.RegisterWebhookLock(branch);
  }
}
