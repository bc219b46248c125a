/**
 * Locating the repository root of a working directory: the path up to
 * its first "production_42" component, and the tools found under it.
 */
module Locate {
  import opened Common
  import opened Strings
  import opened MiscConsts

  /** The first position of `x` in `s`, if any. */
  function FirstIndex(s: seq<string>, x: string): (r: Option<nat>)
    ensures r.None? <==> x !in s
    ensures r.Some? ==> r.value < |s| && s[r.value] == x && x !in s[..r.value]
  {
    if |s| == 0 then None
    else if s[0] == x then Some(0)
    else match FirstIndex(s[1..], x)
      case None => None
      case Some(i) => assert s[..i + 1] == [s[0]] + s[1..][..i]; Some(i + 1)
  }

  const NOT_ABSOLUTE := "path should be absolute and starts from /"
  const NO_ROOT := "could not locate repo root"

  /**
   * `LocateRepo`: a relative path is refused; otherwise the components up
   * to and including the first "production_42" are joined back with '/',
   * and a path without one is refused.
   */
  function LocateRepo(workdir: string): (r: Result<string>)
    ensures !HasPrefix(workdir, "/") ==> r == Err(NOT_ABSOLUTE)
    ensures HasPrefix(workdir, "/") ==> (r.Err? <==> PROD42 !in Split(workdir, '/'))
    ensures r.Err? ==> r.error == NOT_ABSOLUTE || r.error == NO_ROOT
    ensures r.Ok? ==> (HasPrefix(workdir, "/") && FirstIndex(Split(workdir, '/'), PROD42).Some? &&
      r.value == Join(Split(workdir, '/')[..FirstIndex(Split(workdir, '/'), PROD42).value + 1], '/'))
  {
    if !HasPrefix(workdir, "/") then Err(NOT_ABSOLUTE)
    else
      var chunks := Split(workdir, '/');
      match FirstIndex(chunks, PROD42)
      case None => Err(NO_ROOT)
      case Some(i) => Ok(Join(chunks[..i + 1], '/'))
  }

  /** Joining the first `k` parts gives a prefix of joining them all, followed by the separator if parts remain. */
  lemma {:induction false} JoinPrefix(parts: seq<string>, sep: char, k: nat)
    requires 1 <= k <= |parts|
    ensures HasPrefix(Join(parts, sep), Join(parts[..k], sep))
    ensures k < |parts| ==> |Join(parts, sep)| > |Join(parts[..k], sep)| &&
                            Join(parts, sep)[|Join(parts[..k], sep)|] == sep
  {
    if k == |parts| {
      assert parts[..k] == parts;
    } else if k == 1 {
      assert parts[..1] == [parts[0]];
    } else {
      JoinPrefix(parts[1..], sep, k - 1);
      assert parts[..k][1..] == parts[1..][..k - 1];
    }
  }

  /** The repository root is a leading part of the working directory, ending at a component boundary. */
  lemma RepoIsPrefix(workdir: string)
    requires LocateRepo(workdir).Ok?
    ensures var root := LocateRepo(workdir).value;
      HasPrefix(workdir, root) && (|root| == |workdir| || workdir[|root|] == '/')
  {
    var chunks := Split(workdir, '/');
    var i := FirstIndex(chunks, PROD42).value;
    var root := Join(chunks[..i + 1], '/');
    assert LocateRepo(workdir).value == root;
    JoinSplit(workdir, '/');
    assert Join(chunks, '/') == workdir;
    JoinPrefix(chunks, '/', i + 1);
    if i + 1 == |chunks| {
      assert chunks[..i + 1] == chunks;
      assert root == workdir;
    } else {
      assert workdir[|root|] == '/';
    }
  }

  /** Joining one more part appends the separator and that part. */
  lemma {:induction false} JoinSnoc(parts: seq<string>, sep: char, x: string)
    requires |parts| >= 1
    ensures Join(parts + [x], sep) == Join(parts, sep) + [sep] + x
  {
    if |parts| > 1 {
      JoinSnoc(parts[1..], sep, x);
      assert (parts + [x])[1..] == parts[1..] + [x];
    }
  }

  /** The root ends in "/production_42", the component that names it. */
  lemma RepoEndsInProd42(workdir: string)
    requires LocateRepo(workdir).Ok?
    ensures HasSuffix(LocateRepo(workdir).value, "/" + PROD42)
  {
    var chunks := Split(workdir, '/');
    var i := FirstIndex(chunks, PROD42).value;
    assert i >= 1 by {
      assert workdir[0] == '/';
      assert IndexOf(workdir, '/') == 0;
      assert chunks[0] == "";
    }
    assert chunks[..i + 1] == chunks[..i] + [PROD42];
    JoinSnoc(chunks[..i], '/', PROD42);
  }

  /** What `LocateTerrafrom` and `LocateRunSh` give back: a path and, possibly, an error. */
  datatype Located = Located(path: string, err: Option<string>)

  /**
   * A tool under the repository root: no root is the root's error and no
   * path; a tool that is not executable (`executable`, read from the file
   * system) is reported with its path and `notExecutable`.
   */
  function LocateUnderRoot(workdir: string, suffix: string, executable: bool, notExecutable: string): (r: Located)
    ensures LocateRepo(workdir).Err? ==> r == Located("", Some(LocateRepo(workdir).error))
    ensures LocateRepo(workdir).Ok? ==> r.path == LocateRepo(workdir).value + suffix
    ensures LocateRepo(workdir).Ok? ==> (r.err.None? <==> executable)
    ensures LocateRepo(workdir).Ok? && !executable ==> r.err == Some(notExecutable)
  {
    match LocateRepo(workdir)
    case Err(e) => Located("", Some(e))
    case Ok(repo) =>
      var tp := repo + suffix;
      if executable then Located(tp, None) else Located(tp, Some(notExecutable))
  }

  /** `LocateTerrafrom`: the repository's `bin/terraform`. */
  function LocateTerraform(workdir: string, executable: bool): (r: Located)
    ensures r == LocateUnderRoot(workdir, "/bin/terraform", executable, "Terrafrom binary is not executable")
  {
    LocateUnderRoot(workdir, "/bin/terraform", executable, "Terrafrom binary is not executable")
  }

  /** `LocateRunSh`: the repository's `run.sh`. */
  function LocateRunSh(workdir: string, executable: bool): (r: Located)
    ensures r == LocateUnderRoot(workdir, "/run.sh", executable, "Run.sh script is not executable. Please check permissions")
  {
    LocateUnderRoot(workdir, "/run.sh", executable, "Run.sh script is not executable. Please check permissions")
  }

  /**
   * A working directory below a root directory without a "production_42"
   * component locates the root plus that component, whatever follows it:
   * the terraform binary of ".../production_42/generator/output/100/db"
   * is ".../production_42/bin/terraform".
   */
  lemma BelowRoot(dirs: seq<string>, more: seq<string>)
    requires forall k :: 0 <= k < |dirs| ==> '/' !in dirs[k] && dirs[k] != PROD42
    requires forall k :: 0 <= k < |more| ==> '/' !in more[k]
    ensures LocateRepo(Join([""] + dirs + [PROD42] + more, '/')) == Ok(Join([""] + dirs + [PROD42], '/'))
  {
    var root := [""] + dirs + [PROD42];
    var all := root + more;
    var w := Join(all, '/');
    PartsWithoutSeparator(dirs, more);
    SplitJoin(all, '/');
    assert all[0] == "" && |all| >= 2;
    assert all[1..][0] == all[1];
    assert w == "" + "/" + Join(all[1..], '/');
    assert HasPrefix(w, "/");
    var i := |dirs| + 1;
    assert all[i] == PROD42;
    assert all[..i] == [""] + dirs;
    assert PROD42 !in all[..i];
    FirstIndexUnique(all, PROD42, i);
    assert all[..i + 1] == root;
  }

  lemma PartsWithoutSeparator(dirs: seq<string>, more: seq<string>)
    requires forall k :: 0 <= k < |dirs| ==> '/' !in dirs[k]
    requires forall k :: 0 <= k < |more| ==> '/' !in more[k]
    ensures var all := [""] + dirs + [PROD42] + more; forall k :: 0 <= k < |all| ==> '/' !in all[k]
  {
    var all := [""] + dirs + [PROD42] + more;
    assert '/' !in PROD42;
    forall k | 0 <= k < |all| ensures '/' !in all[k] {
      if k == 0 {
      } else if k <= |dirs| {
        assert all[k] == dirs[k - 1];
      } else if k == |dirs| + 1 {
      } else {
        assert all[k] == more[k - |dirs| - 2];
      }
    }
  }

  /** Where `x` first occurs is what FirstIndex names. */
  lemma FirstIndexUnique(s: seq<string>, x: string, i: nat)
    requires i < |s| && s[i] == x && x !in s[..i]
    ensures FirstIndex(s, x) == Some(i)
  {
  }
}
