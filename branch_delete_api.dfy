/**
 * The branch-deletion handlers: which task branch a request names, how
 * the cleanup cut-off time is read, and the per-repository report they
 * answer with.
 */
module BranchDeleteApi {
  import opened Common
  import opened Strings
  import opened MiscConsts

  /** What one repository reports: branch to whether it was deleted, and the error if any. */
  datatype DeleteStatus = DeleteStatus(status: map<string, bool>, error: Option<string>, errorMsg: string)

  /** The JSON text of an error: its message, or empty for nil. */
  function ErrorMsg(err: Option<string>): (m: string)
    ensures err.None? ==> m == ""
    ensures err.Some? ==> m == err.value
  {
    if err.Some? then err.value else ""
  }

  /**
   * `SetRepoBranchStatus` as written: the repository's current entry is
   * dereferenced before it is looked at, so a repository without an entry
   * is a nil dereference (`None`).
   */
  function BranchStatusAsWritten(report: map<string, DeleteStatus>, repository: string, branch: string,
                                 deleted: bool, err: Option<string>): (r: Option<map<string, DeleteStatus>>)
    ensures r.Some? <==> repository in report
  {
    if repository !in report then None
    else Some(report[repository := DeleteStatus(report[repository].status[branch := deleted], err, ErrorMsg(err))])
  }

  /**
   * The evidently intended `SetRepoBranchStatus`: the branch is recorded
   * under the repository, next to the branches already reported for it,
   * and an absent repository starts with none.
   */
  function BranchStatus(report: map<string, DeleteStatus>, repository: string, branch: string,
                        deleted: bool, err: Option<string>): (r: map<string, DeleteStatus>)
    ensures r.Keys == report.Keys + {repository}
    ensures r[repository].status.Keys == (if repository in report then report[repository].status.Keys else {}) + {branch}
    ensures branch in r[repository].status && r[repository].status[branch] == deleted
    ensures r[repository].error == err && r[repository].errorMsg == ErrorMsg(err)
    ensures forall b :: b in r[repository].status && b != branch ==>
      (b in report[repository].status && r[repository].status[b] == report[repository].status[b])
    ensures forall k :: k in report && k != repository ==> r[k] == report[k]
  {
    var before := if repository in report then report[repository].status else map[];
    report[repository := DeleteStatus(before[branch := deleted], err, ErrorMsg(err))]
  }

  /** Where the repository is already reported, the two agree. */
  lemma BranchStatusAgrees(report: map<string, DeleteStatus>, repository: string, branch: string,
                           deleted: bool, err: Option<string>)
    requires repository in report
    ensures BranchStatusAsWritten(report, repository, branch, deleted, err) ==
            Some(BranchStatus(report, repository, branch, deleted, err))
  {
  }

  /** `DeleteCIBranch` reports into a fresh response, so its very first report dereferences nil. */
  lemma FirstReportPanics(repository: string, branch: string, deleted: bool, err: Option<string>)
    ensures BranchStatusAsWritten(map[], repository, branch, deleted, err).None?
    ensures BranchStatus(map[], repository, branch, deleted, err) ==
            map[repository := DeleteStatus(map[branch := deleted], err, ErrorMsg(err))]
  {
  }

  /** The response of both handlers: an overall error and a report per repository. */
  class DeleteResponse {
    var error: Option<string>
    var errorMsg: string
    var report: map<string, DeleteStatus>

    /** `NewDeleteResponse`. */
    constructor (err: Option<string>)
      ensures error == err && errorMsg == ErrorMsg(err) && report == map[]
    {
      error := err;
      errorMsg := ErrorMsg(err);
      report := map[];
    }

    /** `SetRepoBranchStatus`, as corrected. */
    method SetRepoBranchStatus(repository: string, branch: string, deleted: bool, err: Option<string>)
      modifies this`report
      ensures report == BranchStatus(old(report), repository, branch, deleted, err)
    {
      var before := if repository in report then report[repository].status else map[];
      report := report[repository := DeleteStatus(before[branch := deleted], err, ErrorMsg(err))];
    }

    /** `SetRepoStatus`: the repository's whole entry is replaced; no other changes. */
    method SetRepoStatus(repository: string, status: map<string, bool>, err: Option<string>)
      modifies this`report
      ensures report == old(report)[repository := DeleteStatus(status, err, ErrorMsg(err))]
    {
      report := report[repository := DeleteStatus(status, err, ErrorMsg(err))];
    }

    /** `SetError`: the error and its text are set together. */
    method SetError(err: Option<string>)
      modifies this`error, this`errorMsg
      ensures error == err && errorMsg == ErrorMsg(err)
    {
      error := err;
      errorMsg := ErrorMsg(err);
    }
  }

  /** The task a deletion request names, or the reason it is refused with 406. */
  datatype Target = Target(taskId: int, branch: string) | NotAcceptable(msg: string)

  /**
   * The parameters of `DeleteCIBranch`. A branch yields a task id only
   * when it splits on '-' into exactly two parts; otherwise the id stays
   * 0. A given id parameter overrides both, and the branch becomes the
   * task prefix followed by it. A part that is not a number is refused.
   */
  function DeleteTarget(branch: Option<string>, id: Option<string>): (r: Target)
    ensures r.NotAcceptable? <==>
      (branch.Some? && |Split(branch.value, '-')| == 2 && Atoi(Split(branch.value, '-')[1]).None?) ||
      (id.Some? && Atoi(id.value).None?)
    ensures r.Target? && id.Some? ==> Atoi(id.value) == Some(r.taskId) && r.branch == TASKPREFIX + id.value
    ensures r.Target? && id.None? ==> r.branch == (if branch.Some? then branch.value else "")
    ensures r.Target? && id.None? && r.taskId != 0 ==>
      branch.Some? && |Split(branch.value, '-')| == 2 && Atoi(Split(branch.value, '-')[1]) == Some(r.taskId)
  {
    var br := if branch.Some? then branch.value else "";
    var s := Split(br, '-');
    if branch.Some? && |s| == 2 && Atoi(s[1]).None? then
      NotAcceptable("cannot convert branch " + br + " to int")
    else
      var fromBranch := if branch.Some? && |s| == 2 then Atoi(s[1]).value else 0;
      match id
      case None => Target(fromBranch, br)
      case Some(i) =>
        match Atoi(i)
        case None => NotAcceptable("cannot convert branch id " + i + " to int")
        case Some(v) => Target(v, TASKPREFIX + i)
  }

  /** A task's own branch names that task. */
  lemma TaskBranchTarget(n: nat)
    requires n <= MaxInt
    ensures DeleteTarget(Some(TASKPREFIX + Itoa(n)), None) == Target(n, TASKPREFIX + Itoa(n))
  {
    var b := TASKPREFIX + Itoa(n);
    ItoaNatAllDigits(n);
    assert '-' !in Itoa(n) by {
      forall k | 0 <= k < |Itoa(n)| ensures Itoa(n)[k] != '-' {
        assert IsDigit(Itoa(n)[k]);
      }
    }
    assert IndexOf(b, '-') == 4 by {
      assert b[4] == '-' && forall k :: 0 <= k < 4 ==> b[k] != '-';
    }
    assert b[..4] == "tfci" && b[5..] == Itoa(n);
    assert Split(b, '-') == ["tfci", Itoa(n)];
    AtoiItoa(n);
  }

  /** A branch with more than two parts carries no id, so the request names task 0. */
  lemma ExtraPartsGiveNoId(d: string, e: string)
    requires '-' !in d
    ensures DeleteTarget(Some(TASKPREFIX + d + "-" + e), None) == Target(0, TASKPREFIX + d + "-" + e)
  {
    var b := TASKPREFIX + d + "-" + e;
    assert IndexOf(b, '-') == 4 by {
      assert b[4] == '-' && forall k :: 0 <= k < 4 ==> b[k] != '-';
    }
    var t := b[5..];
    assert t == d + "-" + e && t[|d|] == '-';
    assert |Split(t, '-')| >= 2;
  }

  /** The cut-off time of a cleanup: Unix seconds, an RFC 1123 date to parse, or a refusal with 406. */
  datatype Before = UnixSeconds(seconds: int) | Rfc1123Date(text: string) | BeforeRejected(msg: string)

  /**
   * `Cleanupbranches` reading `before`: empty is refused; digits only are
   * Unix seconds (refused when they overflow an `int`); anything else is
   * an RFC 1123 date, refused when `time.Parse` fails on it, which
   * `dateParses` reports.
   */
  function ParseBefore(before: string, dateParses: bool): (r: Before)
    ensures r.BeforeRejected? <==>
      before == "" || (AllDigits(before) && DigitsValue(before) > MaxInt) || (!AllDigits(before) && !dateParses)
    ensures r.UnixSeconds? ==> AllDigits(before) && r.seconds == DigitsValue(before)
    ensures r.Rfc1123Date? <==> before != "" && !AllDigits(before) && dateParses
    ensures r.Rfc1123Date? ==> r.text == before
    ensures before != "" && !AllDigits(before) && !dateParses ==>
      r == BeforeRejected("cannot parse ISO RFC1123 date \"" + before + "\"")
  {
    if before == "" then BeforeRejected("you have to pass before parameter in form of Unix time or RFC3339 date")
    else if AllDigits(before) then
      match Atoi(before)
      case Some(v) => UnixSeconds(v)
      case None => BeforeRejected("internal error. cannot convert unix before time \"" + before + "\" to integer")
    else if dateParses then Rfc1123Date(before)
    else BeforeRejected("cannot parse ISO RFC1123 date \"" + before + "\"")
  }

  const NO_MANAGERS := "no GitHub managers have been initialized yet"

  /** Position `j` holds the last occurrence of its element. */
  predicate LastAt(s: seq<string>, j: nat)
    requires j < |s|
  {
    forall k :: j < k < |s| ==> s[k] != s[j]
  }

  /** What one repository reports about the deletion of `branch`. */
  function DeletionStatus(branch: string, result: Outcome): DeleteStatus {
    var err := if result.Failure? then Some(result.error) else None;
    DeleteStatus(map[branch := result.Pass?], err, ErrorMsg(err))
  }

  /** One turn of the loop of `DeleteCIBranch`: a repository that reported only this branch before reports it afresh. */
  method ReportDeletion(dr: DeleteResponse, repository: string, branch: string, result: Outcome)
    requires repository in dr.report ==> dr.report[repository].status.Keys == {branch}
    modifies dr`report
    ensures dr.report == old(dr.report)[repository := DeletionStatus(branch, result)]
  {
    if result.Failure? {
      dr.SetRepoBranchStatus(repository, branch, false, Some(result.error));
    } else {
      dr.SetRepoBranchStatus(repository, branch, true, None);
    }
    assert dr.report[repository].status.Keys == {branch};
    assert dr.report[repository].status == map[branch := result.Pass?];
  }

  /** The loop of `DeleteCIBranch`: each repository in turn reports the branch deleted or not. */
  method ReportDeletions(dr: DeleteResponse, repos: seq<string>, branch: string, results: seq<Outcome>)
    requires |results| == |repos| && dr.report == map[]
    modifies dr`report
    ensures dr.report.Keys == set r | r in repos
    ensures forall j :: 0 <= j < |repos| && LastAt(repos, j) ==> dr.report[repos[j]] == DeletionStatus(branch, results[j])
  {
    var i := 0;
    while i < |repos|
      invariant 0 <= i <= |repos|
      invariant dr.report.Keys == set r | r in repos[..i]
      invariant forall j :: 0 <= j < i && (forall k :: j < k < i ==> repos[k] != repos[j]) ==>
        dr.report[repos[j]] == DeletionStatus(branch, results[j])
      invariant forall r :: r in dr.report ==> dr.report[r].status.Keys == {branch}
    {
      assert repos[..i + 1] == repos[..i] + [repos[i]];
      ReportDeletion(dr, repos[i], branch, results[i]);
      i := i + 1;
    }
    assert repos[..i] == repos;
  }

  /**
   * `DeleteCIBranch` after its parameters are read: with no managers the
   * answer is 202 and an error; otherwise each manager's repository
   * reports whether the task's branch was deleted (`results`, in the
   * managers' order), the last report for a repository winning.
   */
  method DeleteCIBranch(branch: Option<string>, id: Option<string>, managers: Option<seq<string>>, results: seq<Outcome>)
    returns (code: int, dr: DeleteResponse)
    requires managers.Some? ==> |results| == |managers.value|
    ensures DeleteTarget(branch, id).NotAcceptable? ==>
      code == 406 && dr.error == Some(DeleteTarget(branch, id).msg) && dr.report == map[]
    ensures DeleteTarget(branch, id).Target? && managers.None? ==>
      code == 202 && dr.error == Some(NO_MANAGERS) && dr.report == map[]
    ensures DeleteTarget(branch, id).Target? && managers.Some? ==>
      code == 202 && dr.error.None? && dr.report.Keys == set r | r in managers.value
    ensures DeleteTarget(branch, id).Target? && managers.Some? ==>
      forall j :: 0 <= j < |managers.value| && LastAt(managers.value, j) ==>
        dr.report[managers.value[j]] == DeletionStatus(DeleteTarget(branch, id).branch, results[j])
  {
    var target := DeleteTarget(branch, id);
    if target.NotAcceptable? {
      dr := new DeleteResponse(Some(target.msg));
      return 406, dr;
    }
    if managers.None? {
      dr := new DeleteResponse(Some(NO_MANAGERS));
      return 202, dr;
    }
    dr := new DeleteResponse(None);
    ReportDeletions(dr, managers.value, target.branch, results);
    code := 202;
  }

  /**
   * `Cleanupbranches` after its form is decoded: no managers, and a
   * refused cut-off (`dateParses` is whether `time.Parse` accepts a
   * non-numeric one), are answered with an error; otherwise each manager's
   * repository entry is replaced by what its cleanup reports.
   */
  method CleanupBranches(before: string, dateParses: bool, managers: Option<seq<string>>,
                         results: seq<(map<string, bool>, Option<string>)>)
    returns (code: int, dr: DeleteResponse)
    requires managers.Some? ==> |results| == |managers.value|
    ensures managers.None? ==> code == 202 && dr.error == Some(NO_MANAGERS) && dr.report == map[]
    ensures managers.Some? && ParseBefore(before, dateParses).BeforeRejected? ==>
      code == 406 && dr.error == Some(ParseBefore(before, dateParses).msg) && dr.report == map[]
    ensures managers.Some? && before != "" && !AllDigits(before) && !dateParses ==>
      code == 406 && dr.error == Some("cannot parse ISO RFC1123 date \"" + before + "\"")
    ensures managers.Some? && !ParseBefore(before, dateParses).BeforeRejected? ==>
      code == 202 && dr.error.None? && dr.report.Keys == set r | r in managers.value
    ensures managers.Some? && !ParseBefore(before, dateParses).BeforeRejected? ==>
      forall j :: 0 <= j < |managers.value| && LastAt(managers.value, j) ==>
        dr.report[managers.value[j]] == DeleteStatus(results[j].0, results[j].1, ErrorMsg(results[j].1))
  {
    if managers.None? {
      dr := new DeleteResponse(Some(NO_MANAGERS));
      return 202, dr;
    }
    var bt := ParseBefore(before, dateParses);
    if bt.BeforeRejected? {
      dr := new DeleteResponse(Some(bt.msg));
      return 406, dr;
    }
    var repos := managers.value;
    dr := new DeleteResponse(None);
    var i := 0;
    while i < |repos|
      invariant 0 <= i <= |repos|
      invariant dr.error.None?
      invariant dr.report.Keys == set r | r in repos[..i]
      invariant forall j :: 0 <= j < i && (forall k :: j < k < i ==> repos[k] != repos[j]) ==>
        dr.report[repos[j]] == DeleteStatus(results[j].0, results[j].1, ErrorMsg(results[j].1))
    {
      assert repos[..i + 1] == repos[..i] + [repos[i]];
      dr.SetRepoStatus(repos[i], results[i].0, results[i].1);
      i := i + 1;
    }
    assert repos[..i] == repos;
    code := 202;
  }
}
