/**
 * The full `owner/name` of a repository from its remote URL, by the four
 * URL shapes the service recognises, tried in order: SSH
 * (`git@host:owner/name.git`), git protocol, HTTPS clone URL with `.git`,
 * and plain HTTPS. Each shape is an unanchored regular expression; the
 * functions below spell out its leftmost-first match.
 */
module GitUtils {
  import opened Common
  import opened Strings

  /** The four URL shapes, in the order they are tried. */
  datatype Scheme = Ssh | GitProtocol | Clone | Https

  /**
   * How the `(.*).git` ending is read. As written, `.` matches any character
   * and nothing anchors the end, so the group stops before the LAST
   * occurrence of "git" that has a character before it. Anchored reads the
   * evidently intended `(.*)\.git$`: the group stops before a final ".git".
   */
  datatype Ending = Loose | Anchored

  function Prefix(scheme: Scheme): string {
    match scheme
    case Ssh => "git@"
    case GitProtocol => "git://"
    case Clone => "https://"
    case Https => "https://"
  }

  /** The largest index where "git" starts. */
  function LastGit(s: string): (q: Option<nat>)
    ensures q.Some? ==> OccursAt(s, "git", q.value)
    ensures q.Some? ==> forall k: nat :: q.value < k ==> !OccursAt(s, "git", k)
    ensures q.None? ==> forall k: nat :: !OccursAt(s, "git", k)
  {
    if |s| < 3 then None
    else if s[|s| - 3..] == "git" then Some(|s| - 3)
    else
      var q := LastGit(s[..|s| - 1]);
      DropLastOccurrences(s, "git");
      if q.Some? then
        assert s[..|s| - 1][q.value..q.value + 3] == s[q.value..q.value + 3];
        q
      else q
  }

  /** An occurrence of `sub` that does not reach the last character survives dropping it. */
  lemma DropLastOccurrences(s: string, sub: string)
    requires |s| >= 1
    ensures forall k: nat :: OccursAt(s, sub, k) && k + |sub| < |s| ==> OccursAt(s[..|s| - 1], sub, k)
  {
    forall k: nat | OccursAt(s, sub, k) && k + |sub| < |s| ensures OccursAt(s[..|s| - 1], sub, k) {
      assert s[..|s| - 1][k..k + |sub|] == s[k..k + |sub|];
    }
  }

  /** Where group one ends under the given reading of `(.*).git`, if it can end anywhere. */
  function GroupEnd(s: string, ending: Ending): (e: Option<nat>)
    ensures e.Some? ==> e.value <= |s|
  {
    match ending
    case Loose =>
      (match LastGit(s)
       case None => None
       case Some(q) => if q >= 1 then Some(q - 1) else None)
    case Anchored => if HasSuffix(s, ".git") then Some(|s| - 4) else None
  }

  /** The last `:` at an index in [lo, hi). */
  function LastColonIn(s: string, lo: nat, hi: nat): (p: Option<nat>)
    requires hi <= |s|
    ensures p.Some? ==> lo <= p.value < hi && s[p.value] == ':'
    ensures p.Some? ==> forall k :: p.value < k < hi ==> s[k] != ':'
    ensures p.None? ==> forall k :: lo <= k < hi ==> s[k] != ':'
    decreases hi
  {
    if hi <= lo then None
    else if s[hi - 1] == ':' then Some(hi - 1)
    else LastColonIn(s, lo, hi - 1)
  }

  /** The first `/` at an index `j >= i`. */
  function FirstSlashFrom(s: string, i: nat): (j: Option<nat>)
    ensures j.Some? ==> i <= j.value < |s| && s[j.value] == '/'
    ensures j.Some? ==> forall k :: i <= k < j.value ==> s[k] != '/'
    ensures j.None? ==> forall k :: i <= k < |s| ==> s[k] != '/'
    decreases |s| - i
  {
    if i >= |s| then None
    else if s[i] == '/' then Some(i)
    else FirstSlashFrom(s, i + 1)
  }

  /** `.[^/]+/` at index `b`: any character, then at least one non-slash, then the slash returned. */
  function HostSlash(s: string, b: nat): (f: Option<nat>)
    ensures f.Some? ==> b + 2 <= f.value < |s| && s[f.value] == '/'
  {
    if b >= |s| then None
    else
      match FirstSlashFrom(s, b + 1)
      case None => None
      case Some(f) => if f >= b + 2 then Some(f) else None
  }

  /** Group one of the scheme's expression for a match starting at `a`, if one starts there. */
  function MatchAt(s: string, a: nat, scheme: Scheme, ending: Ending): (g: Option<string>)
  {
    var pre := Prefix(scheme);
    if !OccursAt(s, pre, a) then None
    else
      match scheme
      case Ssh =>
        (match GroupEnd(s, ending)
         case None => None
         case Some(e) =>
           match LastColonIn(s, a + 4, e)
           case None => None
           case Some(p) => Some(s[p + 1..e]))
      case Https =>
        (match HostSlash(s, a + |pre|)
         case None => None
         case Some(f) => Some(s[f + 1..]))
      case _ =>
        (match HostSlash(s, a + |pre|)
         case None => None
         case Some(f) =>
           match GroupEnd(s, ending)
           case None => None
           case Some(e) => if f + 1 <= e then Some(s[f + 1..e]) else None)
  }

  /** The leftmost match at or after `a`. */
  function Find(s: string, a: nat, scheme: Scheme, ending: Ending): (g: Option<string>)
    decreases |s| - a
  {
    if a > |s| then None
    else if MatchAt(s, a, scheme, ending).Some? then MatchAt(s, a, scheme, ending)
    else Find(s, a + 1, scheme, ending)
  }

  /** Without the scheme's prefix anywhere, its expression matches nothing. */
  lemma {:induction false} FindAbsent(s: string, a: nat, scheme: Scheme, ending: Ending)
    requires !Contains(s, Prefix(scheme))
    ensures Find(s, a, scheme, ending).None?
    decreases |s| - a
  {
    if a <= |s| {
      assert !OccursAt(s, Prefix(scheme), a);
      FindAbsent(s, a + 1, scheme, ending);
    }
  }

  function Resolve(gitUrl: string, ending: Ending): (r: Result<string>)
    ensures r.Err? <==> Find(gitUrl, 0, Ssh, ending).None? && Find(gitUrl, 0, GitProtocol, ending).None?
                        && Find(gitUrl, 0, Clone, ending).None? && Find(gitUrl, 0, Https, ending).None?
  {
    var ssh := Find(gitUrl, 0, Ssh, ending);
    var git := Find(gitUrl, 0, GitProtocol, ending);
    var clone := Find(gitUrl, 0, Clone, ending);
    var https := Find(gitUrl, 0, Https, ending);
    if ssh.Some? then Ok(ssh.value)
    else if git.Some? then Ok(git.value)
    else if clone.Some? then Ok(clone.value)
    else if https.Some? then Ok(https.value)
    else
      Err("No known URL schemas matched provided url")
  }

  /** The repository's full name, as the code computes it. */
  function GetFullRepoName(gitUrl: string): (r: Result<string>)
    ensures r.Err? <==> Find(gitUrl, 0, Ssh, Loose).None? && Find(gitUrl, 0, GitProtocol, Loose).None?
                        && Find(gitUrl, 0, Clone, Loose).None? && Find(gitUrl, 0, Https, Loose).None?
  {
    Resolve(gitUrl, Loose)
  }

  /** The repository's full name with `.git` read as a literal, final suffix. */
  function GetFullRepoNameCorrected(gitUrl: string): (r: Result<string>)
    ensures r.Err? <==> Find(gitUrl, 0, Ssh, Anchored).None? && Find(gitUrl, 0, GitProtocol, Anchored).None?
                        && Find(gitUrl, 0, Clone, Anchored).None? && Find(gitUrl, 0, Https, Anchored).None?
  {
    Resolve(gitUrl, Anchored)
  }

  /**
   * A clone URL `https://host/name.git` gives `name` once the ".git" is read
   * literally, provided no SSH or git-protocol prefix occurs in the URL.
   */
  lemma CorrectedCloneUrl(host: string, name: string)
    requires |host| >= 2 && '/' !in host[1..]
    requires !Contains("https://" + host + "/" + name + ".git", "git@")
    requires !Contains("https://" + host + "/" + name + ".git", "git://")
    ensures GetFullRepoNameCorrected("https://" + host + "/" + name + ".git") == Ok(name)
  {
    var s := "https://" + host + "/" + name + ".git";
    FindAbsent(s, 0, Ssh, Anchored);
    FindAbsent(s, 0, GitProtocol, Anchored);
    assert OccursAt(s, "https://", 0) by { assert s[0..8] == "https://"; }
    var f := 8 + |host|;
    assert s[f] == '/';
    forall k | 9 <= k < f ensures s[k] != '/' {
      assert s[k] == host[1..][k - 9];
    }
    assert FirstSlashFrom(s, 9) == Some(f);
    assert HostSlash(s, 8) == Some(f);
    assert HasSuffix(s, ".git") by { assert s[|s| - 4..] == ".git"; }
    assert s[f + 1..|s| - 4] == name;
    assert MatchAt(s, 0, Clone, Anchored) == Some(name);
  }

  /** The last colon in [lo, hi) is `p` when `p` holds one and nothing after it does. */
  lemma {:induction false} LastColonInIs(s: string, lo: nat, hi: nat, p: nat)
    requires lo <= p < hi <= |s| && s[p] == ':'
    requires forall k :: p < k < hi ==> s[k] != ':'
    ensures LastColonIn(s, lo, hi) == Some(p)
    decreases hi
  {
    if p < hi - 1 {
      LastColonInIs(s, lo, hi - 1, p);
    }
  }

  /**
   * An SSH URL `git@host:name.git` gives `name` once the ".git" is read
   * literally, whatever the host, when the name holds no colon.
   */
  lemma CorrectedSshUrl(host: string, name: string)
    requires ':' !in name
    ensures GetFullRepoNameCorrected("git@" + host + ":" + name + ".git") == Ok(name)
  {
    var s := "git@" + host + ":" + name + ".git";
    var p := 4 + |host|;
    var e := |s| - 4;
    assert s[0..4] == "git@";
    assert HasSuffix(s, ".git") by { assert s[|s| - 4..] == ".git"; }
    assert s[p] == ':';
    forall k | p < k < e ensures s[k] != ':' {
      assert s[k] == name[k - p - 1];
    }
    LastColonInIs(s, 4, e, p);
    assert s[p + 1..e] == name;
    assert MatchAt(s, 0, Ssh, Anchored) == Some(name);
  }

  /** A plain `http://` URL matches none of the four shapes. */
  const HTTP_URL := "http://github.com/wix-system/rg"

  lemma HttpUrlRejected()
    ensures GetFullRepoName(HTTP_URL).Err? && GetFullRepoNameCorrected(HTTP_URL).Err?
  {
    var s := HTTP_URL;
    forall i: nat | i <= |s| ensures !OccursAt(s, "git@", i) {
      assert i + 4 <= |s| ==> s[i..i + 4][3] == s[i + 3];
    }
    forall i: nat | i <= |s| ensures !OccursAt(s, "git://", i) {
      assert i + 6 <= |s| ==> s[i..i + 6][3] == s[i + 3] && s[i..i + 6][0] == s[i];
    }
    forall i: nat | i <= |s| ensures !OccursAt(s, "https://", i) {
      assert i + 8 <= |s| ==> s[i..i + 8][4] == s[i + 4] && s[i..i + 8][0] == s[i];
    }
    forall sc: Scheme, ending: Ending ensures Find(s, 0, sc, ending).None? {
      FindAbsent(s, 0, sc, ending);
    }
  }

  // Facts about one HTTPS URL whose repository name contains "git", one
  // small lemma each (ToolsUrl*, FirstSlashFromIs, LastGitIs): they support
  // the two lemmas of the finding, LooseEndingTruncatesName and
  // AnchoredEndingKeepsName.

  /** An HTTPS URL of a repository whose name contains "git". */
  const TOOLS_URL := "https://github.com/wix-system/git-tools"

  lemma ToolsUrlPrefixes()
    ensures !Contains(TOOLS_URL, "git@") && !Contains(TOOLS_URL, "git://")
    ensures forall a | 0 < a <= |TOOLS_URL| :: !OccursAt(TOOLS_URL, "https://", a)
  {
    var s := TOOLS_URL;
    forall i: nat | i <= |s| ensures !OccursAt(s, "git@", i) {
      assert i + 4 <= |s| ==> s[i..i + 4][3] == s[i + 3];
    }
    forall i: nat | i <= |s| ensures !OccursAt(s, "git://", i) {
      assert i + 6 <= |s| ==> s[i..i + 6][3] == s[i + 3] && s[i..i + 6][0] == s[i];
    }
    forall a | 0 < a <= |s| ensures !OccursAt(s, "https://", a) {
      assert a + 8 <= |s| ==> s[a..a + 8][0] == s[a] && s[a..a + 8][5] == s[a + 5];
    }
  }

  lemma ToolsUrlScheme()
    ensures OccursAt(TOOLS_URL, "https://", 0)
  {
    var s := TOOLS_URL;
    assert s[0] == 'h' && s[1] == 't' && s[2] == 't' && s[3] == 'p';
    assert s[4] == 's' && s[5] == ':' && s[6] == '/' && s[7] == '/';
    assert s[0..8] == "https://";
  }

  lemma ToolsUrlOwner()
    ensures TOOLS_URL[19..29] == "wix-system"
  {
    var s := TOOLS_URL;
    assert s[19] == 'w' && s[20] == 'i' && s[21] == 'x' && s[22] == '-' && s[23] == 's';
    assert s[24] == 'y' && s[25] == 's' && s[26] == 't' && s[27] == 'e' && s[28] == 'm';
  }

  lemma ToolsUrlPath()
    ensures TOOLS_URL[19..] == "wix-system/git-tools"
  {
    var s := TOOLS_URL;
    ToolsUrlOwner();
    assert s[29] == '/' && s[30] == 'g' && s[31] == 'i' && s[32] == 't' && s[33] == '-';
    assert s[34] == 't' && s[35] == 'o' && s[36] == 'o' && s[37] == 'l' && s[38] == 's';
    assert s[29..] == "/git-tools";
    assert s[19..] == s[19..29] + s[29..];
  }

  /** The first slash from `i` is `f` when `f` holds one and nothing before it does. */
  lemma {:induction false} FirstSlashFromIs(s: string, i: nat, f: nat)
    requires i <= f < |s| && s[f] == '/'
    requires forall k :: i <= k < f ==> s[k] != '/'
    ensures FirstSlashFrom(s, i) == Some(f)
    decreases f - i
  {
    if i < f {
      FirstSlashFromIs(s, i + 1, f);
    }
  }

  /** The last "git" is at `q` when it occurs there and nowhere later. */
  lemma LastGitIs(s: string, q: nat)
    requires OccursAt(s, "git", q)
    requires forall k: nat :: q < k ==> !OccursAt(s, "git", k)
    ensures LastGit(s) == Some(q)
  {
  }

  lemma ToolsUrlHost()
    ensures HostSlash(TOOLS_URL, 8) == Some(18)
  {
    var s := TOOLS_URL;
    assert s[18] == '/';
    FirstSlashFromIs(s, 9, 18);
  }

  lemma ToolsUrlLastGit()
    ensures LastGit(TOOLS_URL) == Some(30)
  {
    var s := TOOLS_URL;
    assert s[30..33] == "git";
    forall k: nat | 30 < k ensures !OccursAt(s, "git", k) {
      assert k + 3 <= |s| ==> s[k..k + 3][0] == s[k];
    }
    LastGitIs(s, 30);
  }

  lemma ToolsUrlLooseClone()
    ensures Find(TOOLS_URL, 0, Clone, Loose) == Some("wix-system")
  {
    var s := TOOLS_URL;
    ToolsUrlScheme();
    ToolsUrlHost();
    ToolsUrlLastGit();
    ToolsUrlOwner();
    assert GroupEnd(s, Loose) == Some(29);
    assert MatchAt(s, 0, Clone, Loose) == Some("wix-system");
  }

  lemma ToolsUrlAnchoredClone()
    ensures Find(TOOLS_URL, 0, Clone, Anchored) == None
  {
    var s := TOOLS_URL;
    ToolsUrlPrefixes();
    assert !HasSuffix(s, ".git") by { assert s[|s| - 4..][0] == s[|s| - 4]; }
    assert GroupEnd(s, Anchored) == None;
    assert MatchAt(s, 0, Clone, Anchored) == None;
    FindClonePast(s, 1);
  }

  lemma ToolsUrlHttps()
    ensures Find(TOOLS_URL, 0, Https, Anchored) == Some("wix-system/git-tools")
  {
    var s := TOOLS_URL;
    ToolsUrlScheme();
    ToolsUrlHost();
    ToolsUrlPath();
    assert MatchAt(s, 0, Https, Anchored) == Some("wix-system/git-tools");
  }

  /** As written, a repository whose name contains "git" loses everything from that point. */
  lemma LooseEndingTruncatesName()
    ensures GetFullRepoName(TOOLS_URL) == Ok("wix-system")
  {
    ToolsUrlPrefixes();
    FindAbsent(TOOLS_URL, 0, Ssh, Loose);
    FindAbsent(TOOLS_URL, 0, GitProtocol, Loose);
    ToolsUrlLooseClone();
  }

  /** Read literally, the ".git" ending does not occur, and the plain HTTPS shape keeps the whole path. */
  lemma AnchoredEndingKeepsName()
    ensures GetFullRepoNameCorrected(TOOLS_URL) == Ok("wix-system/git-tools")
  {
    ToolsUrlPrefixes();
    FindAbsent(TOOLS_URL, 0, Ssh, Anchored);
    FindAbsent(TOOLS_URL, 0, GitProtocol, Anchored);
    ToolsUrlAnchoredClone();
    ToolsUrlHttps();
  }

  lemma {:induction false} FindClonePast(s: string, a: nat)
    requires a >= 1
    requires forall k | a <= k <= |s| :: !OccursAt(s, "https://", k)
    ensures Find(s, a, Clone, Anchored) == None
    decreases |s| - a
  {
    if a <= |s| {
      FindClonePast(s, a + 1);
    }
  }

  /** Both readings of the ending agree on a URL that ends in ".git": the last "git" is the final one. */
  lemma GitSuffixEndsAgree(s: string)
    requires HasSuffix(s, ".git")
    ensures GroupEnd(s, Loose) == GroupEnd(s, Anchored) == Some(|s| - 4)
  {
    assert s[|s| - 3..] == s[|s| - 4..][1..];
  }

  lemma {:induction false} FindAgrees(s: string, a: nat, scheme: Scheme)
    requires GroupEnd(s, Loose) == GroupEnd(s, Anchored)
    ensures Find(s, a, scheme, Loose) == Find(s, a, scheme, Anchored)
    decreases |s| - a
  {
    assert MatchAt(s, a, scheme, Loose) == MatchAt(s, a, scheme, Anchored);
    if a <= |s| {
      FindAgrees(s, a + 1, scheme);
    }
  }

  /** On a URL ending in ".git" the code as written computes the intended name. */
  lemma AsWrittenAgreesOnGitSuffix(s: string)
    requires HasSuffix(s, ".git")
    ensures GetFullRepoName(s) == GetFullRepoNameCorrected(s)
  {
    GitSuffixEndsAgree(s);
    FindAgrees(s, 0, Ssh);
    FindAgrees(s, 0, GitProtocol);
    FindAgrees(s, 0, Clone);
    FindAgrees(s, 0, Https);
  }

  /** A git-protocol URL `git://host/name.git` gives `name` once the ".git" is read literally. */
  lemma CorrectedGitUrl(host: string, name: string)
    requires |host| >= 2 && '/' !in host[1..]
    requires !Contains("git://" + host + "/" + name + ".git", "git@")
    ensures GetFullRepoNameCorrected("git://" + host + "/" + name + ".git") == Ok(name)
  {
    var s := "git://" + host + "/" + name + ".git";
    FindAbsent(s, 0, Ssh, Anchored);
    assert OccursAt(s, "git://", 0) by { assert s[0..6] == "git://"; }
    var f := 6 + |host|;
    assert s[f] == '/';
    forall k | 7 <= k < f ensures s[k] != '/' {
      assert s[k] == host[1..][k - 7];
    }
    FirstSlashFromIs(s, 7, f);
    assert HostSlash(s, 6) == Some(f);
    assert HasSuffix(s, ".git") by { assert s[|s| - 4..] == ".git"; }
    assert s[f + 1..|s| - 4] == name;
    assert MatchAt(s, 0, GitProtocol, Anchored) == Some(name);
  }

  /** The URLs of the repository's own test of `GetFullRepoName`. */
  const TEST_HOST := "github.com"
  const TEST_NAME := "wix-system/rg"
  const SSH_TEST := "git@" + TEST_HOST + ":" + TEST_NAME + ".git"
  const GIT_TEST := "git://" + TEST_HOST + "/" + TEST_NAME + ".git"
  const CLONE_TEST := "https://" + TEST_HOST + "/" + TEST_NAME + ".git"
  const HTTPS_TEST := "https://github.com/wix-system/rg"

  // Facts about the test URLs, one small lemma each (AppendedSuffix,
  // TestHostShape, *TestPrefixes, Https*): they support the test-case lemmas.

  /** A text ends with what was appended to it. */
  lemma AppendedSuffix(a: string, b: string)
    ensures HasSuffix(a + b, b)
  {
    assert (a + b)[|a|..] == b;
  }

  lemma TestHostShape()
    ensures |TEST_HOST| >= 2 && '/' !in TEST_HOST[1..]
  {
    assert TEST_HOST[1..] == "ithub.com";
  }

  lemma GitTestPrefixes()
    ensures !Contains(GIT_TEST, "git@")
  {
    var s := GIT_TEST;
    forall i: nat | i <= |s| ensures !OccursAt(s, "git@", i) {
      assert i + 4 <= |s| ==> s[i..i + 4][3] == s[i + 3];
    }
  }

  lemma CloneTestPrefixes()
    ensures !Contains(CLONE_TEST, "git@") && !Contains(CLONE_TEST, "git://")
  {
    var s := CLONE_TEST;
    forall i: nat | i <= |s| ensures !OccursAt(s, "git@", i) {
      assert i + 4 <= |s| ==> s[i..i + 4][3] == s[i + 3];
    }
    forall i: nat | i <= |s| ensures !OccursAt(s, "git://", i) {
      assert i + 6 <= |s| ==> s[i..i + 6][3] == s[i + 3] && s[i..i + 6][0] == s[i];
    }
  }

  lemma HttpsTestPrefixes()
    ensures !Contains(HTTPS_TEST, "git@") && !Contains(HTTPS_TEST, "git://")
    ensures forall a | 0 < a <= |HTTPS_TEST| :: !OccursAt(HTTPS_TEST, "https://", a)
  {
    var s := HTTPS_TEST;
    forall i: nat | i <= |s| ensures !OccursAt(s, "git@", i) {
      assert i + 4 <= |s| ==> s[i..i + 4][3] == s[i + 3];
    }
    forall i: nat | i <= |s| ensures !OccursAt(s, "git://", i) {
      assert i + 6 <= |s| ==> s[i..i + 6][3] == s[i + 3] && s[i..i + 6][0] == s[i];
    }
    forall a | 0 < a <= |s| ensures !OccursAt(s, "https://", a) {
      assert a + 8 <= |s| ==> s[a..a + 8][0] == s[a] && s[a..a + 8][5] == s[a + 5];
    }
  }

  /** The test cases, for the code as written. */
  lemma SshTestCase()
    ensures GetFullRepoName(SSH_TEST) == Ok("wix-system/rg")
  {
    var s := SSH_TEST;
    AppendedSuffix("git@" + TEST_HOST + ":" + TEST_NAME, ".git");
    assert ':' !in TEST_NAME;
    CorrectedSshUrl(TEST_HOST, TEST_NAME);
    AsWrittenAgreesOnGitSuffix(s);
  }

  lemma GitTestCase()
    ensures GetFullRepoName(GIT_TEST) == Ok("wix-system/rg")
  {
    var s := GIT_TEST;
    AppendedSuffix("git://" + TEST_HOST + "/" + TEST_NAME, ".git");
    GitTestPrefixes();
    TestHostShape();
    CorrectedGitUrl(TEST_HOST, TEST_NAME);
    AsWrittenAgreesOnGitSuffix(s);
  }

  lemma CloneTestCase()
    ensures GetFullRepoName(CLONE_TEST) == Ok("wix-system/rg")
  {
    var s := CLONE_TEST;
    AppendedSuffix("https://" + TEST_HOST + "/" + TEST_NAME, ".git");
    CloneTestPrefixes();
    TestHostShape();
    CorrectedCloneUrl(TEST_HOST, TEST_NAME);
    AsWrittenAgreesOnGitSuffix(s);
  }

  lemma HttpsLastGit()
    ensures LastGit(HTTPS_TEST) == Some(8)
  {
    var s := HTTPS_TEST;
    assert s[8] == 'g' && s[9] == 'i' && s[10] == 't';
    assert s[8..11] == "git";
    forall k: nat | 8 < k ensures !OccursAt(s, "git", k) {
      assert k + 3 <= |s| ==> s[k..k + 3][0] == s[k];
    }
    LastGitIs(s, 8);
  }

  lemma HttpsNoCloneMatch()
    ensures Find(HTTPS_TEST, 0, Clone, Loose) == None
  {
    var s := HTTPS_TEST;
    HttpsTestPrefixes();
    HttpsLastGit();
    assert GroupEnd(s, Loose) == Some(7);
    assert MatchAt(s, 0, Clone, Loose) == None;
    FindClonePastLoose(s, 1);
  }

  lemma HttpsShapeMatch()
    ensures Find(HTTPS_TEST, 0, Https, Loose) == Some("wix-system/rg")
  {
    var s := HTTPS_TEST;
    HttpsTestScheme();
    HttpsTestHost();
    HttpsTestPath();
    assert MatchAt(s, 0, Https, Loose) == Some("wix-system/rg");
  }

  lemma HttpsTestScheme()
    ensures OccursAt(HTTPS_TEST, "https://", 0)
  {
    var s := HTTPS_TEST;
    assert s[0] == 'h' && s[1] == 't' && s[2] == 't' && s[3] == 'p';
    assert s[4] == 's' && s[5] == ':' && s[6] == '/' && s[7] == '/';
    assert s[0..8] == "https://";
  }

  lemma HttpsTestHost()
    ensures HostSlash(HTTPS_TEST, 8) == Some(18)
  {
    var s := HTTPS_TEST;
    assert s[18] == '/';
    FirstSlashFromIs(s, 9, 18);
  }

  lemma HttpsTestPath()
    ensures HTTPS_TEST[19..] == "wix-system/rg"
  {
    var s := HTTPS_TEST;
    assert s[19] == 'w' && s[20] == 'i' && s[21] == 'x' && s[22] == '-' && s[23] == 's' && s[24] == 'y';
    assert s[25] == 's' && s[26] == 't' && s[27] == 'e' && s[28] == 'm' && s[29] == '/' && s[30] == 'r';
    assert s[31] == 'g' && |s| == 32;
  }

  /** Without ".git", the clone shape would end inside the host's "git" and fails; the plain HTTPS shape answers. */
  lemma HttpsTestCase()
    ensures GetFullRepoName(HTTPS_TEST) == Ok("wix-system/rg")
  {
    HttpsTestPrefixes();
    FindAbsent(HTTPS_TEST, 0, Ssh, Loose);
    FindAbsent(HTTPS_TEST, 0, GitProtocol, Loose);
    HttpsNoCloneMatch();
    HttpsShapeMatch();
  }

  lemma {:induction false} FindClonePastLoose(s: string, a: nat)
    requires a >= 1
    requires forall k | a <= k <= |s| :: !OccursAt(s, "https://", k)
    ensures Find(s, a, Clone, Loose) == None
    decreases |s| - a
  {
    if a <= |s| {
      FindClonePastLoose(s, a + 1);
    }
  }
}
