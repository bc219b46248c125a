/**
 * De-duplication of a task's git remotes: later mentions override
 * earlier ones, so each remote is kept at its last occurrence.
 */
module LauncherUtils {
  import opened Common

  predicate NoDuplicates(s: seq<string>) {
    forall i, j :: 0 <= i < j < |s| ==> s[i] != s[j]
  }

  /** The reference definition: an element survives only where it does not occur again later. */
  function KeepLast(s: seq<string>): (r: seq<string>)
    ensures |r| <= |s|
  {
    if |s| == 0 then []
    else if s[0] in s[1..] then KeepLast(s[1..])
    else [s[0]] + KeepLast(s[1..])
  }

  /** KeepLast keeps exactly the input's elements. */
  lemma {:induction false} KeepLastMembers(s: seq<string>, x: string)
    ensures x in KeepLast(s) <==> x in s
  {
    if |s| > 0 {
      KeepLastMembers(s[1..], x);
      assert s == [s[0]] + s[1..];
    }
  }

  /** KeepLast never repeats an element. */
  lemma {:induction false} KeepLastNoDuplicates(s: seq<string>)
    ensures NoDuplicates(KeepLast(s))
  {
    if |s| > 0 {
      KeepLastNoDuplicates(s[1..]);
      KeepLastMembers(s[1..], s[0]);
    }
  }

  /** A list without duplicates is its own normal form. */
  lemma {:induction false} KeepLastDistinct(s: seq<string>)
    requires NoDuplicates(s)
    ensures KeepLast(s) == s
  {
    if |s| > 0 {
      assert NoDuplicates(s[1..]);
      assert s[0] !in s[1..];
      KeepLastDistinct(s[1..]);
    }
  }

  /** `prepend2normal`: `r` alone for nil, the list itself if it holds `r`, or else `r` in front. */
  method Prepend2Normal(r: string, normal: Option<seq<string>>) returns (res: Option<seq<string>>)
    ensures normal.None? ==> res == Some([r])
    ensures normal.Some? && r in normal.value ==> res == normal
    ensures normal.Some? && r !in normal.value ==> res == Some([r] + normal.value)
  {
    if normal.None? {
      return Some([r]);
    }
    var contains := false;
    var i := 0;
    while i < |normal.value|
      invariant 0 <= i <= |normal.value|
      invariant contains <==> r in normal.value[..i]
    {
      if normal.value[i] == r {
        contains := true;
        break;
      }
      i := i + 1;
    }
    assert normal.value[..|normal.value|] == normal.value;
    if !contains {
      return Some([r] + normal.value);
    }
    res := normal;
  }

  /**
   * `normalizeGitRemotes`: nil for a nil or empty list; otherwise the
   * remotes are visited from the last to the first and each is put in
   * front unless already present, giving the KeepLast normal form.
   */
  method NormalizeGitRemotes(remotes: Option<seq<string>>) returns (res: Option<seq<string>>)
    ensures remotes.None? || |remotes.value| == 0 ==> res.None?
    ensures remotes.Some? && |remotes.value| > 0 ==> res == Some(KeepLast(remotes.value))
  {
    if remotes.None? || |remotes.value| == 0 {
      return None;
    }
    var r := remotes.value;
    var nr: Option<seq<string>> := None;
    var i := 0;
    while i < |r|
      invariant 0 <= i <= |r|
      invariant i == 0 ==> nr.None?
      invariant i > 0 ==> nr == Some(KeepLast(r[|r| - i..]))
    {
      var x := r[|r| - 1 - i];
      var tail := r[|r| - i..];
      assert r[|r| - 1 - i..] == [x] + tail;
      assert ([x] + tail)[1..] == tail;
      if i == 0 {
        assert tail == [] && [x] + tail == [x];
        assert KeepLast([x]) == [x];
      } else {
        KeepLastMembers(tail, x);
        ghost var k := KeepLast([x] + tail);
        assert x in tail ==> k == KeepLast(tail);
        assert x !in tail ==> k == [x] + KeepLast(tail);
      }
      nr := Prepend2Normal(x, nr);
      assert nr == Some(KeepLast([x] + tail));
      i := i + 1;
      assert r[|r| - i..] == [x] + tail;
    }
    assert r[|r| - i..] == r;
    res := nr;
  }

  /** A head that occurs again later is dropped. */
  lemma KeepLastDrop(x: string, t: seq<string>)
    requires x in t
    ensures KeepLast([x] + t) == KeepLast(t)
  {
    assert ([x] + t)[0] == x && ([x] + t)[1..] == t;
  }

  /** A head that does not occur again is kept. */
  lemma KeepLastKeep(x: string, t: seq<string>)
    requires x !in t
    ensures KeepLast([x] + t) == [x] + KeepLast(t)
  {
    assert ([x] + t)[0] == x && ([x] + t)[1..] == t;
  }

  /** The normal form of [b, d, a, c, b, c, d] is [a, b, c, d]. */
  lemma MixedDuplicates()
    ensures KeepLast(["b", "d", "a", "c", "b", "c", "d"]) == ["a", "b", "c", "d"]
  {
    KeepLastMixedTail();
    KeepLastDrop("d", ["a", "c", "b", "c", "d"]);
    KeepLastDrop("b", ["d", "a", "c", "b", "c", "d"]);
  }

  lemma KeepLastMixedTail()
    ensures KeepLast(["a", "c", "b", "c", "d"]) == ["a", "b", "c", "d"]
  {
    Letters();
    KeepLastBCD();
    KeepLastDrop("c", ["b", "c", "d"]);
    KeepLastKeep("a", ["c", "b", "c", "d"]);
  }

  lemma KeepLastBCD()
    ensures KeepLast(["b", "c", "d"]) == ["b", "c", "d"]
  {
    Letters();
    KeepLastKeep("d", []);
    KeepLastKeep("c", ["d"]);
    KeepLastKeep("b", ["c", "d"]);
  }

  /** The one-letter names used above are distinct. */
  lemma Letters()
    ensures "a" != "b" && "a" != "c" && "a" != "d" && "b" != "c" && "b" != "d" && "c" != "d"
  {
    assert "a"[0] == 'a' && "b"[0] == 'b' && "c"[0] == 'c' && "d"[0] == 'd';
  }

  /** The normal form of [b, a, b] is [a, b]. */
  lemma RepeatedFirst()
    ensures KeepLast(["b", "a", "b"]) == ["a", "b"]
  {
    Letters();
    KeepLastKeep("b", []);
    KeepLastKeep("a", ["b"]);
    KeepLastDrop("b", ["a", "b"]);
  }
}
