/**
 * The multi-repository manager: git managers looked up by checkout path
 * and by remote, and an ordered list of them kept in a Go slice, whose
 * backing array `append` writes into in place.
 */
module MultiManager {
  import opened Common

  /** What the multi-manager consults of a git manager: its checkout path and its remote. */
  datatype ManagerRef = ManagerRef(path: string, remote: string)

  /** The list without the managers of `remote`, the rest in order. */
  function Without(s: seq<ManagerRef>, remote: string): (r: seq<ManagerRef>)
    ensures |r| <= |s|
  {
    if |s| == 0 then []
    else if s[|s| - 1].remote == remote then Without(s[..|s| - 1], remote)
    else Without(s[..|s| - 1], remote) + [s[|s| - 1]]
  }

  /** Some manager in the list has `remote`. */
  predicate Lists(s: seq<ManagerRef>, remote: string)
  {
    exists k :: 0 <= k < |s| && s[k].remote == remote
  }

  /** No manager of the remote is left, and every other manager is. */
  lemma {:induction false} WithoutMembers(s: seq<ManagerRef>, remote: string, x: ManagerRef)
    ensures x in Without(s, remote) <==> x in s && x.remote != remote
  {
    if |s| > 0 {
      WithoutMembers(s[..|s| - 1], remote, x);
      assert s == s[..|s| - 1] + [s[|s| - 1]];
    }
  }

  /** Removing a remote that is not listed changes nothing. */
  lemma {:induction false} WithoutAbsent(s: seq<ManagerRef>, remote: string)
    requires forall k :: 0 <= k < |s| ==> s[k].remote != remote
    ensures Without(s, remote) == s
  {
    if |s| > 0 {
      WithoutAbsent(s[..|s| - 1], remote);
    }
  }

  /**
   * The loop of `DeleteManager` as written, over the backing array `b`:
   * the range visits the `n` positions the slice had when it began, and
   * a match at `i` writes `b[i+1]` to `b[i]` and cuts the slice to `i+1`,
   * reading index `i+1` of the current slice first (`None`: out of range).
   */
  function DeleteScan(b: seq<ManagerRef>, n: nat, len: nat, i: nat, remote: string): (r: Option<(seq<ManagerRef>, nat)>)
    requires n <= |b| && len <= |b|
    requires i <= n
    ensures r.Some? ==> |r.value.0| == |b| && r.value.1 <= |b|
    decreases n - i
  {
    if i == n then Some((b, len))
    else if b[i].remote != remote then DeleteScan(b, n, len, i + 1, remote)
    else if i + 1 >= len then None
    else DeleteScan(b[i := b[i + 1]], n, i + 1, i + 1, remote)
  }

  /**
   * The loop of `AddManager` as written: a match at `i` appends the
   * manager after `b[i+1]` moved to `i`, so the slice becomes `i+2` long
   * and its position `i+1` holds the new manager.
   */
  function AddScan(b: seq<ManagerRef>, n: nat, len: nat, i: nat, m: ManagerRef): (r: Option<(seq<ManagerRef>, nat)>)
    requires n <= |b| && len <= |b|
    requires i <= n
    ensures r.Some? ==> |r.value.0| == |b| && r.value.1 <= |b|
    decreases n - i
  {
    if i == n then Some((b, len))
    else if b[i].remote != m.remote then AddScan(b, n, len, i + 1, m)
    else if i + 1 >= len then None
    else AddScan(b[i := b[i + 1]][i + 1 := m], n, i + 2, i + 1, m)
  }

  /** Without a match in the rest of the range, the scan changes nothing. */
  lemma {:induction false} DeleteScanNoMatch(b: seq<ManagerRef>, n: nat, len: nat, i: nat, remote: string)
    requires n <= |b| && len <= |b| && i <= n
    requires forall k :: i <= k < n ==> b[k].remote != remote
    ensures DeleteScan(b, n, len, i, remote) == Some((b, len))
    decreases n - i
  {
    if i < n {
      DeleteScanNoMatch(b, n, len, i + 1, remote);
    }
  }

  /**
   * As written, deleting a listed manager whose remote occurs only at `j`,
   * not last, leaves the first `j` managers and the one after the match:
   * everything after `j+1` is dropped.
   */
  lemma DeleteKeepsOneAfter(b: seq<ManagerRef>, n: nat, j: nat, remote: string)
    requires n <= |b| && j + 1 < n
    requires b[j].remote == remote && forall k :: 0 <= k < n && k != j ==> b[k].remote != remote
    ensures DeleteScan(b, n, n, 0, remote).Some?
    ensures var r := DeleteScan(b, n, n, 0, remote).value; r.1 == j + 1 && r.0[..r.1] == b[..j] + [b[j + 1]]
  {
    DeleteScanFrom(b, n, n, 0, j, remote);
    var b' := b[j := b[j + 1]];
    DeleteScanNoMatch(b', n, j + 1, j + 1, remote);
    assert b'[..j + 1] == b[..j] + [b[j + 1]];
  }

  /** The scan runs past the positions before the first match unchanged. */
  lemma {:induction false} DeleteScanFrom(b: seq<ManagerRef>, n: nat, len: nat, i: nat, j: nat, remote: string)
    requires n <= |b| && len <= |b| && i <= j < n
    requires forall k :: i <= k < j ==> b[k].remote != remote
    ensures DeleteScan(b, n, len, i, remote) == DeleteScan(b, n, len, j, remote)
    decreases j - i
  {
    if i < j {
      DeleteScanFrom(b, n, len, i + 1, j, remote);
    }
  }

  /** As written, deleting the manager listed last reads past the end of the slice. */
  lemma DeleteLastPanics(b: seq<ManagerRef>, n: nat, remote: string)
    requires 0 < n <= |b|
    requires b[n - 1].remote == remote && forall k :: 0 <= k < n - 1 ==> b[k].remote != remote
    ensures DeleteScan(b, n, n, 0, remote).None?
  {
    DeleteScanFrom(b, n, n, 0, n - 1, remote);
  }

  /** The scan of `AddManager` runs past the positions before the first match unchanged. */
  lemma {:induction false} AddScanFrom(b: seq<ManagerRef>, n: nat, len: nat, i: nat, j: nat, m: ManagerRef)
    requires n <= |b| && len <= |b| && i <= j < n
    requires forall k :: i <= k < j ==> b[k].remote != m.remote
    ensures AddScan(b, n, len, i, m) == AddScan(b, n, len, j, m)
    decreases j - i
  {
    if i < j {
      AddScanFrom(b, n, len, i + 1, j, m);
    }
  }

  /**
   * As written, re-adding a remote that is listed always fails: either the
   * match is last and its successor is out of range, or the manager just
   * written at `i+1` matches on the next turn, whose successor is.
   */
  lemma AddListedPanics(b: seq<ManagerRef>, n: nat, j: nat, m: ManagerRef)
    requires n <= |b| && j < n && b[j].remote == m.remote
    ensures AddScan(b, n, n, 0, m).None?
  {
    var first: nat := j;
    while exists k :: 0 <= k < first && b[k].remote == m.remote
      invariant first <= j && b[first].remote == m.remote
      decreases first
    {
      var k :| 0 <= k < first && b[k].remote == m.remote;
      first := k;
    }
    AddScanFrom(b, n, n, 0, first, m);
    if first + 1 < n {
      var b' := b[first := b[first + 1]][first + 1 := m];
      assert b'[first + 1].remote == m.remote;
    }
  }

  /** A manager of every remote it was given, by path and by remote, over a slice of them. */
  class MultiRepoManager {
    var o2m: map<string, ManagerRef>
    var p2m: map<string, ManagerRef>
    /** The slice's backing array and its length. */
    var backing: array<ManagerRef>
    var count: nat

    ghost predicate Valid()
      reads this`backing, this`count
    {
      count <= backing.Length
    }

    /** `GetManagers`. */
    function Managers(): (r: seq<ManagerRef>)
      requires Valid()
      reads this`backing, this`count, backing
      ensures |r| == count
    {
      backing[..count]
    }

    /** A manager built from its parts, as a struct literal would. */
    constructor (o2m: map<string, ManagerRef>, p2m: map<string, ManagerRef>, managers: seq<ManagerRef>)
      ensures Valid() && this.o2m == o2m && this.p2m == p2m && Managers() == managers && fresh(backing)
    {
      this.o2m := o2m;
      this.p2m := p2m;
      backing := new ManagerRef[|managers|](i requires 0 <= i < |managers| => managers[i]);
      count := |managers|;
    }

    /** `GetManagerByPath`: the manager checked out at `path`, or nil. */
    function GetManagerByPath(path: string): (r: Option<ManagerRef>)
      reads this`p2m
      ensures r.Some? <==> path in p2m
      ensures r.Some? ==> r.value == p2m[path]
    {
      if path in p2m then Some(p2m[path]) else None
    }

    /** `GetManagerByOrigin`: the manager of `remote`, or nil. */
    function GetManagerByOrigin(remote: string): (r: Option<ManagerRef>)
      reads this`o2m
      ensures r.Some? <==> remote in o2m
      ensures r.Some? ==> r.value == o2m[remote]
    {
      if remote in o2m then Some(o2m[remote]) else None
    }

    /**
     * `AddManager` as written: nil is ignored; a known remote first has
     * the list rewritten by the scan (`panicked` when it reads out of
     * range); then the manager is mapped by path and by remote. A new
     * remote never enters the list.
     */
    method AddManagerAsWritten(manager: Option<ManagerRef>) returns (panicked: bool)
      requires Valid()
      modifies this`o2m, this`p2m, this`count, backing
      ensures Valid() && backing == old(backing)
      ensures manager.None? ==> !panicked && o2m == old(o2m) && p2m == old(p2m) &&
                                count == old(count) && backing[..] == old(backing[..])
      ensures manager.Some? && manager.value.remote !in old(o2m) ==>
        !panicked && count == old(count) && backing[..] == old(backing[..])
      ensures manager.Some? && manager.value.remote in old(o2m) ==>
        var scan := AddScan(old(backing[..]), old(count), old(count), 0, manager.value);
        (panicked <==> scan.None?) && (scan.Some? ==> backing[..] == scan.value.0 && count == scan.value.1)
      ensures manager.Some? && !panicked ==>
        p2m == old(p2m)[manager.value.path := manager.value] && o2m == old(o2m)[manager.value.remote := manager.value]
    {
      if manager.None? {
        return false;
      }
      var m := manager.value;
      panicked := false;
      if m.remote in o2m {
        var n := count;
        var i := 0;
        while i < n
          invariant 0 <= i <= n && n == old(count) && count <= backing.Length
          invariant AddScan(backing[..], n, count, i, m) == AddScan(old(backing[..]), n, n, 0, m)
          invariant o2m == old(o2m) && p2m == old(p2m)
        {
          if backing[i].remote == m.remote {
            if i + 1 >= count {
              return true;
            }
            ghost var b := backing[..];
            backing[i] := backing[i + 1];
            backing[i + 1] := m;
            count := i + 2;
            assert backing[..] == b[i := b[i + 1]][i + 1 := m];
          }
          i := i + 1;
        }
      }
      p2m := p2m[m.path := m];
      o2m := o2m[m.remote := m];
    }

    /**
     * `DeleteManager` as written: an unmapped path changes nothing;
     * otherwise the path's entry and its manager's remote entry are
     * removed, and the list is rewritten by the scan on the argument's
     * remote (`panicked` when it reads out of range).
     */
    method DeleteManagerAsWritten(manager: ManagerRef) returns (panicked: bool)
      requires Valid()
      modifies this`o2m, this`p2m, this`count, backing
      ensures Valid() && backing == old(backing)
      ensures manager.path !in old(p2m) ==>
        !panicked && o2m == old(o2m) && p2m == old(p2m) && count == old(count) && backing[..] == old(backing[..])
      ensures manager.path in old(p2m) ==>
        p2m == old(p2m) - {manager.path} && o2m == old(o2m) - {old(p2m)[manager.path].remote}
      ensures manager.path in old(p2m) ==>
        var scan := DeleteScan(old(backing[..]), old(count), old(count), 0, manager.remote);
        (panicked <==> scan.None?) && (scan.Some? ==> backing[..] == scan.value.0 && count == scan.value.1)
    {
      panicked := false;
      if manager.path !in p2m {
        return;
      }
      var found := p2m[manager.path];
      p2m := p2m - {manager.path};
      o2m := o2m - {found.remote};
      var n := count;
      var i := 0;
      while i < n
        invariant 0 <= i <= n && n == old(count) && count <= backing.Length
        invariant DeleteScan(backing[..], n, count, i, manager.remote) ==
                  DeleteScan(old(backing[..]), n, n, 0, manager.remote)
        invariant p2m == old(p2m) - {manager.path} && o2m == old(o2m) - {found.remote}
      {
        if backing[i].remote == manager.remote {
          if i + 1 >= count {
            return true;
          }
          ghost var b := backing[..];
          backing[i] := backing[i + 1];
          count := i + 1;
          assert backing[..] == b[i := b[i + 1]];
        }
        i := i + 1;
      }
    }

    /** Drops the managers of `remote` from the slice, keeping the rest in order, in the same array. */
    method RemoveRemote(remote: string)
      requires Valid()
      modifies this`count, backing
      ensures Valid() && Managers() == Without(old(Managers()), remote)
    {
      ghost var s := Managers();
      var k := 0;
      var i := 0;
      while i < count
        invariant 0 <= k <= i <= count <= backing.Length && count == |s|
        invariant backing[..k] == Without(s[..i], remote)
        invariant forall j :: i <= j < count ==> backing[j] == s[j]
      {
        assert s[..i + 1][..i] == s[..i];
        var x := backing[i];
        if x.remote != remote {
          ghost var b := backing[..];
          backing[k] := x;
          assert backing[..] == b[k := x];
          assert backing[..k + 1] == b[..k] + [x];
          assert backing[..k + 1] == Without(s[..i], remote) + [x];
          k := k + 1;
        }
        i := i + 1;
      }
      assert s[..i] == s;
      count := k;
    }

    /** Appends to the slice, moving it to a larger array when the backing one is full. */
    method Append(m: ManagerRef)
      requires Valid()
      modifies this`backing, this`count, backing
      ensures Valid() && Managers() == old(Managers()) + [m]
      ensures backing == old(backing) || fresh(backing)
    {
      if count == backing.Length {
        var grown := new ManagerRef[2 * backing.Length + 1](_ => m);
        var j := 0;
        while j < count
          invariant 0 <= j <= count && grown[..j] == backing[..j]
          modifies grown
        {
          grown[j] := backing[j];
          j := j + 1;
        }
        backing := grown;
      }
      backing[count] := m;
      count := count + 1;
    }

    /** Whether some listed manager has `remote`: the match of the loop of `AddManager`. */
    method ListsRemote(remote: string) returns (found: bool)
      requires Valid()
      ensures found <==> Lists(Managers(), remote)
    {
      var i := 0;
      while i < count
        invariant 0 <= i <= count
        invariant forall k :: 0 <= k < i ==> backing[k].remote != remote
      {
        if backing[i].remote == remote {
          assert Managers()[i].remote == remote;
          return true;
        }
        i := i + 1;
      }
      return false;
    }

    /**
     * `AddManager` as evidently intended: nil is ignored; a manager whose
     * remote is mapped and listed replaces that remote's entries in the
     * list, at its end; any other keeps the list as it is. Either way it
     * is mapped by path and by remote.
     */
    method AddManager(manager: Option<ManagerRef>)
      requires Valid()
      modifies this`o2m, this`p2m, this`backing, this`count, backing
      ensures Valid()
      ensures manager.None? ==> o2m == old(o2m) && p2m == old(p2m) && Managers() == old(Managers())
      ensures (manager.Some? && manager.value.remote in old(o2m) && Lists(old(Managers()), manager.value.remote)) ==>
        Managers() == Without(old(Managers()), manager.value.remote) + [manager.value]
      ensures (manager.Some? && !(manager.value.remote in old(o2m) && Lists(old(Managers()), manager.value.remote))) ==>
        Managers() == old(Managers())
      ensures manager.Some? ==>
        p2m == old(p2m)[manager.value.path := manager.value] && o2m == old(o2m)[manager.value.remote := manager.value]
    {
      if manager.None? {
        return;
      }
      var m := manager.value;
      if m.remote in o2m {
        var listed := ListsRemote(m.remote);
        if listed {
          RemoveRemote(m.remote);
          Append(m);
        }
      }
      p2m := p2m[m.path := m];
      o2m := o2m[m.remote := m];
    }

    /**
     * `DeleteManager` as evidently intended: a mapped path loses its
     * entry, its manager's remote entry, and its remote's managers in the
     * list; the rest of the list stays in order.
     */
    method DeleteManager(manager: ManagerRef)
      requires Valid()
      modifies this`o2m, this`p2m, this`count, backing
      ensures Valid()
      ensures manager.path !in old(p2m) ==> o2m == old(o2m) && p2m == old(p2m) && Managers() == old(Managers())
      ensures manager.path in old(p2m) ==>
        p2m == old(p2m) - {manager.path} && o2m == old(o2m) - {old(p2m)[manager.path].remote} &&
        Managers() == Without(old(Managers()), manager.remote)
    {
      if manager.path !in p2m {
        return;
      }
      var found := p2m[manager.path];
      p2m := p2m - {manager.path};
      o2m := o2m - {found.remote};
      RemoveRemote(manager.remote);
    }
  }

  /** Three listed managers, the first deleted: as written only the second survives; as intended, both others. */
  lemma DeleteFirstOfThree()
    ensures var b := [ManagerRef("/a", "ga"), ManagerRef("/b", "gb"), ManagerRef("/c", "gc")];
      var r := DeleteScan(b, 3, 3, 0, "ga");
      r.Some? && r.value.0[..r.value.1] == [ManagerRef("/b", "gb")] &&
      Without(b, "ga") == [ManagerRef("/b", "gb"), ManagerRef("/c", "gc")]
  {
    var b := [ManagerRef("/a", "ga"), ManagerRef("/b", "gb"), ManagerRef("/c", "gc")];
    DeleteKeepsOneAfter(b, 3, 0, "ga");
    assert b[..0] + [b[1]] == [ManagerRef("/b", "gb")];
    assert b[..2][..1] == [ManagerRef("/a", "ga")] && b[..2] == b[..2][..1] + [b[1]];
    assert b[..1] == [ManagerRef("/a", "ga")] && b[..1][..0] == [];
  }
}
