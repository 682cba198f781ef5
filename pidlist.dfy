/**
 * The process enumerator of proc_pid.c: a growable int array of process
 * identifiers, filled either from a listing of /proc (optionally with each
 * process's task directory) or from a control group's membership file.
 * Directory listings and file contents are inputs: a listing is the
 * sequence of names readdir(3) returns, None when opendir(3) fails.
 */
module PidList {
  import opened CString


  /** How much the array grows each time it is full. */
  const Grow: nat := 64

  /** compare_pid: the qsort(3) comparator; its sign orders two identifiers. */
  function ComparePid(a: int, b: int): (r: int)
    ensures r < 0 <==> a < b
    ensures r == 0 <==> a == b
    ensures r > 0 <==> a > b
  {
    a - b
  }

  /** Ascending in the order compare_pid defines. */
  predicate Ascending(s: seq<int>) {
    forall i, j :: 0 <= i < j < |s| ==> s[i] <= s[j]
  }

  /** The insertion step of the reference sort. */
  function Insert(x: int, s: seq<int>): (r: seq<int>)
    requires Ascending(s)
    ensures Ascending(r)
    ensures |r| == |s| + 1
    ensures r[0] == x || (s != [] && r[0] == s[0])
    ensures multiset(r) == multiset(s) + multiset{x}
  {
    if s == [] then [x]
    else if ComparePid(x, s[0]) <= 0 then
      ConsAscending(x, s);
      [x] + s
    else
      var t := Insert(x, s[1..]);
      InsertHead(x, s, t);
      [s[0]] + t
  }

  /** Putting the head of s back in front of a sorted t that holds the rest. */
  lemma {:induction false} InsertHead(x: int, s: seq<int>, t: seq<int>)
    requires Ascending(s) && s != [] && s[0] < x && Ascending(t)
    requires |t| == |s| && (t[0] == x || (s[1..] != [] && t[0] == s[1..][0]))
    requires multiset(t) == multiset(s[1..]) + multiset{x}
    ensures Ascending([s[0]] + t) && |[s[0]] + t| == |s| + 1 && ([s[0]] + t)[0] == s[0]
    ensures multiset([s[0]] + t) == multiset(s) + multiset{x}
  {
    assert s == [s[0]] + s[1..];
    assert |s| > 1 ==> s[0] <= s[1];
    ConsAscending(s[0], t);
  }

  lemma {:induction false} ConsAscending(h: int, t: seq<int>)
    requires Ascending(t)
    requires t != [] ==> h <= t[0]
    ensures Ascending([h] + t)
  {
    var r := [h] + t;
    forall i, j | 0 <= i < j < |r| ensures r[i] <= r[j] {
      assert r[j] == t[j - 1];
      if i > 0 {
        assert r[i] == t[i - 1];
      }
    }
  }

  /**
   * What qsort(pids, count, sizeof(int), compare_pid) leaves in the array:
   * the same identifiers, ascending.
   */
  function SortAsc(s: seq<int>): (r: seq<int>)
    ensures Ascending(r)
    ensures |r| == |s|
    ensures multiset(r) == multiset(s)
  {
    if s == [] then []
    else
      assert s == [s[0]] + s[1..];
      Insert(s[0], SortAsc(s[1..]))
  }

  lemma {:induction false} HeadIsLeast(a: seq<int>, y: int)
    requires Ascending(a)
    requires y in multiset(a)
    ensures a != [] && a[0] <= y
  {
    assert y in a;
    var i :| 0 <= i < |a| && a[i] == y;
  }

  /** An ascending arrangement of a multiset is unique, so any correct qsort gives SortAsc. */
  lemma {:induction false} AscendingUnique(a: seq<int>, b: seq<int>)
    requires Ascending(a) && Ascending(b)
    requires multiset(a) == multiset(b)
    ensures a == b
  {
    if a != [] {
      assert a[0] in multiset(b);
      HeadIsLeast(b, a[0]);
      assert b[0] in multiset(a);
      HeadIsLeast(a, b[0]);
      assert a[0] == b[0];
      assert a == [a[0]] + a[1..];
      assert b == [b[0]] + b[1..];
      assert multiset(a[1..]) == multiset(b[1..]) by {
        assert multiset(a) == multiset{a[0]} + multiset(a[1..]);
        assert multiset(b) == multiset{b[0]} + multiset(b[1..]);
        assert multiset(a[1..]) == multiset(a) - multiset{a[0]};
        assert multiset(b[1..]) == multiset(b) - multiset{b[0]};
      }
      AscendingUnique(a[1..], b[1..]);
    } else {
      assert |b| == 0 by { assert |multiset(b)| == 0; }
    }
  }

  /** A directory entry name that isdigit() accepts as a process identifier. */
  predicate LeadsWithDigit(name: string) {
    |name| > 0 && IsDigit(name[0])
  }

  /** The identifiers tasklist_append adds from one process's task directory. */
  function TaskPids(pid: string, names: seq<string>): seq<int> {
    if names == [] then []
    else
      var rest := TaskPids(pid, names[1..]);
      if !LeadsWithDigit(names[0]) || names[0] == pid then rest else [Atoi(names[0])] + rest
  }

  /** What one entry of /proc adds to the global list. */
  function EntryPids(wantThreads: bool, name: string, tasks: map<string, seq<string>>): seq<int> {
    if !LeadsWithDigit(name) then []
    else [Atoi(name)] + (if wantThreads && name in tasks then TaskPids(name, tasks[name]) else [])
  }

  /** The identifiers refresh_global_pidlist collects before sorting, in readdir order. */
  function GlobalPids(wantThreads: bool, names: seq<string>, tasks: map<string, seq<string>>): seq<int> {
    if names == [] then []
    else GlobalPids(wantThreads, names[..|names| - 1], tasks) + EntryPids(wantThreads, names[|names| - 1], tasks)
  }

  /** An entry of /proc adds x exactly when ListedBy says so from the names themselves. */
  lemma {:induction false} EntryPidsMembers(wantThreads: bool, name: string, tasks: map<string, seq<string>>, x: int)
    ensures x in EntryPids(wantThreads, name, tasks) <==> ListedBy(wantThreads, name, tasks, x)
  {
    if name in tasks {
      TaskPidsMembers(name, tasks[name], x);
    }
  }

  /**
   * Every numeric entry of /proc contributes its identifier, and with threads
   * requested also its task identifiers; no other identifier is listed.
   */
  lemma {:induction false} GlobalPidsMembers(wantThreads: bool, names: seq<string>, tasks: map<string, seq<string>>, x: int)
    ensures x in GlobalPids(wantThreads, names, tasks) <==>
            exists k :: 0 <= k < |names| && ListedBy(wantThreads, names[k], tasks, x)
  {
    if x in GlobalPids(wantThreads, names, tasks) {
      var k := GlobalPidsSound(wantThreads, names, tasks, x);
    }
    if exists k :: 0 <= k < |names| && ListedBy(wantThreads, names[k], tasks, x) {
      var k :| 0 <= k < |names| && ListedBy(wantThreads, names[k], tasks, x);
      GlobalPidsComplete(wantThreads, names, tasks, k, x);
    }
  }

  /** Every listed identifier comes from some entry of /proc, whose index is returned. */
  lemma {:induction false} GlobalPidsSound(wantThreads: bool, names: seq<string>, tasks: map<string, seq<string>>, x: int)
    returns (k: nat)
    requires x in GlobalPids(wantThreads, names, tasks)
    ensures k < |names| && ListedBy(wantThreads, names[k], tasks, x)
  {
    var n := |names| - 1;
    var front := names[..n];
    if x in GlobalPids(wantThreads, front, tasks) {
      k := GlobalPidsSound(wantThreads, front, tasks, x);
      assert names[k] == front[k];
    } else {
      EntryPidsMembers(wantThreads, names[n], tasks, x);
      k := n;
    }
  }

  /** An entry of /proc that lists x puts x in the global list. */
  lemma {:induction false} GlobalPidsComplete(wantThreads: bool, names: seq<string>, tasks: map<string, seq<string>>, k: nat, x: int)
    requires k < |names| && ListedBy(wantThreads, names[k], tasks, x)
    ensures x in GlobalPids(wantThreads, names, tasks)
  {
    var n := |names| - 1;
    var front := names[..n];
    var g := GlobalPids(wantThreads, front, tasks);
    var e := EntryPids(wantThreads, names[n], tasks);
    assert GlobalPids(wantThreads, names, tasks) == g + e;
    if k < n {
      assert front[k] == names[k];
      GlobalPidsComplete(wantThreads, front, tasks, k, x);
    } else {
      EntryPidsMembers(wantThreads, names[n], tasks, x);
    }
    InConcat(x, g, e);
  }

  lemma {:induction false} InConcat(x: int, a: seq<int>, b: seq<int>)
    requires x in a || x in b
    ensures x in a + b
  {
  }

  lemma {:induction false} GlobalPidsSnoc(wantThreads: bool, names: seq<string>, i: nat, tasks: map<string, seq<string>>)
    requires i < |names|
    ensures GlobalPids(wantThreads, names[..i + 1], tasks) == GlobalPids(wantThreads, names[..i], tasks) + EntryPids(wantThreads, names[i], tasks)
  {
    assert names[..i + 1][..i] == names[..i];
  }

  lemma {:induction false} AppendAssoc(a: seq<int>, b: seq<int>, c: seq<int>)
    ensures (a + b) + c == a + (b + c)
  {
  }

  /** The membership file refresh_cgroup_pidlist opens. */
  function CgroupPath(wantThreads: bool, cgroup: string): (path: string)
    ensures |path| > |cgroup| + 1 && path[..|cgroup|] == cgroup && path[|cgroup|] == '/'
    ensures wantThreads <==> path[|cgroup| + 1..] == "tasks"
    ensures !wantThreads <==> path[|cgroup| + 1..] == "cgroup.procs"
  {
    cgroup + if wantThreads then "/tasks" else "/cgroup.procs"
  }

  /** The two membership files of one cgroup differ, and so do those of two different cgroups. */
  lemma {:induction false} CgroupPathsDiffer(wantThreads: bool, wantThreads': bool, cgroup: string, cgroup': string)
    requires wantThreads != wantThreads' || cgroup != cgroup'
    ensures CgroupPath(wantThreads, cgroup) != CgroupPath(wantThreads', cgroup')
  {
  }

  /** A thread's identifier is listed exactly when its name is numeric and is not the owner's. */
  lemma {:induction false} TaskPidsMembers(pid: string, names: seq<string>, x: int)
    ensures x in TaskPids(pid, names) <==>
            exists k :: 0 <= k < |names| && LeadsWithDigit(names[k]) && names[k] != pid && Atoi(names[k]) == x
  {
    if names != [] {
      TaskPidsMembers(pid, names[1..], x);
      if exists k :: 0 <= k < |names| && LeadsWithDigit(names[k]) && names[k] != pid && Atoi(names[k]) == x {
        var k :| 0 <= k < |names| && LeadsWithDigit(names[k]) && names[k] != pid && Atoi(names[k]) == x;
        if k > 0 {
          assert names[1..][k - 1] == names[k];
        }
      }
      if x in TaskPids(pid, names[1..]) {
        var k :| 0 <= k < |names[1..]| && LeadsWithDigit(names[1..][k]) && names[1..][k] != pid && Atoi(names[1..][k]) == x;
        assert names[k + 1] == names[1..][k];
      }
    }
  }

  /**
   * Whether the /proc entry called name makes x part of the global list: its
   * name is numeric and reads as x, or threads are wanted and x is what one of
   * its numeric task names other than name itself reads as.
   */
  predicate ListedBy(wantThreads: bool, name: string, tasks: map<string, seq<string>>, x: int) {
    LeadsWithDigit(name)
    && (Atoi(name) == x
        || (wantThreads && name in tasks
            && exists k :: 0 <= k < |tasks[name]| && LeadsWithDigit(tasks[name][k]) && tasks[name][k] != name && Atoi(tasks[name][k]) == x))
  }

  /**
   * proc_pid_list_t: the identifiers in pids[0..count) of an allocation of
   * size slots (slots past count hold whatever was there before; fresh ones
   * are shown as 0).  The realloc failure path (count and size reset to
   * zero) is not modelled.
   */
  class PidList {
    var pids: seq<int>
    var count: nat
    var size: nat

    ghost predicate Valid()
      reads this
    {
      size == |pids| && count <= size
    }

    function Contents(): (s: seq<int>)
      reads this
      requires Valid()
      ensures |s| == count
    {
      pids[..count]
    }

    /** The zero-initialised static list. */
    constructor ()
      ensures Valid()
      ensures Contents() == [] && size == 0
    {
      pids := [];
      count, size := 0, 0;
    }

    /** pidlist_append_pid: store pid at index count, growing by 64 slots only when full. */
    method AppendPid(pid: int)
      requires Valid()
      modifies this
      ensures Valid()
      ensures Contents() == old(Contents()) + [pid]
      ensures size == if old(count) >= old(size) then old(size) + Grow else old(size)
    {
      if count >= size {
        size := size + Grow;
        pids := pids + seq(Grow, _ => 0);
      }
      pids := pids[count := pid];
      count := count + 1;
      assert Contents() == old(Contents()) + [pid];
    }

    /** pidlist_append: append the identifier atoi(3) reads from a directory entry name. */
    method AppendName(name: string)
      requires Valid()
      modifies this
      ensures Valid()
      ensures Contents() == old(Contents()) + [Atoi(name)]
    {
      AppendPid(Atoi(name));
    }

    /**
     * tasklist_append: append every numeric entry of /proc/<pid>/task except
     * the one named like the owning process; a task directory that cannot be
     * opened adds nothing.
     */
    method TaskListAppend(pid: string, taskDir: Option<seq<string>>)
      requires Valid()
      modifies this
      ensures Valid()
      ensures Contents() == old(Contents()) + (if taskDir.Some? then TaskPids(pid, taskDir.value) else [])
    {
      if taskDir.Some? {
        var names := taskDir.value;
        var i := 0;
        while i < |names|
          invariant 0 <= i <= |names|
          invariant Valid()
          invariant Contents() + TaskPids(pid, names[i..]) == old(Contents()) + TaskPids(pid, names)
        {
          assert names[i..][1..] == names[i + 1..];
          ghost var rest := TaskPids(pid, names[i + 1..]);
          var name := names[i];
          if !LeadsWithDigit(name) || pid == name {
            i := i + 1;
            continue;
          }
          ghost var done := Contents();
          AppendName(name);
          AppendAssoc(done, [Atoi(name)], rest);
          i := i + 1;
        }
      }
    }

    /** One iteration of the readdir loop of refresh_global_pidlist. */
    method AppendEntry(wantThreads: bool, name: string, tasks: map<string, seq<string>>)
      requires Valid()
      modifies this
      ensures Valid()
      ensures Contents() == old(Contents()) + EntryPids(wantThreads, name, tasks)
    {
      if LeadsWithDigit(name) {
        ghost var before := Contents();
        var pid := Atoi(name);
        AppendPid(pid);
        ghost var extra: seq<int> := if wantThreads && name in tasks then TaskPids(name, tasks[name]) else [];
        if wantThreads {
          var dir := if name in tasks then Some(tasks[name]) else None;
          TaskListAppend(name, dir);
        } else {
          assert before + [pid] == before + [pid] + extra;
        }
        AppendAssoc(before, [pid], extra);
      }
    }

    /** qsort(pids, count, sizeof(int), compare_pid). */
    method Sort()
      requires Valid()
      modifies this
      ensures Valid() && count == old(count) && size == old(size)
      ensures Contents() == SortAsc(old(Contents()))
    {
      var sorted := SortAsc(pids[..count]);
      pids := sorted + pids[count..];
      assert pids[..count] == sorted;
    }

    /**
     * refresh_global_pidlist: list the numeric entries of /proc (and, when
     * threads are wanted, their task entries), then sort ascending.  When
     * /proc cannot be opened the list is left as it was and the status is
     * negative; otherwise the status is the new count.
     */
    method RefreshGlobal(wantThreads: bool, proc: Option<seq<string>>, tasks: map<string, seq<string>>)
      returns (sts: int)
      requires Valid()
      modifies this
      ensures Valid()
      ensures proc.None? ==> sts < 0 && Contents() == old(Contents())
      ensures proc.Some? ==> Contents() == SortAsc(GlobalPids(wantThreads, proc.value, tasks))
      ensures proc.Some? ==> sts == count
    {
      if proc.None? {
        return -1;
      }
      var names := proc.value;
      count := 0;
      var i := 0;
      while i < |names|
        invariant 0 <= i <= |names|
        invariant Valid()
        invariant Contents() == GlobalPids(wantThreads, names[..i], tasks)
      {
        GlobalPidsSnoc(wantThreads, names, i, tasks);
        AppendEntry(wantThreads, names[i], tasks);
        i := i + 1;
      }
      assert names[..i] == names;
      ghost var listed := GlobalPids(wantThreads, names, tasks);
      Sort();
      assert Contents() == SortAsc(listed);
      sts := count;
    }

    /**
     * refresh_cgroup_pidlist: the identifiers of the group's "tasks" file
     * (threads wanted) or "cgroup.procs" file, in file order; a file that
     * cannot be opened gives the empty list.  `files` maps a path to the
     * integers fscanf("%d\n") reads from it.
     */
    method RefreshCgroup(wantThreads: bool, cgroup: string, files: map<string, seq<int>>)
      returns (sts: int)
      requires Valid()
      modifies this
      ensures Valid()
      ensures Contents() == var path := CgroupPath(wantThreads, cgroup); if path in files then files[path] else []
      ensures sts == count
    {
      var path := CgroupPath(wantThreads, cgroup);
      count := 0;
      if path in files {
        var xs := files[path];
        var i := 0;
        while i < |xs|
          invariant 0 <= i <= |xs|
          invariant Valid()
          invariant Contents() == xs[..i]
        {
          assert xs[..i + 1] == xs[..i] + [xs[i]];
          AppendPid(xs[i]);
          i := i + 1;
        }
        assert xs[..|xs|] == xs;
      }
      sts := count;
    }
  }
}
