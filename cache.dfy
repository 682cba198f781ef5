/**
 * proc_pid_t: the per-process cache.  refresh_proc_pidlist reconciles it
 * with a new pid list (invalidate every entry, walk the list adding the
 * new pids with their labels, republish the instance table, harvest the
 * entries left invalid); refresh_proc_pid builds the list first; the
 * fetch_proc_pid_* entry points look an id up and run its fetcher.
 *
 * The hash table is a map from id to entry.  The files of /proc are
 * inputs: a function from pid to what reading its cmdline or status file
 * gives, and for each fetch the read it performs.
 */
module ProcCache {
  import opened CString
  import opened Label
  import opened ProcEntry
  import opened PidList
  import LineScan
  import Cgroup
  import opened PidWalk
  import EntryFacts

  /** it_set after `realloc(it_set, count * sizeof(pmdaInstid))`: the slots that fit, then fresh ones. */
  function ResizeSlots(s: seq<(int, string)>, n: nat): (r: seq<(int, string)>)
    ensures |r| == n
    ensures forall i :: 0 <= i < n && i < |s| ==> r[i] == s[i]
  {
    if n <= |s| then s[..n] else s + seq(n - |s|, _ => (0, ""))
  }

  /** The next key a loop over the hash buckets visits: any of those not visited yet. */
  method Pick(keys: set<int>) returns (k: int)
    requires keys != {}
    ensures k in keys
  {
    assert exists x :: x in keys by {
      if forall x :: x !in keys {
        assert false;
      }
    }
    k :| k in keys;
  }

  /** Every entry is filed under its own id, which fits an int, and its buffers are well formed. */
  predicate WfTable(t: map<int, Entry>) {
    forall k :: k in t ==> t[k].id == k && Int32(k) && Wf(t[k])
  }

  /** The table part way through the invalidate loop: the entries under `done` reset. */
  function ResetSome(t: map<int, Entry>, done: set<int>): (r: map<int, Entry>)
    ensures r.Keys == t.Keys
  {
    map k | k in t :: if k in done then Reset(t[k]) else t[k]
  }

  lemma {:induction false} ResetStep(t: map<int, Entry>, done: set<int>, k: int)
    requires k in t
    ensures ResetSome(t, done)[k := Reset(t[k])] == ResetSome(t, done + {k})
  {
  }

  lemma {:induction false} ResetSomeWf(t: map<int, Entry>, done: set<int>)
    requires WfTable(t)
    ensures WfTable(ResetSome(t, done))
  {
  }

  /** The table part way through the harvest loop: the invalid entries under `done` dropped. */
  function KeepSome(t: map<int, Entry>, done: set<int>): (r: map<int, Entry>)
    ensures forall k :: k in r <==> k in t && (k !in done || t[k].valid)
    ensures forall k :: k in r ==> r[k] == t[k]
  {
    map k | k in t && (k !in done || t[k].valid) :: t[k]
  }

  lemma {:induction false} KeepStep(t: map<int, Entry>, done: set<int>, k: int)
    requires k in t && k !in done
    ensures var r := KeepSome(t, done);
      (if r[k].valid then r else map j | j in r && j != k :: r[j]) == KeepSome(t, done + {k})
  {
  }

  /** An entry the walk saw in the pid list: marked valid. */
  function Mark(e: Entry): (r: Entry)
    ensures r.valid && r.id == e.id && r.name == e.name
  {
    e.(valid := true)
  }

  /** The entry the walk creates for a pid that was not cached. */
  function Fresh(k: int, name: string): (r: Entry)
    ensures r.valid && r.id == k && r.name == name && Wf(r)
  {
    Mark(NewEntry(k, name))
  }

  /**
   * The table part way through the walk: the entries created for the
   * labels in m, and the cached entries whose pid is among those passed
   * marked valid.
   */
  function Listed(t: map<int, Entry>, m: map<int, string>, passed: seq<int>): (r: map<int, Entry>)
    ensures r.Keys == t.Keys + m.Keys
  {
    map k | k in t.Keys + m.Keys :: if k in m then Fresh(k, m[k]) else if k in passed then Mark(t[k]) else t[k]
  }

  lemma {:induction false} ListedOld(t: map<int, Entry>, m: map<int, string>, pids: seq<int>, i: nat)
    requires i < |pids| && (pids[i] in t || pids[i] in m)
    ensures var r := Listed(t, m, pids[..i]); r[pids[i] := Mark(r[pids[i]])] == Listed(t, m, pids[..i + 1])
  {
    assert pids[..i + 1] == pids[..i] + [pids[i]];
    if pids[i] in m {
      var e := Fresh(pids[i], m[pids[i]]);
      assert Mark(e) == e;
    }
  }

  lemma {:induction false} ListedNew(t: map<int, Entry>, m: map<int, string>, pids: seq<int>, i: nat, name: string)
    requires i < |pids| && pids[i] !in t && pids[i] !in m
    ensures Listed(t, m, pids[..i])[pids[i] := Fresh(pids[i], name)] == Listed(t, m[pids[i] := name], pids[..i + 1])
  {
    assert pids[..i + 1] == pids[..i] + [pids[i]];
  }

  lemma {:induction false} ListedNames(t: map<int, Entry>, m: map<int, string>, passed: seq<int>)
    ensures forall k :: k in t || k in m ==> Listed(t, m, passed)[k].name == NameOf(t, m, k)
  {
  }

  lemma {:induction false} ListedWf(t: map<int, Entry>, m: map<int, string>, passed: seq<int>)
    requires WfTable(t)
    requires forall k :: k in m ==> Int32(k)
    ensures WfTable(Listed(t, m, passed))
  {
  }

  /**
   * The walk has passed the first i listed pids: m holds the labels built
   * so far, b is the shared buffer, and the table is the cached one with
   * those pids marked valid and the new ones added.
   */
  predicate Walked(t0: map<int, Entry>, pids: seq<int>, step: Labeller, b0: seq<char>,
                   i: nat, m: map<int, string>, b: seq<char>, table: map<int, Entry>)
    requires i <= |pids|
  {
    Walk(t0.Keys, pids, step, b0, i).Some? && Walk(t0.Keys, pids, step, b0, i).value == (m, b)
    && table == Listed(t0, m, pids[..i])
    && (forall k :: k in m ==> Int32(k))
  }

  /** The walk over a pid that is cached or was seen before: its entry is marked valid. */
  lemma {:induction false} VisitOld(t0: map<int, Entry>, pids: seq<int>, step: Labeller, b0: seq<char>,
                 i: nat, m: map<int, string>, b: seq<char>, table: map<int, Entry>)
    requires i < |pids|
    requires Walked(t0, pids, step, b0, i, m, b, table) && pids[i] in table
    ensures Walked(t0, pids, step, b0, i + 1, m, b, table[pids[i] := Mark(table[pids[i]])])
  {
    WalkSkips(t0.Keys, pids, step, b0, i, m, b);
    ListedOld(t0, m, pids, i);
  }

  /** Which name the walk has for a pid: the label it built, else the cached entry's. */
  function NameOf(t0: map<int, Entry>, m: map<int, string>, k: int): string
    requires k in t0 || k in m
  {
    if k in m then m[k] else t0[k].name
  }

  /** Slots 0..i-1 name the first i listed pids with the names the walk has for them. */
  predicate Published(slots: seq<(int, string)>, pids: seq<int>, t0: map<int, Entry>, m: map<int, string>, i: nat)
    requires i <= |pids| && i <= |slots|
  {
    forall j :: 0 <= j < i ==> (pids[j] in t0 || pids[j] in m) && slots[j] == (pids[j], NameOf(t0, m, pids[j]))
  }

  lemma {:induction false} PublishNext(slots: seq<(int, string)>, pids: seq<int>, t0: map<int, Entry>, m: map<int, string>, m': map<int, string>, i: nat, name: string)
    requires i < |pids| && i < |slots| && Published(slots, pids, t0, m, i)
    requires forall k :: k in m ==> k in m' && m'[k] == m[k]
    requires forall k :: k in m' ==> k !in t0
    requires (pids[i] in t0 || pids[i] in m') && name == NameOf(t0, m', pids[i])
    ensures Published(slots[i := (pids[i], name)], pids, t0, m', i + 1)
  {
    forall j | 0 <= j < i
      ensures NameOf(t0, m', pids[j]) == NameOf(t0, m, pids[j])
    {
    }
  }

  /**
   * The second loop is at pid i of the list: what it was given (a walk that
   * gets through the whole list, with labels pinned to the files) and
   * what it has done so far (Walked, Published).
   */
  ghost predicate Listing(t0: map<int, Entry>, pids: seq<int>, step: Labeller, cmdline: int -> Read, status: int -> Read,
                          b0: seq<char>, s0: seq<(int, string)>, i: nat, m: map<int, string>, b: seq<char>,
                          table: map<int, Entry>, slots: seq<(int, string)>)
  {
    i <= |pids| <= |s0| == |slots| && |b| == BufSize && Labels(step, cmdline, status)
    && (forall j :: 0 <= j < |pids| ==> Int32(pids[j]))
    && Walk(t0.Keys, pids, step, b0, |pids|).Some?
    && Walked(t0, pids, step, b0, i, m, b, table) && Published(slots, pids, t0, m, i)
  }

  /** One turn of the second loop: pid i gets its entry, and slot i its name. */
  method ListOne(ghost t0: map<int, Entry>, pids: seq<int>, ghost step: Labeller, cmdline: int -> Read, status: int -> Read,
                 ghost b0: seq<char>, ghost s0: seq<(int, string)>, i: nat, ghost m: map<int, string>,
                 table: map<int, Entry>, slots: seq<(int, string)>, buf: array<char>)
    returns (table': map<int, Entry>, slots': seq<(int, string)>, ghost m': map<int, string>)
    requires i < |pids| && Listing(t0, pids, step, cmdline, status, b0, s0, i, m, buf[..], table, slots)
    modifies buf
    ensures Listing(t0, pids, step, cmdline, status, b0, s0, i + 1, m', buf[..], table', slots')
  {
    var p := pids[i];
    if p !in table {
      table', slots', m' := ListNew(t0, pids, step, cmdline, status, b0, s0, i, m, table, slots, buf);
    } else {
      ListOld(t0, pids, step, cmdline, status, b0, s0, i, m, buf[..], table, slots);
      table' := table[p := Mark(table[p])];
      slots' := slots[i := (p, table'[p].name)];
      m' := m;
    }
  }

  /** A pid the table does not hold yet: its entry is created with the label built on the buffer. */
  method ListNew(ghost t0: map<int, Entry>, pids: seq<int>, ghost step: Labeller, cmdline: int -> Read, status: int -> Read,
                 ghost b0: seq<char>, ghost s0: seq<(int, string)>, i: nat, ghost m: map<int, string>,
                 table: map<int, Entry>, slots: seq<(int, string)>, buf: array<char>)
    returns (table': map<int, Entry>, slots': seq<(int, string)>, ghost m': map<int, string>)
    requires i < |pids| && pids[i] !in table
    requires Listing(t0, pids, step, cmdline, status, b0, s0, i, m, buf[..], table, slots)
    modifies buf
    ensures Listing(t0, pids, step, cmdline, status, b0, s0, i + 1, m', buf[..], table', slots')
  {
    var p := pids[i];
    WalkPrefix(t0.Keys, pids, step, b0, i + 1, |pids|);
    var name := LabelNew(t0.Keys, pids, step, cmdline, status, b0, i, m, buf);
    ListedNew(t0, m, pids, i, name);
    m' := m[p := name];
    PublishNext(slots, pids, t0, m, m', i, name);
    table' := table[p := Fresh(p, name)];
    slots' := slots[i := (p, name)];
  }

  /** A pid the table holds (cached, or met earlier in the list): its entry is marked valid. */
  lemma {:induction false} ListOld(t0: map<int, Entry>, pids: seq<int>, step: Labeller, cmdline: int -> Read, status: int -> Read,
                b0: seq<char>, s0: seq<(int, string)>, i: nat, m: map<int, string>, b: seq<char>,
                table: map<int, Entry>, slots: seq<(int, string)>)
    requires i < |pids| && pids[i] in table
    requires Listing(t0, pids, step, cmdline, status, b0, s0, i, m, b, table, slots)
    ensures var t := table[pids[i] := Mark(table[pids[i]])];
      Listing(t0, pids, step, cmdline, status, b0, s0, i + 1, m, b, t, slots[i := (pids[i], t[pids[i]].name)])
  {
    VisitOld(t0, pids, step, b0, i, m, b, table);
    ListedNames(t0, m, pids[..i]);
    PublishNext(slots, pids, t0, m, m, i, table[pids[i]].name);
  }

  /**
   * The second loop of refresh_proc_pidlist over the table and the slots as
   * values: each listed pid not in the table gets a new entry with the label
   * built on the shared buffer, every listed entry is marked valid, and slot
   * i names pid i.
   */
  method ListAll(pids: seq<int>, ghost step: Labeller, cmdline: int -> Read, status: int -> Read,
                 t0: map<int, Entry>, s0: seq<(int, string)>, buf: array<char>)
    returns (table: map<int, Entry>, slots: seq<(int, string)>, ghost m: map<int, string>)
    requires buf.Length == BufSize && |pids| <= |s0| && Labels(step, cmdline, status)
    requires forall i :: 0 <= i < |pids| ==> Int32(pids[i])
    requires Walk(t0.Keys, pids, step, buf[..], |pids|).Some?
    modifies buf
    ensures Walk(t0.Keys, pids, step, old(buf[..]), |pids|).value == (m, buf[..])
    ensures table == Listed(t0, m, pids) && (forall k :: k in m ==> Int32(k))
    ensures |slots| == |s0| && Published(slots, pids, t0, m, |pids|)
  {
    ghost var b0 := buf[..];
    table, slots, m := t0, s0, map[];
    var i := 0;
    assert pids[..0] == [];
    while i < |pids|
      invariant Listing(t0, pids, step, cmdline, status, b0, s0, i, m, buf[..], table, slots)
    {
      table, slots, m := ListOne(t0, pids, step, cmdline, status, b0, s0, i, m, table, slots, buf);
      i := i + 1;
    }
    assert pids[..i] == pids;
  }

  /** r is t with every entry reset. */
  predicate AllReset(t: map<int, Entry>, r: map<int, Entry>) {
    r.Keys == t.Keys && forall k :: k in r ==> r[k] == Reset(t[k])
  }

  /** r is t without its invalid entries. */
  ghost predicate Harvested(t: map<int, Entry>, r: map<int, Entry>) {
    (forall k :: k in r <==> k in t && t[k].valid) && forall k :: k in r ==> r[k] == t[k]
  }

  /**
   * t is the table after a refresh of t0 by the list pids, m the labels of
   * the new pids: exactly the listed pids, the cached ones reset and marked
   * valid, the new ones created with their labels.
   */
  ghost predicate Refreshed(t0: map<int, Entry>, m: map<int, string>, pids: seq<int>, t: map<int, Entry>) {
    (forall k :: k in t <==> k in pids)
    && (forall k :: k in t && k in t0 ==> t[k] == Mark(Reset(t0[k])))
    && (forall k :: k in t && k !in t0 ==> k in m && t[k] == Fresh(k, m[k]))
  }

  /** inst numbers the listed pids in list order, each with the name of its entry. */
  predicate Numbered(inst: seq<(int, string)>, pids: seq<int>, t: map<int, Entry>) {
    |inst| == |pids| && forall i :: 0 <= i < |pids| ==> pids[i] in t && inst[i] == (pids[i], t[pids[i]].name)
  }

  /**
   * What the harvest leaves of the table after the walk: exactly the listed
   * pids, the cached ones as reset and marked valid, the new ones as created
   * with the walk's labels.
   */
  lemma {:induction false} Survivors(t0: map<int, Entry>, tr: map<int, Entry>, m: map<int, string>, pids: seq<int>, t2: map<int, Entry>)
    requires AllReset(t0, tr) && m.Keys == NewAmong(t0.Keys, pids, |pids|)
    requires Harvested(Listed(tr, m, pids), t2)
    ensures Refreshed(t0, m, pids, t2)
  {
    forall k | k in pids
      ensures k in t2
    {
      var i :| 0 <= i < |pids| && pids[i] == k;
      assert k in t0 || k in NewAmong(t0.Keys, pids, |pids|);
    }
    forall k | k in t2
      ensures k in pids
    {
      if k !in m {
        assert !tr[k].valid;
      } else {
        assert k in NewAmong(t0.Keys, pids, |pids|);
      }
    }
  }

  // ---------------------------------------------------------------------
  // The status and io scans on an entry

  /** The status scan is defined on the buffer the status step leaves (it would run off it otherwise). */
  predicate StatusScannable(e: Entry, f: Read, allocOk: bool)
    requires Wf(e)
  {
    var r := StatusStep(e, f, allocOk);
    r.1 == Scan ==> LineScan.StatusScan(CStr(r.0.status.buf.bytes), r.0.statusLines).Some?
  }

  /**
   * e' is e after the status scan: the lines the scan computes from the
   * text, the buffer the same but for newlines cut to NULs, each line
   * pointer kept from before or reading as its line.
   */
  ghost predicate StatusScanned(e: Entry, e': Entry)
    requires e.status.buf.Block? && NUL in e.status.buf.bytes
  {
    var b := e.status.buf.bytes;
    var t := CStr(b);
    e'.status.buf.Block? && e'.status.buflen == e.status.buflen
    && e' == e.(status := e'.status, statusLines := e'.statusLines)
    && LineScan.StatusScan(t, e.statusLines) == Some(e'.statusLines)
    && LineScan.Cut(b, e'.status.buf.bytes)
    && LineScan.EachKeptOrLine(e.statusLines, e'.statusLines, e'.status.buf.bytes, t)
  }

  /** e' is e after the io split: the seven lines of the text, each reading as its line. */
  ghost predicate IoScanned(e: Entry, e': Entry)
    requires e.io.buf.Block? && NUL in e.io.buf.bytes
  {
    var b := e.io.buf.bytes;
    var t := CStr(b);
    var r := e'.ioLines;
    e'.io.buf.Block? && e'.io.buflen == e.io.buflen
    && e' == e.(io := e'.io, ioLines := r)
    && r == LineScan.IoSplit(t) && LineScan.Cut(b, e'.io.buf.bytes)
    && var nb := e'.io.buf.bytes;
    LineScan.Pointer(nb, t, r.rchar) && LineScan.Pointer(nb, t, r.wchar)
    && LineScan.Pointer(nb, t, r.syscr) && LineScan.Pointer(nb, t, r.syscw)
    && LineScan.Pointer(nb, t, r.readb) && LineScan.Pointer(nb, t, r.writeb)
    && LineScan.Pointer(nb, t, r.cancel)
  }

  /** The label fetch keeps the entry's id and the string table free of repeats. */
  lemma {:induction false} LabelDistinct(e: Entry, f: Read, tab: seq<string>, stack: seq<char>)
    requires Wf(e) && Int32(e.id) && |stack| == ReadMax && Distinct(tab)
    requires LabelFetch(e, f, tab, stack).Some?
    ensures LabelFetch(e, f, tab, stack).value.0.id == e.id && Distinct(LabelFetch(e, f, tab, stack).value.1)
  {
    if !e.labelFetched && f.Got? && Take(f.data, ReadMax) != [] {
      var s := AttrText(e.id, stack, Take(f.data, ReadMax)).value;
      EntryFacts.InternDistinct(tab, s);
    }
  }

  /**
   * The pid list refresh_proc_pid builds: that of the cgroup when one is
   * named (a NULL cgroups string is the empty one), otherwise the sorted
   * list of /proc; None when /proc does not open.
   */
  function ListFor(wantThreads: bool, cgroups: string, proc: Option<seq<string>>,
                   tasks: map<string, seq<string>>, files: map<string, seq<int>>): Option<seq<int>>
  {
    if cgroups != [] && cgroups[0] != NUL then
      var path := CgroupPath(wantThreads, cgroups);
      Some(if path in files then files[path] else [])
    else if proc.None? then None
    else Some(SortAsc(GlobalPids(wantThreads, proc.value, tasks)))
  }

  /** A second refresh by the same list finds every pid cached: it builds no label and leaves the buffer alone. */
  lemma {:induction false} RefreshAgain(t0: map<int, Entry>, m: map<int, string>, pids: seq<int>, t: map<int, Entry>, step: Labeller, b: seq<char>)
    requires Refreshed(t0, m, pids, t)
    ensures Walk(t.Keys, pids, step, b, |pids|) == Some((map[], b))
  {
    forall i | 0 <= i < |pids|
      ensures pids[i] in t.Keys
    {
      assert pids[i] in pids;
      assert (forall k :: k in t <==> k in pids);
    }
    WalkAllKnown(t.Keys, pids, step, b, |pids|);
  }

  class ProcPid {
    /** pidhash: each cached entry under its id. */
    var table: map<int, Entry>
    /** indom->it_set, all its slots, and indom->it_numinst. */
    var slots: seq<(int, string)>
    var numinst: nat
    /** The interned strings proc_strings_insert hands out identifiers for. */
    var strings: seq<string>

    ghost predicate Valid()
      reads this
    {
      WfTable(table) && numinst <= |slots| && Distinct(strings)
    }

    /** The instance table: the first it_numinst slots. */
    function Instances(): (r: seq<(int, string)>)
      reads this
      requires Valid()
      ensures |r| == numinst
    {
      slots[..numinst]
    }

    /** The empty cache. */
    constructor ()
      ensures Valid()
      ensures table == map[] && Instances() == [] && strings == []
    {
      table := map[];
      slots := [];
      numinst := 0;
      strings := [];
    }

    /** The first loop: every entry reset, none added or removed. */
    method Invalidate()
      requires Valid()
      modifies this
      ensures Valid()
      ensures AllReset(old(table), table)
      ensures slots == old(slots) && numinst == old(numinst) && strings == old(strings)
    {
      ghost var t0 := table;
      var keys := table.Keys;
      while keys != {}
        invariant keys <= t0.Keys
        invariant table == ResetSome(t0, t0.Keys - keys)
        invariant slots == old(slots) && numinst == old(numinst) && strings == old(strings)
        decreases keys
      {
        var k := Pick(keys);
        ResetStep(t0, t0.Keys - keys, k);
        assert t0.Keys - keys + {k} == t0.Keys - (keys - {k});
        table := table[k := Reset(table[k])];
        keys := keys - {k};
      }
      assert t0.Keys - keys == t0.Keys;
      ResetSomeWf(t0, t0.Keys);
    }

    /**
     * The second loop: each listed pid not in the table gets a new entry
     * with the label built on the shared buffer, every listed entry is
     * marked valid, and slot i of the instance table names pid i.
     */
    method AddListed(pids: seq<int>, ghost step: Labeller, cmdline: int -> Read, status: int -> Read, buf: array<char>)
      requires Valid() && buf.Length == BufSize && |pids| <= |slots| && Labels(step, cmdline, status)
      requires forall i :: 0 <= i < |pids| ==> Int32(pids[i])
      requires Walk(table.Keys, pids, step, buf[..], |pids|).Some?
      modifies this, buf
      ensures Valid()
      ensures var w := Walk(old(table).Keys, pids, step, old(buf[..]), |pids|).value;
        buf[..] == w.1 && table == Listed(old(table), w.0, pids)
      ensures |slots| == old(|slots|) && numinst == old(numinst) && strings == old(strings)
      ensures forall i :: 0 <= i < |pids| ==> pids[i] in table && slots[i] == (pids[i], table[pids[i]].name)
    {
      ghost var t0 := table;
      ghost var m;
      table, slots, m := ListAll(pids, step, cmdline, status, table, slots, buf);
      ListedWf(t0, m, pids);
      ListedNames(t0, m, pids);
    }

    /**
     * refresh_proc_pidlist: the instance table grows to fit the list (and
     * is cut to it when it was larger than it_numinst), every entry is
     * reset, the walk adds the new pids with their labels and numbers the
     * instances in list order, and the entries whose pid is not listed are
     * dropped.  The status is the list's length.
     */
    method RefreshPidlist(pids: seq<int>, ghost step: Labeller, cmdline: int -> Read, status: int -> Read, buf: array<char>)
      returns (n: int)
      requires Valid() && buf.Length == BufSize && Labels(step, cmdline, status)
      requires forall i :: 0 <= i < |pids| ==> Int32(pids[i])
      requires Walk(table.Keys, pids, step, buf[..], |pids|).Some?
      modifies this, buf
      ensures Valid() && n == |pids| && strings == old(strings)
      ensures var w := Walk(old(table).Keys, pids, step, old(buf[..]), |pids|).value;
        buf[..] == w.1 && Refreshed(old(table), w.0, pids, table)
      ensures Numbered(Instances(), pids, table)
    {
      ghost var t0 := table;
      ghost var b0 := buf[..];
      if numinst < |pids| {
        slots := ResizeSlots(slots, |pids|);
      }
      numinst := |pids|;
      Invalidate();
      ghost var tr := table;
      AddListed(pids, step, cmdline, status, buf);
      ghost var t1 := table;
      Harvest();
      ghost var m := Walk(t0.Keys, pids, step, b0, |pids|).value.0;
      Survivors(t0, tr, m, pids, table);
      n := |pids|;
    }

    // -------------------------------------------------------------------
    // The fetchers: each looks the id up and, when it is cached, runs the
    // entry's fetcher; an id that is not cached gives NULL and no change.

    /** fetch_proc_pid_stat. */
    method FetchStat(id: int, stat: Read, wchan: Read) returns (found: bool)
      requires Valid()
      modifies this`table
      ensures Valid()
      ensures id !in old(table) ==> !found && table == old(table)
      ensures id in old(table) ==>
        var r := StatFetch(old(table)[id], stat, wchan); table == old(table)[id := r.0] && found == r.1
    {
      if id !in table {
        return false;
      }
      var r := StatFetch(table[id], stat, wchan);
      table := table[id := r.0];
      found := r.1;
    }

    /**
     * fetch_proc_pid_status: the read and copy, then on success the line
     * scan, which cuts lines of the buffer in place.
     */
    method FetchStatus(id: int, f: Read, allocOk: bool) returns (found: bool)
      requires Valid()
      requires id in table ==> StatusScannable(table[id], f, allocOk)
      modifies this`table
      ensures Valid()
      ensures id !in old(table) ==> !found && table == old(table)
      ensures id in old(table) ==>
        var r := StatusStep(old(table)[id], f, allocOk);
        found == (r.1 != Failed) && id in table && table == old(table)[id := table[id]]
        && (r.1 == Scan ==> StatusScanned(r.0, table[id]))
        && (r.1 != Scan ==> table[id] == r.0)
    {
      if id !in table {
        return false;
      }
      var r := StatusStep(table[id], f, allocOk);
      var e := r.0;
      if r.1 == Scan {
        var nb, lines := LineScan.ScanStatus(e.status.buf.bytes, e.statusLines);
        var st := Store(e.status.buflen, Block(nb));
        e := e.(status := st, statusLines := lines);
      }
      table := table[id := e];
      found := r.1 != Failed;
    }

    /** fetch_proc_pid_statm. */
    method FetchStatm(id: int, f: Read) returns (found: bool)
      requires Valid()
      modifies this`table
      ensures Valid()
      ensures id !in old(table) ==> !found && table == old(table)
      ensures id in old(table) ==>
        var r := StatmFetch(old(table)[id], f); table == old(table)[id := r.0] && found == r.1
    {
      if id !in table {
        return false;
      }
      var r := StatmFetch(table[id], f);
      table := table[id := r.0];
      found := r.1;
    }

    /**
     * fetch_proc_pid_maps: None when the file does not open, otherwise the
     * chunks its read loop gets, each non-empty.
     */
    method FetchMaps(id: int, f: Option<seq<seq<char>>>) returns (found: bool)
      requires Valid()
      requires f.Some? ==> forall i :: 0 <= i < |f.value| ==> f.value[i] != []
      modifies this`table
      ensures Valid()
      ensures id !in old(table) ==> !found && table == old(table)
      ensures id in old(table) ==>
        var r := MapsFetch(old(table)[id], f); table == old(table)[id := r.0] && found == r.1
    {
      if id !in table {
        return false;
      }
      var e := table[id];
      if e.mapsFetched {
        return true;
      }
      if f.None? {
        return false;
      }
      var m := ReadMaps(e.maps, f.value);
      var e1 := e.(mapsFetched := true, maps := m);
      table := table[id := e1];
      found := true;
    }

    /** fetch_proc_pid_schedstat. */
    method FetchSchedstat(id: int, f: Read) returns (found: bool)
      requires Valid()
      modifies this`table
      ensures Valid()
      ensures id !in old(table) ==> !found && table == old(table)
      ensures id in old(table) ==>
        var r := SchedstatFetch(old(table)[id], f); table == old(table)[id := r.0] && found == r.1
    {
      if id !in table {
        return false;
      }
      var r := SchedstatFetch(table[id], f);
      table := table[id := r.0];
      found := r.1;
    }

    /** fetch_proc_pid_io: the read and copy, then on success the seven-line split. */
    method FetchIo(id: int, f: Read, allocOk: bool) returns (found: bool)
      requires Valid()
      modifies this`table
      ensures Valid()
      ensures id !in old(table) ==> !found && table == old(table)
      ensures id in old(table) ==>
        var r := IoStep(old(table)[id], f, allocOk);
        found == (r.1 != Failed) && id in table && table == old(table)[id := table[id]]
        && (r.1 == Scan ==> IoScanned(r.0, table[id]))
        && (r.1 != Scan ==> table[id] == r.0)
    {
      if id !in table {
        return false;
      }
      var r := IoStep(table[id], f, allocOk);
      var e := r.0;
      if r.1 == Scan {
        var nb, lines := LineScan.SplitIo(e.io.buf.bytes);
        var io := Store(e.io.buflen, Block(nb));
        e := e.(io := io, ioLines := lines);
      }
      table := table[id := e];
      found := r.1 != Failed;
    }

    /** fetch_proc_pid_fd: None when the directory does not open, otherwise its entry names. */
    method FetchFd(id: int, dir: Option<seq<string>>) returns (found: bool)
      requires Valid()
      modifies this`table
      ensures Valid()
      ensures id !in old(table) ==> !found && table == old(table)
      ensures id in old(table) ==>
        var r := FdFetch(old(table)[id], dir); table == old(table)[id := r.0] && found == r.1
    {
      if id !in table {
        return false;
      }
      var e := table[id];
      if e.fdFetched {
        return true;
      }
      if dir.None? {
        return false;
      }
      var count := CountEntries(dir.value);
      var e1 := e.(fdFetched := true, fdCount := U32(count as int - 2));
      table := table[id := e1];
      found := true;
    }

    /** fetch_proc_pid_cgroup: a successful read is reformatted and interned. */
    method FetchCgroup(id: int, f: Read) returns (found: bool)
      requires Valid()
      modifies this`table, this`strings
      ensures Valid()
      ensures id !in old(table) ==> !found && table == old(table) && strings == old(strings)
      ensures id in old(table) ==>
        var r := CgroupFetch(old(table)[id], f, old(strings));
        table == old(table)[id := r.0] && strings == r.1 && found == r.2
    {
      if id !in table {
        return false;
      }
      var e := table[id];
      if e.cgroupFetched {
        return true;
      }
      if !f.Got? || Take(f.data, ReadMax) == [] {
        return false;
      }
      var d := Take(f.data, ReadMax);
      var fmt := Cgroup.Reformat(d, |d|);
      assert d[..|d|] == d;
      EntryFacts.InternDistinct(strings, fmt);
      var r := Intern(strings, fmt);
      var e1 := e.(cgroupFetched := true, cgroupId := r.1);
      table := table[id := e1];
      strings := r.0;
      found := true;
    }

    /**
     * fetch_proc_pid_label: the read lands on the stack buffer that held the
     * file's path, and the C string there is interned.
     */
    method FetchLabel(id: int, f: Read, stack: seq<char>) returns (found: bool)
      requires Valid() && |stack| == ReadMax
      requires id in table ==> LabelFetch(table[id], f, strings, stack).Some?
      modifies this`table, this`strings
      ensures Valid()
      ensures id !in old(table) ==> !found && table == old(table) && strings == old(strings)
      ensures id in old(table) ==>
        var r := LabelFetch(old(table)[id], f, old(strings), stack).value;
        table == old(table)[id := r.0] && strings == r.1 && found == r.2
    {
      if id !in table {
        return false;
      }
      var e := table[id];
      var r := LabelFetch(e, f, strings, stack).value;
      LabelDistinct(e, f, strings, stack);
      table := table[id := r.0];
      strings := r.1;
      found := r.2;
    }

    /**
     * refresh_proc_pid: build the pid list of the cgroup or of /proc into
     * the static list, then reconcile the cache with it; a /proc that does
     * not open is an error that leaves the cache as it was.
     */
    method RefreshProcPid(list: PidList, wantThreads: bool, cgroups: string, proc: Option<seq<string>>,
                          tasks: map<string, seq<string>>, files: map<string, seq<int>>,
                          ghost step: Labeller, cmdline: int -> Read, status: int -> Read, buf: array<char>)
      returns (sts: int)
      requires Valid() && list.Valid() && buf.Length == BufSize && Labels(step, cmdline, status)
      requires var l := ListFor(wantThreads, cgroups, proc, tasks, files);
        l.Some? ==> (forall i :: 0 <= i < |l.value| ==> Int32(l.value[i]))
                    && Walk(table.Keys, l.value, step, buf[..], |l.value|).Some?
      modifies this, list, buf
      ensures Valid() && list.Valid() && strings == old(strings)
      ensures ListFor(wantThreads, cgroups, proc, tasks, files).None? ==>
        sts < 0 && list.Contents() == old(list.Contents()) && buf[..] == old(buf[..])
        && table == old(table) && Instances() == old(Instances())
      ensures ListFor(wantThreads, cgroups, proc, tasks, files).Some? ==>
        var pids := ListFor(wantThreads, cgroups, proc, tasks, files).value;
        var w := Walk(old(table).Keys, pids, step, old(buf[..]), |pids|).value;
        list.Contents() == pids && sts == |pids|
        && buf[..] == w.1 && Refreshed(old(table), w.0, pids, table) && Numbered(Instances(), pids, table)
    {
      if cgroups != [] && cgroups[0] != NUL {
        sts := list.RefreshCgroup(wantThreads, cgroups, files);
      } else {
        sts := list.RefreshGlobal(wantThreads, proc, tasks);
      }
      if sts < 0 {
        return;
      }
      sts := RefreshPidlist(list.Contents(), step, cmdline, status, buf);
    }

    /** The last loop: the entries still invalid are dropped, the others kept as they are. */
    method Harvest()
      requires Valid()
      modifies this
      ensures Valid()
      ensures Harvested(old(table), table)
      ensures slots == old(slots) && numinst == old(numinst) && strings == old(strings)
    {
      ghost var t0 := table;
      var keys := table.Keys;
      while keys != {}
        invariant keys <= t0.Keys
        invariant table == KeepSome(t0, t0.Keys - keys)
        invariant slots == old(slots) && numinst == old(numinst) && strings == old(strings)
        decreases keys
      {
        var k := Pick(keys);
        KeepStep(t0, t0.Keys - keys, k);
        assert t0.Keys - keys + {k} == t0.Keys - (keys - {k});
        if !table[k].valid {
          table := map j | j in table && j != k :: table[j];
        }
        keys := keys - {k};
      }
      assert t0.Keys - keys == t0.Keys;
    }
  }
}
