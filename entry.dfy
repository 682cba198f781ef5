/**
 * One cached process, proc_pid_entry_t, and what each lazy fetcher
 * (fetch_proc_pid_*) does to it.  A fetcher reads its file of /proc/<pid>
 * only while its flag is clear, keeps the bytes in a buffer whose recorded
 * length never shrinks, and tells its caller whether the entry can be used
 * (a non-NULL return).
 */
module ProcEntry {
  import opened CString
  import opened Label
  import LineScan
  import Cgroup

  /** sizeof(buf) of the fetchers' stack buffers. */
  const ReadMax: nat := 1024

  datatype Buffer = Null | Block(bytes: seq<char>)

  /** A heap buffer and the length the entry records for it (its *_buflen field). */
  datatype Store = Store(buflen: nat, buf: Buffer)

  const Empty: Store := Store(0, Null)

  /** The recorded length is the allocation's. */
  predicate Sized(s: Store) {
    s.buf.Block? ==> |s.buf.bytes| == s.buflen
  }

  /** A buffer whose allocation the model never fails: present exactly when its length is positive. */
  predicate Held(s: Store) {
    Sized(s) && (s.buf.Block? <==> s.buflen > 0)
  }

  datatype Entry = Entry(
    id: int, name: string, valid: bool,
    statFetched: bool, statmFetched: bool, statusFetched: bool, schedstatFetched: bool,
    mapsFetched: bool, ioFetched: bool, wchanFetched: bool, fdFetched: bool,
    cgroupFetched: bool, labelFetched: bool,
    stat: Store, statm: Store, status: Store, schedstat: Store,
    maps: Store, io: Store, wchan: Store,
    statusLines: LineScan.StatusLines, ioLines: LineScan.IoLines,
    fdCount: nat, cgroupId: nat, labelId: nat)

  /** The buffers the model never fails to allocate are held; status and io are sized. */
  predicate Wf(e: Entry) {
    Held(e.stat) && Held(e.statm) && Held(e.schedstat) && Held(e.maps) && Held(e.wchan)
    && Sized(e.status) && Sized(e.io)
  }

  /** No flag set: every fetcher will read its file. */
  predicate Unfetched(e: Entry) {
    !e.statFetched && !e.statmFetched && !e.statusFetched && !e.schedstatFetched
    && !e.mapsFetched && !e.ioFetched && !e.wchanFetched && !e.fdFetched
    && !e.cgroupFetched && !e.labelFetched
  }

  /** All ten flags are set (for io and schedstat: successfully enough to set the flag). */
  predicate AllFetched(e: Entry) {
    e.statFetched && e.statmFetched && e.statusFetched && e.schedstatFetched
    && e.mapsFetched && e.ioFetched && e.wchanFetched && e.fdFetched
    && e.cgroupFetched && e.labelFetched
  }

  const NoStatusLines: LineScan.StatusLines :=
    LineScan.StatusLines(None, None, None, None, None, None, None, None, None, None, None,
                         None, None, None, None)

  const NoIoLines: LineScan.IoLines := LineScan.IoLines(None, None, None, None, None, None, None)

  /** malloc and memset(0) of a new entry, then its id and its label. */
  function NewEntry(id: int, name: string): (e: Entry)
    ensures Wf(e) && Unfetched(e) && !e.valid
    ensures e.id == id && e.name == name
  {
    Entry(id, name, false,
          false, false, false, false, false, false, false, false, false, false,
          Empty, Empty, Empty, Empty, Empty, Empty, Empty,
          NoStatusLines, NoIoLines, 0, 0, 0)
  }

  /**
   * What the first loop of refresh_proc_pidlist does to every cached
   * entry: valid and eight of the flags cleared, the cgroup and label
   * flags left as they are.
   */
  function Reset(e: Entry): (r: Entry)
    ensures !r.valid
    ensures !r.statFetched && !r.statmFetched && !r.statusFetched && !r.schedstatFetched
    ensures !r.mapsFetched && !r.ioFetched && !r.wchanFetched && !r.fdFetched
    ensures r.cgroupFetched == e.cgroupFetched && r.labelFetched == e.labelFetched
    ensures r.id == e.id && r.name == e.name && (Wf(e) ==> Wf(r))
  {
    e.(valid := false, statFetched := false, statmFetched := false, statusFetched := false,
       schedstatFetched := false, mapsFetched := false, ioFetched := false,
       wchanFetched := false, fdFetched := false)
  }

  /** Nothing but the nine flags changes in a reset: the buffers, lines, counts and identifiers stay. */
  lemma {:induction false} ResetKeeps(e: Entry)
    ensures var r := Reset(e);
      r.stat == e.stat && r.statm == e.statm && r.status == e.status && r.schedstat == e.schedstat
      && r.maps == e.maps && r.io == e.io && r.wchan == e.wchan
      && r.statusLines == e.statusLines && r.ioLines == e.ioLines
      && r.fdCount == e.fdCount && r.cgroupId == e.cgroupId && r.labelId == e.labelId
  {
  }

  // ---------------------------------------------------------------------
  // Buffers

  /** The n bytes read, with byte n-1 replaced by a NUL. */
  function Terminated(d: seq<char>): (r: seq<char>)
    requires d != []
    ensures |r| == |d| && r[|d| - 1] == NUL && r[..|d| - 1] == d[..|d| - 1]
  {
    d[..|d| - 1] + [NUL]
  }

  /**
   * `if (buflen <= n) realloc to n; memcpy n bytes; buf[n-1] = '\0'`: the
   * terminated read at the front and, when the buffer was longer, its old
   * tail behind it.
   */
  function Refill(s: Store, d: seq<char>): (r: Store)
    requires Held(s) && d != []
    ensures Held(r) && r.buflen == (if s.buflen <= |d| then |d| else s.buflen)
  {
    if s.buflen <= |d| then Store(|d|, Block(Terminated(d)))
    else Store(s.buflen, Block(Put(s.buf.bytes, 0, Terminated(d))))
  }

  /** What a refill holds: the terminated read, then nothing or the old tail. */
  lemma {:induction false} RefillBytes(s: Store, d: seq<char>)
    requires Held(s) && d != []
    ensures Refill(s, d).buf.bytes[..|d|] == Terminated(d)
    ensures Refill(s, d).buf.bytes[|d|..] == if s.buflen <= |d| then [] else s.buf.bytes[|d|..]
  {
    if s.buflen > |d| {
      PutFront(s.buf.bytes, 0, Terminated(d));
    }
  }

  /**
   * The status and io form: `if (buflen < n) { buflen = n; buf = realloc(buf, n); }`,
   * then NULL-checked.  allocOk says whether that realloc succeeds; when it
   * fails the length is already n and its pointer NULL.
   */
  function Refit(s: Store, d: seq<char>, allocOk: bool): (r: Store)
    requires Sized(s) && d != []
    ensures Sized(r) && r.buflen == (if s.buflen < |d| then |d| else s.buflen)
    ensures r.buf.Null? <==> (if s.buflen < |d| then !allocOk else s.buf.Null?)
  {
    if s.buflen < |d| then Store(|d|, if allocOk then Block(Terminated(d)) else Null)
    else match s.buf
      case Null => s
      case Block(b) => Store(s.buflen, Block(Put(b, 0, Terminated(d))))
  }

  /** What a refit buffer that is there holds: the terminated read, then the old tail. */
  lemma {:induction false} RefitBytes(s: Store, d: seq<char>, allocOk: bool)
    requires Sized(s) && d != [] && Refit(s, d, allocOk).buf.Block?
    ensures Refit(s, d, allocOk).buf.bytes[..|d|] == Terminated(d)
    ensures |d| <= s.buflen ==> Refit(s, d, allocOk).buf.bytes[|d|..] == s.buf.bytes[|d|..]
  {
    if |d| <= s.buflen {
      PutFront(s.buf.bytes, 0, Terminated(d));
    }
  }

  /** realloc(3) to m bytes: the old bytes that fit, then bytes the model shows as NUL. */
  function Realloc(b: seq<char>, m: nat): (r: seq<char>)
    ensures |r| == m
    ensures |b| <= m ==> r[..|b|] == b
    ensures m <= |b| ==> r == b[..m]
  {
    if m <= |b| then b[..m] else b + seq(m - |b|, _ => NUL)
  }

  /** The chunks one read(2) loop returns, end to end. */
  function Concat(cs: seq<seq<char>>): (r: seq<char>) {
    if cs == [] then [] else Concat(cs[..|cs| - 1]) + cs[|cs| - 1]
  }

  /**
   * The maps buffer after the whole read loop and the terminator at
   * maps_buflen - 1: the bytes read at the front, then (when the buffer
   * was already longer) whatever the previous fetch left before its last byte.
   */
  function MapsFill(s: Store, all: seq<char>): (r: Store)
    requires Held(s)
    ensures Held(r) && r.buflen == (if s.buflen > |all| then s.buflen else |all| + 1)
    ensures r.buf.bytes[..|all|] == all && r.buf.bytes[r.buflen - 1] == NUL
    ensures s.buflen > |all| ==> r.buf.bytes[|all|..r.buflen - 1] == s.buf.bytes[|all|..s.buflen - 1]
  {
    if s.buflen > |all| then Store(s.buflen, Block(Put(s.buf.bytes, 0, all)[s.buflen - 1 := NUL]))
    else Store(|all| + 1, Block(all + [NUL]))
  }

  // ---------------------------------------------------------------------
  // The fetchers, one entry at a time.  A negative status is -1 here: the
  // oserror() code is not modelled.

  /**
   * The copy step the stat, statm and schedstat fetchers share: the
   * buffer refilled from the read, or None when the read gave no bytes.
   */
  function Load(s: Store, f: Read): (r: Option<Store>)
    requires Held(s)
    ensures r.Some? <==> f.Got? && Take(f.data, ReadMax) != []
    ensures r.Some? ==> Held(r.value) && r.value == Refill(s, Take(f.data, ReadMax))
  {
    match f
    case Got(c) => if Take(c, ReadMax) == [] then None else Some(Refill(s, Take(c, ReadMax)))
    case _ => None
  }

  /** The stat block of fetch_proc_pid_stat: the entry and sts. */
  function StatBlock(e: Entry, f: Read): (r: (Entry, int))
    requires Wf(e)
    ensures Wf(r.0) && r.0.statFetched && r.1 <= 0
    ensures e.statFetched ==> r == (e, 0)
  {
    if e.statFetched then (e, 0)
    else
      var l := Load(e.stat, f);
      var b := if l.Some? then l.value else e.stat;
      var e1 := e.(statFetched := true, stat := b);
      (e1, if l.Some? then 0 else -1)
  }

  /**
   * The wchan read: one byte less than the buffer, then n++ copies the
   * byte after the read too, and the NUL at n-1 replaces it.
   */
  function WchanLoad(s: Store, f: Read): (r: Option<Store>)
    requires Held(s)
    ensures r.Some? <==> f.Got? && Take(f.data, ReadMax - 1) != []
    ensures r.Some? ==> Held(r.value) && r.value == Refill(s, Take(f.data, ReadMax - 1) + [NUL])
  {
    match f
    case Got(c) => if Take(c, ReadMax - 1) == [] then None else Some(Refill(s, Take(c, ReadMax - 1) + [NUL]))
    case _ => None
  }

  /**
   * The wchan block that follows it and replaces sts whenever it runs: an
   * open failure sets it to 0, a failed or empty read to -1.
   */
  function WchanBlock(e: Entry, f: Read, sts: int): (r: (Entry, int))
    requires Wf(e)
    ensures Wf(r.0) && r.0.wchanFetched
    ensures e.wchanFetched ==> r == (e, sts)
  {
    if e.wchanFetched then (e, sts)
    else
      var l := WchanLoad(e.wchan, f);
      var b := if l.Some? then l.value else e.wchan;
      var e1 := e.(wchanFetched := true, wchan := b);
      var sts' := if l.Some? || f.OpenFailed? then 0 else -1;
      (e1, sts')
  }

  /** fetch_proc_pid_stat on a cached entry: the new entry and whether it is returned. */
  function StatFetch(e: Entry, stat: Read, wchan: Read): (r: (Entry, bool))
    requires Wf(e)
    ensures Wf(r.0) && r.0.statFetched && r.0.wchanFetched
  {
    var (e1, sts) := StatBlock(e, stat);
    var (e2, sts2) := WchanBlock(e1, wchan, sts);
    (e2, sts2 >= 0)
  }

  /**
   * fetch_proc_pid_statm: the flag is set whatever the read gives; a first
   * read of n > 0 bytes refills the buffer, any other outcome leaves it.
   */
  function StatmFetch(e: Entry, f: Read): (r: (Entry, bool))
    requires Wf(e)
    ensures Wf(r.0) && r.0.statmFetched
    ensures e.statmFetched ==> r == (e, true)
    ensures r.1 <==> e.statmFetched || (f.Got? && Take(f.data, ReadMax) != [])
    ensures !e.statmFetched ==>
      r.0.statm == if r.1 then Refill(e.statm, Take(f.data, ReadMax)) else e.statm
  {
    if e.statmFetched then (e, true)
    else
      var l := Load(e.statm, f);
      var b := if l.Some? then l.value else e.statm;
      var e1 := e.(statmFetched := true, statm := b);
      (e1, l.Some?)
  }

  /**
   * fetch_proc_pid_schedstat: the flag is set only when the file opened;
   * the buffer is refilled exactly as for statm.
   */
  function SchedstatFetch(e: Entry, f: Read): (r: (Entry, bool))
    requires Wf(e)
    ensures Wf(r.0)
    ensures e.schedstatFetched ==> r == (e, true)
    ensures r.0.schedstatFetched <==> e.schedstatFetched || !f.OpenFailed?
    ensures r.1 <==> e.schedstatFetched || (f.Got? && Take(f.data, ReadMax) != [])
    ensures !e.schedstatFetched ==>
      r.0.schedstat == if r.1 then Refill(e.schedstat, Take(f.data, ReadMax)) else e.schedstat
  {
    if e.schedstatFetched then (e, true)
    else
      var l := Load(e.schedstat, f);
      var b := if l.Some? then l.value else e.schedstat;
      var e1 := e.(schedstatFetched := !f.OpenFailed?, schedstat := b);
      (e1, l.Some?)
  }

  /** How a status or io fetch goes on after its read. */
  datatype Step = Cached | Failed | Scan

  /**
   * The copy step of the status and io fetchers: None when the read gave
   * no bytes, otherwise the refitted buffer, whose pointer is NULL when
   * the allocation failed.
   */
  function LoadFit(s: Store, f: Read, allocOk: bool): (r: Option<Store>)
    requires Sized(s)
    ensures r.Some? <==> f.Got? && Take(f.data, ReadMax) != []
    ensures r.Some? ==> Sized(r.value) && r.value == Refit(s, Take(f.data, ReadMax), allocOk)
    ensures r.Some? && r.value.buf.Block? ==> NUL in r.value.buf.bytes
  {
    match f
    case Got(c) =>
      var d := Take(c, ReadMax);
      if d == [] then None
      else
        var t := Refit(s, d, allocOk);
        if t.buf.Block? then
          RefitBytes(s, d, allocOk);
          assert t.buf.bytes[|d| - 1] == NUL;
          Some(t)
        else Some(t)
    case _ => None
  }

  /**
   * fetch_proc_pid_status up to the scan: the flag is set whatever happens;
   * Scan when sts is still 0 and the line scan runs on the buffer.
   */
  function StatusStep(e: Entry, f: Read, allocOk: bool): (r: (Entry, Step))
    requires Wf(e)
    ensures Wf(r.0) && r.0.statusFetched
    ensures r.1 == Cached <==> e.statusFetched
    ensures r.1 == Scan ==> r.0.status.buf.Block? && NUL in r.0.status.buf.bytes
  {
    if e.statusFetched then (e, Cached)
    else
      var l := LoadFit(e.status, f, allocOk);
      var b := if l.Some? then l.value else e.status;
      var e1 := e.(statusFetched := true, status := b);
      (e1, if l.Some? && l.value.buf.Block? then Scan else Failed)
  }

  /**
   * fetch_proc_pid_io up to the split: the flag is set only on success,
   * where the seven-line split runs.
   */
  function IoStep(e: Entry, f: Read, allocOk: bool): (r: (Entry, Step))
    requires Wf(e)
    ensures Wf(r.0)
    ensures r.1 == Cached <==> e.ioFetched
    ensures r.0.ioFetched <==> r.1 != Failed
    ensures r.1 == Scan ==> r.0.io.buf.Block? && NUL in r.0.io.buf.bytes
  {
    if e.ioFetched then (e, Cached)
    else
      var l := LoadFit(e.io, f, allocOk);
      var ok := l.Some? && l.value.buf.Block?;
      var b := if l.Some? then l.value else e.io;
      var e1 := e.(ioFetched := ok, io := b);
      (e1, if ok then Scan else Failed)
  }

  /**
   * fetch_proc_pid_maps: None for the file when it cannot be opened (the
   * flag stays clear); otherwise the chunks its read loop returns.
   */
  function MapsFetch(e: Entry, f: Option<seq<seq<char>>>): (r: (Entry, bool))
    requires Wf(e)
    ensures Wf(r.0)
    ensures e.mapsFetched ==> r == (e, true)
    ensures r.0.mapsFetched == r.1
    ensures r.1 <==> e.mapsFetched || f.Some?
    ensures !e.mapsFetched ==> r.0.maps == if f.Some? then MapsFill(e.maps, Concat(f.value)) else e.maps
  {
    if e.mapsFetched then (e, true)
    else match f
      case None => (e, false)
      case Some(chunks) =>
        var e1 := e.(mapsFetched := true, maps := MapsFill(e.maps, Concat(chunks)));
        (e1, true)
  }

  /** The length and front of a buffer a chunk was just written into at `at`. */
  lemma {:induction false} PutFront(b: seq<char>, at: nat, c: seq<char>)
    requires at + |c| <= |b|
    ensures Put(b, at, c)[..at + |c|] == b[..at] + c
    ensures Put(b, at, c)[at + |c|..] == b[at + |c|..]
  {
    assert Put(b, at, c)[..at + |c|] == b[..at] + c;
  }

  lemma {:induction false} ConcatStep(cs: seq<seq<char>>, i: nat)
    requires i < |cs|
    ensures Concat(cs[..i + 1]) == Concat(cs[..i]) + cs[i]
  {
    assert cs[..i + 1][..i] == cs[..i];
  }

  /** The state the maps read loop ends in is the one MapsFill describes. */
  lemma {:induction false} MapsFillIs(s: Store, all: seq<char>, buflen: nat, bytes: seq<char>)
    requires Held(s) && 0 < buflen && |bytes| == buflen
    requires buflen == if s.buflen > |all| then s.buflen else |all| + 1
    requires bytes[..|all|] == all
    requires s.buflen > |all| ==> bytes[|all|..] == s.buf.bytes[|all|..]
    ensures Store(buflen, Block(bytes[buflen - 1 := NUL])) == MapsFill(s, all)
  {
    if s.buflen > |all| {
      PutFront(s.buf.bytes, 0, all);
      assert bytes == Put(s.buf.bytes, 0, all);
    } else {
      assert bytes[buflen - 1 := NUL] == all + [NUL];
    }
  }

  /**
   * The read loop of fetch_proc_pid_maps, chunk by chunk: each chunk goes
   * at the running length, after the buffer grows to one byte more than
   * that length whenever it is not already longer; afterwards a buffer
   * that never grew from nothing gets one byte, and the last byte is set to NUL.
   */
  method ReadMaps(s: Store, chunks: seq<seq<char>>) returns (r: Store)
    requires Held(s)
    requires forall i :: 0 <= i < |chunks| ==> chunks[i] != []
    ensures r == MapsFill(s, Concat(chunks))
  {
    var buflen := s.buflen;
    var bytes: seq<char> := if s.buf.Block? then s.buf.bytes else [];
    var len := 0;
    var i := 0;
    while i < |chunks|
      invariant i <= |chunks| && len == |Concat(chunks[..i])|
      invariant |bytes| == buflen
      invariant buflen == if s.buflen > len || i == 0 then s.buflen else len + 1
      invariant len <= buflen && bytes[..len] == Concat(chunks[..i])
      invariant s.buflen > len ==> bytes[len..] == s.buf.bytes[len..]
    {
      ConcatStep(chunks, i);
      ghost var before := bytes;
      var c := chunks[i];
      len := len + |c|;
      if buflen <= len {
        buflen := len + 1;
        bytes := Realloc(bytes, buflen);
      }
      assert bytes[..len - |c|] == before[..len - |c|];
      PutFront(bytes, len - |c|, c);
      bytes := Put(bytes, len - |c|, c);
      i := i + 1;
    }
    assert chunks[..i] == chunks;
    if buflen == 0 {
      bytes := [NUL];
      buflen := 1;
    }
    MapsFillIs(s, Concat(chunks), buflen, bytes);
    bytes := bytes[buflen - 1 := NUL];
    r := Store(buflen, Block(bytes));
  }

  /** uint32_t arithmetic. */
  function U32(x: int): (r: nat)
    ensures r < 0x1_0000_0000
  {
    x % 0x1_0000_0000
  }

  /**
   * fetch_proc_pid_fd: None for the directory when opendir(3) fails, which
   * returns NULL with the flag clear; otherwise its entry names.
   */
  function FdFetch(e: Entry, dir: Option<seq<string>>): (r: (Entry, bool))
    requires Wf(e)
    ensures Wf(r.0)
    ensures r.1 <==> e.fdFetched || dir.Some?
    ensures r.0.fdFetched == r.1
  {
    if e.fdFetched then (e, true)
    else match dir
      case None => (e, false)
      case Some(names) =>
        var e1 := e.(fdFetched := true, fdCount := U32(U32(|names|) - 2));
        (e1, true)
  }

  lemma {:induction false} U32Step(i: nat)
    ensures U32(U32(i) + 1) == U32(i + 1)
  {
  }

  /** The readdir(3) loop of fetch_proc_pid_fd: one uint32_t increment per entry. */
  method CountEntries(names: seq<string>) returns (count: nat)
    ensures count == U32(|names|)
  {
    count := 0;
    var i := 0;
    while i < |names|
      invariant i <= |names| && count == U32(i)
    {
      U32Step(i);
      count := U32(count + 1);
      i := i + 1;
    }
  }

  // ---------------------------------------------------------------------
  // Interned strings

  /** Where s first occurs in tab. */
  function IndexOf(tab: seq<string>, s: string): (i: nat)
    requires s in tab
    ensures i < |tab| && tab[i] == s
    ensures forall j :: 0 <= j < i ==> tab[j] != s
  {
    if tab[0] == s then 0 else IndexOf(tab[1..], s) + 1
  }

  /** No string appears twice. */
  predicate Distinct(tab: seq<string>) {
    forall i, j :: 0 <= i < j < |tab| ==> tab[i] != tab[j]
  }

  /**
   * proc_strings_insert: the identifier of s in the table, adding it when
   * it is new.  The table stands for the string store, whose source is not
   * part of this model.
   */
  function Intern(tab: seq<string>, s: string): (r: (seq<string>, nat))
    ensures r.1 < |r.0| && r.0[r.1] == s
    ensures r.0 == if s in tab then tab else tab + [s]
  {
    if s in tab then (tab, IndexOf(tab, s)) else (tab + [s], |tab|)
  }

  /** fetch_proc_pid_cgroup: a successful read is reformatted and interned. */
  function CgroupFetch(e: Entry, f: Read, tab: seq<string>): (r: (Entry, seq<string>, bool))
    requires Wf(e)
    ensures Wf(r.0)
    ensures r.0.cgroupFetched == r.2
    ensures e.cgroupFetched ==> r == (e, tab, true)
    ensures r.2 <==> e.cgroupFetched || (f.Got? && Take(f.data, ReadMax) != [])
    ensures !r.2 ==> r == (e, tab, false)
    ensures |tab| <= |r.1| && r.1[..|tab|] == tab
    ensures r.2 && !e.cgroupFetched ==>
      f.Got? && r.0.cgroupId < |r.1| && r.1[r.0.cgroupId] == Cgroup.Reformatted(Take(f.data, ReadMax))
      && (r.1, r.0.cgroupId) == Intern(tab, Cgroup.Reformatted(Take(f.data, ReadMax)))
  {
    if e.cgroupFetched then (e, tab, true)
    else match f
      case Got(c) =>
        var d := Take(c, ReadMax);
        if d == [] then (e, tab, false)
        else
          var (tab', id) := Intern(tab, Cgroup.Reformatted(d));
          var e1 := e.(cgroupFetched := true, cgroupId := id);
          (e1, tab', true)
      case _ => (e, tab, false)
  }

  function AttrPath(id: int): string {
    "/proc/" + Decimal(id) + "/attr/current"
  }

  lemma {:induction false} AttrPathWidth(id: int)
    requires Int32(id)
    ensures |AttrPath(id)| <= 30
  {
    Widths(id);
    assert |CmdlinePath(id)| == |Decimal(id)| + 14;
  }

  /**
   * The string proc_strings_insert gets in fetch_proc_pid_label: the stack
   * buffer holds the path, the read lands over its front with no NUL added,
   * and the C string runs to the first NUL; None when the buffer holds none.
   */
  function AttrText(id: int, stack: seq<char>, d: seq<char>): (r: Option<string>)
    requires Int32(id) && |stack| == ReadMax && |d| <= ReadMax
    ensures r.Some? ==> NoNul(r.value) && |r.value| < ReadMax
  {
    AttrPathWidth(id);
    var b := Put(Sprintf(stack, AttrPath(id)), 0, d);
    if NUL in b then CStrEnd(b); Some(CStr(b)) else None
  }

  /** fetch_proc_pid_label; None where the C string would run off the stack buffer. */
  function LabelFetch(e: Entry, f: Read, tab: seq<string>, stack: seq<char>): (r: Option<(Entry, seq<string>, bool)>)
    requires Wf(e) && Int32(e.id) && |stack| == ReadMax
    ensures r.Some? ==> Wf(r.value.0) && r.value.0.labelFetched == r.value.2
    ensures e.labelFetched ==> r == Some((e, tab, true))
    ensures r.None? <==>
      !e.labelFetched && f.Got? && Take(f.data, ReadMax) != [] && AttrText(e.id, stack, Take(f.data, ReadMax)).None?
    ensures r.Some? && !r.value.2 ==> r.value.0 == e && r.value.1 == tab
    ensures r.Some? && r.value.2 && !e.labelFetched ==>
      f.Got? && Take(f.data, ReadMax) != []
      && r.value.0.labelId < |r.value.1|
      && Some(r.value.1[r.value.0.labelId]) == AttrText(e.id, stack, Take(f.data, ReadMax))
      && (r.value.1, r.value.0.labelId) == Intern(tab, AttrText(e.id, stack, Take(f.data, ReadMax)).value)
  {
    if e.labelFetched then Some((e, tab, true))
    else match f
      case Got(c) =>
        var d := Take(c, ReadMax);
        if d == [] then Some((e, tab, false))
        else (match AttrText(e.id, stack, d)
          case None => None
          case Some(s) =>
            var (tab', id) := Intern(tab, s);
            var e1 := e.(labelFetched := true, labelId := id);
            Some((e1, tab', true)))
      case OpenFailed => Some((e, tab, false))
      case ReadFailed => Some((e, tab, false))
  }
}
