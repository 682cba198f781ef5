/**
 * What the lazy fetchers promise: a set flag means no re-read, which
 * outcomes count as failures, what text each buffer then holds, that the
 * recorded buffer lengths only grow, and which values survive the
 * reconcile's reset.
 */
module EntryFacts {
  import opened CString
  import opened Label
  import opened ProcEntry
  import Cgroup

  /** No recorded buffer length is smaller in e' than in e. */
  predicate Grown(e: Entry, e': Entry) {
    e.stat.buflen <= e'.stat.buflen && e.statm.buflen <= e'.statm.buflen
    && e.status.buflen <= e'.status.buflen && e.schedstat.buflen <= e'.schedstat.buflen
    && e.maps.buflen <= e'.maps.buflen && e.io.buflen <= e'.io.buflen
    && e.wchan.buflen <= e'.wchan.buflen
  }

  /** Whether a single read of at most `max` bytes gave any. */
  predicate GotBytes(f: Read, max: nat) {
    f.Got? && Take(f.data, max) != []
  }

  // ---------------------------------------------------------------------
  // Cache hits

  /** Once every flag is set, every fetcher returns the entry unchanged and reads nothing. */
  lemma {:induction false} FetchedEntryIsReturned(e: Entry, f: Read, g: Read, m: Option<seq<seq<char>>>,
                               dir: Option<seq<string>>, tab: seq<string>, stack: seq<char>, a: bool)
    requires Wf(e) && AllFetched(e) && Int32(e.id) && |stack| == ReadMax
    ensures StatFetch(e, f, g) == (e, true)
    ensures StatmFetch(e, f) == (e, true) && SchedstatFetch(e, f) == (e, true)
    ensures StatusStep(e, f, a) == (e, Cached) && IoStep(e, f, a) == (e, Cached)
    ensures MapsFetch(e, m) == (e, true) && FdFetch(e, dir) == (e, true)
    ensures CgroupFetch(e, f, tab) == (e, tab, true)
    ensures LabelFetch(e, f, tab, stack) == Some((e, tab, true))
  {
  }

  /** A buffer's recorded length never decreases: fetch_proc_pid_stat. */
  lemma {:induction false} StatGrows(e: Entry, f: Read, g: Read)
    requires Wf(e)
    ensures Grown(e, StatFetch(e, f, g).0)
  {
    var (e1, sts) := StatBlock(e, f);
    StatBlockGrows(e, f);
    WchanBlockGrows(e1, g, sts);
  }

  lemma {:induction false} StatBlockGrows(e: Entry, f: Read)
    requires Wf(e)
    ensures Grown(e, StatBlock(e, f).0)
  {
  }

  lemma {:induction false} WchanBlockGrows(e: Entry, g: Read, sts: int)
    requires Wf(e)
    ensures Grown(e, WchanBlock(e, g, sts).0)
  {
  }

  /** The same for statm. */
  lemma {:induction false} StatmGrows(e: Entry, f: Read)
    requires Wf(e)
    ensures Grown(e, StatmFetch(e, f).0)
  {
  }

  /** The same for schedstat. */
  lemma {:induction false} SchedstatGrows(e: Entry, f: Read)
    requires Wf(e)
    ensures Grown(e, SchedstatFetch(e, f).0)
  {
  }

  /** The same for status and io, whether or not the allocation succeeds. */
  lemma {:induction false} StepsGrow(e: Entry, f: Read, a: bool)
    requires Wf(e)
    ensures Grown(e, StatusStep(e, f, a).0) && Grown(e, IoStep(e, f, a).0)
  {
  }

  /** The same for maps. */
  lemma {:induction false} MapsGrows(e: Entry, m: Option<seq<seq<char>>>)
    requires Wf(e)
    ensures Grown(e, MapsFetch(e, m).0)
  {
  }

  // ---------------------------------------------------------------------
  // Frames: each fetcher changes its own flag and the value it fetches, nothing else

  /**
   * fetch_proc_pid_stat may change only the stat and wchan flags and
   * buffers: put those back and the old entry is what remains.  The
   * lemmas below say the same of each fetcher's own fields.
   */
  lemma {:induction false} StatKeeps(e: Entry, f: Read, w: Read)
    requires Wf(e)
    ensures StatFetch(e, f, w).0.(statFetched := e.statFetched, wchanFetched := e.wchanFetched,
                                   stat := e.stat, wchan := e.wchan) == e
  {
    var (e1, sts) := StatBlock(e, f);
    StatBlockKeeps(e, f);
    WchanBlockKeeps(e1, w, sts);
  }

  /** The stat block's first run: the entry and sts for each outcome of the read. */
  lemma {:induction false} StatBlockFirst(e: Entry, f: Read)
    requires Wf(e) && !e.statFetched
    ensures StatBlock(e, f) ==
      if GotBytes(f, ReadMax) then (e.(statFetched := true, stat := Refill(e.stat, Take(f.data, ReadMax))), 0)
      else (e.(statFetched := true), -1)
  {
  }

  /** The stat block changes no field but stat_fetched and the stat buffer. */
  lemma {:induction false} StatBlockKeeps(e: Entry, f: Read)
    requires Wf(e)
    ensures StatBlock(e, f).0.(statFetched := e.statFetched, stat := e.stat) == e
  {
    if !e.statFetched {
      StatBlockFirst(e, f);
      if GotBytes(f, ReadMax) {
      }
    }
  }

  /** The wchan block's first run: an open failure is not an error. */
  lemma {:induction false} WchanBlockFirst(e: Entry, w: Read, sts: int)
    requires Wf(e) && !e.wchanFetched
    ensures WchanBlock(e, w, sts) ==
      if GotBytes(w, ReadMax - 1) then
        (e.(wchanFetched := true, wchan := Refill(e.wchan, Take(w.data, ReadMax - 1) + [NUL])), 0)
      else (e.(wchanFetched := true), if w.OpenFailed? then 0 else -1)
  {
  }

  /** The wchan block changes no field but wchan_fetched and the wchan buffer. */
  lemma {:induction false} WchanBlockKeeps(e: Entry, w: Read, sts: int)
    requires Wf(e)
    ensures WchanBlock(e, w, sts).0.(wchanFetched := e.wchanFetched, wchan := e.wchan) == e
  {
    if !e.wchanFetched {
      WchanBlockFirst(e, w, sts);
      if GotBytes(w, ReadMax - 1) {
      }
    }
  }

  /** A first fetch_proc_pid_statm: the new entry and the result for each outcome of the read. */
  lemma {:induction false} StatmFirst(e: Entry, f: Read)
    requires Wf(e) && !e.statmFetched
    ensures StatmFetch(e, f) ==
      if GotBytes(f, ReadMax) then (e.(statmFetched := true, statm := Refill(e.statm, Take(f.data, ReadMax))), true)
      else (e.(statmFetched := true), false)
  {
  }

  /** fetch_proc_pid_statm changes no field but its flag and its buffer. */
  lemma {:induction false} StatmKeeps(e: Entry, f: Read)
    requires Wf(e)
    ensures StatmFetch(e, f).0.(statmFetched := e.statmFetched, statm := e.statm) == e
  {
    if !e.statmFetched {
      StatmFirst(e, f);
      if GotBytes(f, ReadMax) {
      }
    }
  }

  /** A first fetch_proc_pid_schedstat: only an open failure leaves the flag clear. */
  lemma {:induction false} SchedstatFirst(e: Entry, f: Read)
    requires Wf(e) && !e.schedstatFetched
    ensures SchedstatFetch(e, f) ==
      if GotBytes(f, ReadMax) then
        (e.(schedstatFetched := true, schedstat := Refill(e.schedstat, Take(f.data, ReadMax))), true)
      else (e.(schedstatFetched := !f.OpenFailed?), false)
  {
  }

  /** fetch_proc_pid_schedstat changes no field but its flag and its buffer. */
  lemma {:induction false} SchedstatKeeps(e: Entry, f: Read)
    requires Wf(e)
    ensures SchedstatFetch(e, f).0.(schedstatFetched := e.schedstatFetched, schedstat := e.schedstat) == e
  {
    if !e.schedstatFetched {
      SchedstatFirst(e, f);
      if GotBytes(f, ReadMax) {
      }
    }
  }

  /** A first status fetch: the refitted buffer is scanned unless its allocation failed. */
  lemma {:induction false} StatusFirst(e: Entry, f: Read, a: bool)
    requires Wf(e) && !e.statusFetched
    ensures StatusStep(e, f, a) ==
      if GotBytes(f, ReadMax) then
        var b := Refit(e.status, Take(f.data, ReadMax), a);
        (e.(statusFetched := true, status := b), if b.buf.Block? then Scan else Failed)
      else (e.(statusFetched := true), Failed)
  {
  }

  /** The status fetch up to the scan changes no field but its flag and its buffer. */
  lemma {:induction false} StatusKeeps(e: Entry, f: Read, a: bool)
    requires Wf(e)
    ensures StatusStep(e, f, a).0.(statusFetched := e.statusFetched, status := e.status) == e
  {
    if !e.statusFetched {
      StatusFirst(e, f, a);
      if GotBytes(f, ReadMax) {
      }
    }
  }

  /** A first io fetch: the flag is set only when the refitted buffer is there. */
  lemma {:induction false} IoFirst(e: Entry, f: Read, a: bool)
    requires Wf(e) && !e.ioFetched
    ensures IoStep(e, f, a) ==
      if GotBytes(f, ReadMax) then
        var b := Refit(e.io, Take(f.data, ReadMax), a);
        (e.(ioFetched := b.buf.Block?, io := b), if b.buf.Block? then Scan else Failed)
      else (e.(ioFetched := false), Failed)
  {
  }

  /** The io fetch up to the split changes no field but its flag and its buffer. */
  lemma {:induction false} IoKeeps(e: Entry, f: Read, a: bool)
    requires Wf(e)
    ensures IoStep(e, f, a).0.(ioFetched := e.ioFetched, io := e.io) == e
  {
    if !e.ioFetched {
      IoFirst(e, f, a);
      if GotBytes(f, ReadMax) {
      }
    }
  }

  /** A first fetch_proc_pid_maps: the buffer MapsFill describes, or the entry as it was. */
  lemma {:induction false} MapsFirst(e: Entry, m: Option<seq<seq<char>>>)
    requires Wf(e) && !e.mapsFetched
    ensures MapsFetch(e, m) ==
      if m.Some? then (e.(mapsFetched := true, maps := MapsFill(e.maps, Concat(m.value))), true)
      else (e.(mapsFetched := false), false)
  {
  }

  /** fetch_proc_pid_maps changes no field but its flag and its buffer. */
  lemma {:induction false} MapsKeeps(e: Entry, m: Option<seq<seq<char>>>)
    requires Wf(e)
    ensures MapsFetch(e, m).0.(mapsFetched := e.mapsFetched, maps := e.maps) == e
  {
    if !e.mapsFetched {
      MapsKeepsFirst(e, m);
    }
  }

  /** MapsKeeps for an entry not fetched yet. */
  lemma {:induction false} MapsKeepsFirst(e: Entry, m: Option<seq<seq<char>>>)
    requires Wf(e) && !e.mapsFetched
    ensures MapsFetch(e, m).0.(mapsFetched := e.mapsFetched, maps := e.maps) == e
  {
    MapsFirst(e, m);
    if m.Some? {
    }
  }

  /** A first fetch_proc_pid_fd: fd_count from the listing, or the entry as it was. */
  lemma {:induction false} FdFirst(e: Entry, dir: Option<seq<string>>)
    requires Wf(e) && !e.fdFetched
    ensures FdFetch(e, dir) ==
      if dir.Some? then (e.(fdFetched := true, fdCount := U32(U32(|dir.value|) - 2)), true)
      else (e.(fdFetched := false), false)
  {
  }

  /** fetch_proc_pid_fd changes no field but its flag and fd_count. */
  lemma {:induction false} FdKeeps(e: Entry, dir: Option<seq<string>>)
    requires Wf(e)
    ensures FdFetch(e, dir).0.(fdFetched := e.fdFetched, fdCount := e.fdCount) == e
  {
    if !e.fdFetched {
      FdKeepsFirst(e, dir);
    }
  }

  /** FdKeeps for an entry not fetched yet. */
  lemma {:induction false} FdKeepsFirst(e: Entry, dir: Option<seq<string>>)
    requires Wf(e) && !e.fdFetched
    ensures FdFetch(e, dir).0.(fdFetched := e.fdFetched, fdCount := e.fdCount) == e
  {
    FdFirst(e, dir);
    if dir.Some? {
    }
  }

  /** Putting back the cgroup fields of an entry that only they changed gives the entry. */
  lemma {:induction false} CgroupFieldsBack(e: Entry, x: Entry, b: bool, id: nat)
    requires x == e.(cgroupFetched := b, cgroupId := id)
    ensures x.(cgroupFetched := e.cgroupFetched, cgroupId := e.cgroupId) == e
  {
  }

  /** Putting back the label fields of an entry that only they changed gives the entry. */
  lemma {:induction false} LabelFieldsBack(e: Entry, x: Entry, b: bool, id: nat)
    requires x == e.(labelFetched := b, labelId := id)
    ensures x.(labelFetched := e.labelFetched, labelId := e.labelId) == e
  {
  }

  /** A first fetch_proc_pid_cgroup: the reformatted read interned, or the entry as it was. */
  lemma {:induction false} CgroupFirst(e: Entry, f: Read, tab: seq<string>)
    requires Wf(e) && !e.cgroupFetched
    ensures CgroupFetch(e, f, tab) ==
      if GotBytes(f, ReadMax) then
        var t := Intern(tab, Cgroup.Reformatted(Take(f.data, ReadMax)));
        (e.(cgroupFetched := true, cgroupId := t.1), t.0, true)
      else (e.(cgroupFetched := false), tab, false)
  {
  }

  /** fetch_proc_pid_cgroup changes no field but its flag and the cgroup identifier. */
  lemma {:induction false} CgroupKeeps(e: Entry, f: Read, tab: seq<string>)
    requires Wf(e)
    ensures CgroupFetch(e, f, tab).0.(cgroupFetched := e.cgroupFetched, cgroupId := e.cgroupId) == e
  {
    if !e.cgroupFetched {
      CgroupKeepsFirst(e, f, tab);
    }
  }

  /** CgroupKeeps for an entry not fetched yet. */
  lemma {:induction false} CgroupKeepsFirst(e: Entry, f: Read, tab: seq<string>)
    requires Wf(e) && !e.cgroupFetched
    ensures CgroupFetch(e, f, tab).0.(cgroupFetched := e.cgroupFetched, cgroupId := e.cgroupId) == e
  {
    CgroupFirst(e, f, tab);
    var r := CgroupFetch(e, f, tab);
    if GotBytes(f, ReadMax) {
      var t := Intern(tab, Cgroup.Reformatted(Take(f.data, ReadMax)));
      CgroupFieldsBack(e, r.0, true, t.1);
    } else {
      CgroupFieldsBack(e, r.0, false, e.cgroupId);
    }
  }

  /** A first fetch_proc_pid_label: AttrText of the read interned, None past the stack buffer, or the entry as it was. */
  lemma {:induction false} LabelFirst(e: Entry, f: Read, tab: seq<string>, stack: seq<char>)
    requires Wf(e) && Int32(e.id) && |stack| == ReadMax && !e.labelFetched
    ensures LabelFetch(e, f, tab, stack) ==
      if !GotBytes(f, ReadMax) then Some((e.(labelFetched := false), tab, false))
      else if AttrText(e.id, stack, Take(f.data, ReadMax)).None? then None
      else
        var t := Intern(tab, AttrText(e.id, stack, Take(f.data, ReadMax)).value);
        Some((e.(labelFetched := true, labelId := t.1), t.0, true))
  {
  }

  /** fetch_proc_pid_label changes no field but its flag and the label identifier. */
  lemma {:induction false} LabelKeeps(e: Entry, f: Read, tab: seq<string>, stack: seq<char>)
    requires Wf(e) && Int32(e.id) && |stack| == ReadMax
    ensures var r := LabelFetch(e, f, tab, stack);
      r.Some? ==> r.value.0.(labelFetched := e.labelFetched, labelId := e.labelId) == e
  {
    if !e.labelFetched {
      LabelKeepsFirst(e, f, tab, stack);
    }
  }

  /** LabelKeeps for an entry not fetched yet. */
  lemma {:induction false} LabelKeepsFirst(e: Entry, f: Read, tab: seq<string>, stack: seq<char>)
    requires Wf(e) && Int32(e.id) && |stack| == ReadMax && !e.labelFetched
    ensures var r := LabelFetch(e, f, tab, stack);
      r.Some? ==> r.value.0.(labelFetched := e.labelFetched, labelId := e.labelId) == e
  {
    var r := LabelFetch(e, f, tab, stack);
    if !GotBytes(f, ReadMax) {
      LabelFieldsBack(e, r.value.0, false, e.labelId);
    } else if AttrText(e.id, stack, Take(f.data, ReadMax)).Some? {
      var t := Intern(tab, AttrText(e.id, stack, Take(f.data, ReadMax)).value);
      LabelFieldsBack(e, r.value.0, true, t.1);
    }
  }

  // ---------------------------------------------------------------------
  // stat and wchan

  /**
   * When fetch_proc_pid_stat returns the entry: decided by the wchan block
   * whenever it runs (an open failure is not an error, and a stat failure
   * before it is forgotten), by the stat block otherwise.
   */
  lemma {:induction false} StatResult(e: Entry, f: Read, w: Read)
    requires Wf(e)
    ensures StatFetch(e, f, w).1 <==>
      if !e.wchanFetched then w.OpenFailed? || GotBytes(w, ReadMax - 1)
      else e.statFetched || GotBytes(f, ReadMax)
  {
    var (e1, sts) := StatBlock(e, f);
    StatBlockResult(e, f);
    StatBlockKeepsWchan(e, f);
    WchanBlockResult(e1, w, sts);
  }

  lemma {:induction false} StatBlockResult(e: Entry, f: Read)
    requires Wf(e)
    ensures StatBlock(e, f).1 == if e.statFetched || GotBytes(f, ReadMax) then 0 else -1
  {
  }

  lemma {:induction false} WchanBlockResult(e: Entry, w: Read, sts: int)
    requires Wf(e)
    ensures WchanBlock(e, w, sts).1 ==
      if e.wchanFetched then sts else if w.OpenFailed? || GotBytes(w, ReadMax - 1) then 0 else -1
  {
  }

  /** The C string a refill leaves is that of the bytes read, without the last one. */
  lemma {:induction false} RefillText(s: Store, d: seq<char>)
    requires Held(s) && d != []
    ensures CStr(Refill(s, d).buf.bytes) == CStr(d[..|d| - 1])
  {
    var b := Refill(s, d).buf.bytes;
    RefillBytes(s, d);
    assert b == d[..|d| - 1] + [NUL] + b[|d|..];
    CStrNulAfter(d[..|d| - 1], b[|d|..]);
  }

  /** A first stat read of n > 0 bytes leaves its first n - 1 bytes, up to any NUL, as the text. */
  lemma {:induction false} StatText(e: Entry, c: seq<char>, w: Read)
    requires Wf(e) && !e.statFetched && Take(c, ReadMax) != []
    ensures var r := StatFetch(e, Got(c), w).0;
      r.stat.buf.Block? && CStr(r.stat.buf.bytes) == CStr(Take(c, ReadMax)[..|Take(c, ReadMax)| - 1])
  {
    var (e1, sts) := StatBlock(e, Got(c));
    var (e2, _) := WchanBlock(e1, w, sts);
    assert e2.stat == e1.stat;
    RefillText(e.stat, Take(c, ReadMax));
  }

  /** A first wchan read keeps every byte read: n++ makes room for the NUL. */
  lemma {:induction false} WchanText(e: Entry, f: Read, c: seq<char>)
    requires Wf(e) && !e.wchanFetched && Take(c, ReadMax - 1) != []
    ensures var r := StatFetch(e, f, Got(c)).0;
      r.wchan.buf.Block? && CStr(r.wchan.buf.bytes) == CStr(Take(c, ReadMax - 1))
  {
    var d := Take(c, ReadMax - 1);
    var (e1, sts) := StatBlock(e, f);
    StatBlockKeepsWchan(e, f);
    WchanBlockFills(e1, c, sts);
    RefillText(e1.wchan, d + [NUL]);
    assert (d + [NUL])[..|d|] == d;
  }

  lemma {:induction false} StatBlockKeepsWchan(e: Entry, f: Read)
    requires Wf(e)
    ensures StatBlock(e, f).0.wchan == e.wchan && StatBlock(e, f).0.wchanFetched == e.wchanFetched
  {
  }

  lemma {:induction false} WchanBlockFills(e: Entry, c: seq<char>, sts: int)
    requires Wf(e) && !e.wchanFetched && Take(c, ReadMax - 1) != []
    ensures WchanBlock(e, Got(c), sts).0.wchan == Refill(e.wchan, Take(c, ReadMax - 1) + [NUL])
  {
  }

  /** A refill shorter than the buffer keeps the old bytes after it. */
  lemma {:induction false} RefillKeepsTail(s: Store, d: seq<char>)
    requires Held(s) && d != [] && |d| < s.buflen
    ensures Refill(s, d).buflen == s.buflen
    ensures Refill(s, d).buf.bytes == Terminated(d) + s.buf.bytes[|d|..]
  {
    var b := Refill(s, d).buf.bytes;
    RefillBytes(s, d);
    assert b == b[..|d|] + b[|d|..];
  }

  // ---------------------------------------------------------------------
  // statm and schedstat

  /** fetch_proc_pid_statm fails exactly when it reads and gets no bytes. */
  lemma {:induction false} StatmResult(e: Entry, f: Read)
    requires Wf(e)
    ensures StatmFetch(e, f).1 <==> e.statmFetched || GotBytes(f, ReadMax)
  {
  }

  /** The flag is set even on failure, so a failure is reported once and the next call returns the entry. */
  lemma {:induction false} StatmFailsOnce(e: Entry, f: Read, g: Read)
    requires Wf(e)
    ensures var (e1, _) := StatmFetch(e, f); StatmFetch(e1, g) == (e1, true)
  {
  }

  /** A first statm read of n > 0 bytes leaves its first n - 1 bytes, up to any NUL, as the text. */
  lemma {:induction false} StatmText(e: Entry, c: seq<char>)
    requires Wf(e) && !e.statmFetched && Take(c, ReadMax) != []
    ensures var r := StatmFetch(e, Got(c)).0;
      r.statm.buf.Block? && CStr(r.statm.buf.bytes) == CStr(Take(c, ReadMax)[..|Take(c, ReadMax)| - 1])
  {
    RefillText(e.statm, Take(c, ReadMax));
  }

  /** The same for a first schedstat read. */
  lemma {:induction false} SchedstatText(e: Entry, c: seq<char>)
    requires Wf(e) && !e.schedstatFetched && Take(c, ReadMax) != []
    ensures var r := SchedstatFetch(e, Got(c)).0;
      r.schedstat.buf.Block? && CStr(r.schedstat.buf.bytes) == CStr(Take(c, ReadMax)[..|Take(c, ReadMax)| - 1])
  {
    RefillText(e.schedstat, Take(c, ReadMax));
  }

  /** An open failure leaves the schedstat entry as it was, so the next call opens the file again; other failures do not. */
  lemma {:induction false} SchedstatRetry(e: Entry, f: Read)
    requires Wf(e) && !e.schedstatFetched
    ensures SchedstatFetch(e, f).1 <==> GotBytes(f, ReadMax)
    ensures f.OpenFailed? ==> SchedstatFetch(e, f) == (e, false)
    ensures !f.OpenFailed? ==> SchedstatFetch(SchedstatFetch(e, f).0, f) == (SchedstatFetch(e, f).0, true)
  {
  }

  // ---------------------------------------------------------------------
  // status and io

  /**
   * The status scan runs exactly on a first fetch whose read gave bytes and
   * whose buffer is there: grown successfully, or large enough and not
   * left NULL by an earlier failed growth.
   */
  lemma {:induction false} StatusScans(e: Entry, f: Read, a: bool)
    requires Wf(e)
    ensures StatusStep(e, f, a).1 == Scan <==>
      !e.statusFetched && GotBytes(f, ReadMax)
      && (if e.status.buflen < |Take(f.data, ReadMax)| then a else e.status.buf.Block?)
  {
  }

  /** Like the stat buffer, the scanned status text is the read without its last byte. */
  lemma {:induction false} StatusText(e: Entry, c: seq<char>, a: bool)
    requires Wf(e) && StatusStep(e, Got(c), a).1 == Scan
    ensures CStr(StatusStep(e, Got(c), a).0.status.buf.bytes) == CStr(Take(c, ReadMax)[..|Take(c, ReadMax)| - 1])
  {
    var d := Take(c, ReadMax);
    var b := StatusStep(e, Got(c), a).0.status.buf.bytes;
    RefitBytes(e.status, d, a);
    assert b[..|d|] == Terminated(d);
    assert b == d[..|d| - 1] + [NUL] + b[|d|..];
    CStrNulAfter(d[..|d| - 1], b[|d|..]);
  }

  /** The io split runs on the same condition, and only a split sets the flag, so a failure is retried. */
  lemma {:induction false} IoScans(e: Entry, f: Read, a: bool)
    requires Wf(e)
    ensures IoStep(e, f, a).1 == Scan <==>
      !e.ioFetched && GotBytes(f, ReadMax)
      && (if e.io.buflen < |Take(f.data, ReadMax)| then a else e.io.buf.Block?)
    ensures IoStep(e, f, a).1 == Failed ==> !IoStep(e, f, a).0.ioFetched
  {
  }

  // ---------------------------------------------------------------------
  // maps

  /** When the file outgrows the buffer, the buffer is exactly the bytes read and a NUL. */
  lemma {:induction false} MapsExact(s: Store, all: seq<char>)
    requires Held(s) && s.buflen <= |all|
    ensures MapsFill(s, all).buf.bytes == all + [NUL]
  {
  }

  /**
   * When it does not, only the buffer's last byte is set to NUL: a NUL-free
   * read is followed in the C string by the text an earlier, longer read
   * left behind it.
   */
  lemma {:induction false} MapsStale(s: Store, all: seq<char>)
    requires Held(s) && s.buflen > |all| && NoNul(all)
    ensures CStr(MapsFill(s, all).buf.bytes) == all + CStr(s.buf.bytes[|all|..s.buflen - 1])
  {
    var b := MapsFill(s, all).buf.bytes;
    var tail := s.buf.bytes[|all|..s.buflen - 1];
    assert b == all + (tail + [NUL]);
    CStrAppend(all, tail + [NUL]);
    CStrOfNoNulOrNul(tail);
  }

  lemma {:induction false} CStrOfNoNulOrNul(t: seq<char>)
    ensures CStr(t + [NUL]) == CStr(t)
  {
    CStrNulAfter(t, []);
    assert t + [NUL] + [] == t + [NUL];
  }

  // ---------------------------------------------------------------------
  // fd

  /** fd_count is the number of directory entries minus two, in uint32_t arithmetic. */
  lemma {:induction false} FdCount(e: Entry, names: seq<string>)
    requires Wf(e) && !e.fdFetched
    ensures FdFetch(e, Some(names)).0.fdCount == U32(|names| - 2)
    ensures 2 <= |names| < 0x1_0000_0000 ==> FdFetch(e, Some(names)).0.fdCount == |names| - 2
  {
  }

  // ---------------------------------------------------------------------
  // Interned strings, cgroup and label

  lemma {:induction false} IndexOfDistinct(tab: seq<string>, i: nat)
    requires Distinct(tab) && i < |tab|
    ensures IndexOf(tab, tab[i]) == i
  {
  }

  /** Interning keeps the table free of duplicates. */
  lemma {:induction false} InternDistinct(tab: seq<string>, s: string)
    requires Distinct(tab)
    ensures Distinct(Intern(tab, s).0)
  {
  }

  /** Two strings interned one after the other share an identifier exactly when they are equal. */
  lemma {:induction false} InternInjective(tab: seq<string>, a: string, b: string)
    requires Distinct(tab)
    ensures var (t1, i) := Intern(tab, a); var (_, j) := Intern(t1, b); i == j <==> a == b
  {
    var (t1, i) := Intern(tab, a);
    InternDistinct(tab, a);
    var (t2, j) := Intern(t1, b);
    if a == b {
      IndexOfDistinct(t1, i);
    }
  }

  /** A fetched cgroup set stays fetched through the reconcile's reset: it is read once per entry. */
  lemma {:induction false} CgroupOncePerEntry(e: Entry, f: Read, g: Read, tab: seq<string>, tab2: seq<string>)
    requires Wf(e)
    ensures var (e1, _, ok) := CgroupFetch(e, f, tab);
      ok ==> CgroupFetch(Reset(e1), g, tab2) == (Reset(e1), tab2, true) && Reset(e1).cgroupId == e1.cgroupId
  {
  }

  /** The same holds for the security label. */
  lemma {:induction false} LabelOncePerEntry(e: Entry, f: Read, g: Read, tab: seq<string>, tab2: seq<string>, stack: seq<char>)
    requires Wf(e) && Int32(e.id) && |stack| == ReadMax
    ensures var r := LabelFetch(e, f, tab, stack);
      r.Some? && r.value.2 ==>
        LabelFetch(Reset(r.value.0), g, tab2, stack) == Some((Reset(r.value.0), tab2, true))
  {
  }

  /** The label read holding a NUL is interned up to that NUL. */
  lemma {:induction false} LabelUpToNul(id: int, stack: seq<char>, x: seq<char>, y: seq<char>)
    requires Int32(id) && |stack| == ReadMax && |x + [NUL] + y| <= ReadMax && NoNul(x)
    ensures AttrText(id, stack, x + [NUL] + y) == Some(x)
  {
    var d := x + [NUL] + y;
    AttrPathWidth(id);
    var b := Put(Sprintf(stack, AttrPath(id)), 0, d);
    PutFront(Sprintf(stack, AttrPath(id)), 0, d);
    assert b == x + [NUL] + (y + b[|d|..]);
    CStrStopsAtNul(x, y + b[|d|..]);
  }

  /**
   * A NUL-free read shorter than the path is interned with the rest of the
   * path "/proc/<pid>/attr/current" behind it: the read does not end the
   * string and the path's own NUL does.
   */
  lemma {:induction false} LabelKeepsPathTail(id: int, stack: seq<char>, d: seq<char>)
    requires Int32(id) && |stack| == ReadMax && NoNul(d) && |d| <= |AttrPath(id)| && |d| <= ReadMax
    ensures AttrText(id, stack, d) == Some(d + AttrPath(id)[|d|..])
  {
    var p := AttrPath(id);
    AttrPathWidth(id);
    var b0 := Sprintf(stack, p);
    var b := Put(b0, 0, d);
    AttrParts(stack, p, d);
    assert NoNul(d + p[|d|..]);
    CStrStopsAtNul(d + p[|d|..], b[|p| + 1..]);
  }

  lemma {:induction false} AttrParts(stack: seq<char>, p: string, d: seq<char>)
    requires |p| < |stack| && |d| <= |p|
    ensures var b := Put(Sprintf(stack, p), 0, d);
      b == d + p[|d|..] + [NUL] + b[|p| + 1..]
  {
    var b0 := Sprintf(stack, p);
    PutFront(stack, 0, p + [NUL]);
    PutFront(b0, 0, d);
    var b := Put(b0, 0, d);
    assert b0[..|p| + 1] == p + [NUL];
    assert b[..|p| + 1] == d + p[|d|..] + [NUL];
  }
}
