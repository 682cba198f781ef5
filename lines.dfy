/**
 * The line locators of fetch_proc_pid_status and fetch_proc_pid_io.
 *
 * Both walk a cursor (`curline`) through the entry's buffer and keep
 * pointers to the lines they want.  strsep(3) returns the cursor, turns the
 * newline ending that line into a NUL and moves the cursor past it, or to
 * NULL when the line has no newline; index(3) + 1 moves the cursor past the
 * next newline without cutting.  A pointer is an offset into the buffer and
 * NULL is None.
 *
 * The specifications work on the text of the buffer (its C string before
 * any cut) with the same cursor steps; the methods work on the buffer
 * itself and write the NULs.  A specification result of None marks the
 * inputs on which the C code would follow a NULL pointer or index(3) + 1
 * of NULL: the methods require that this does not happen.
 */
module LineScan {
  import opened CString
  import Cgroup

  const UidTag: string := "Uid:"
  const VmSizeTag: string := "VmSize:"
  const VmRssTag: string := "VmRSS:"
  const SigPndTag: string := "SigPnd:"

  // ---------------------------------------------------------------------
  // The text view

  /** Where the line starting at c ends: at its newline or at the end of the text. */
  function LineEnd(t: string, c: nat): (e: nat)
    requires c <= |t|
    ensures c <= e <= |t|
    ensures forall k :: c <= k < e ==> t[k] != '\n'
    ensures e < |t| ==> t[e] == '\n'
  {
    match Find(t, '\n', c)
    case Some(q) => q
    case None => |t|
  }

  /** c is where a line begins: the start of the text or just after a newline. */
  predicate LineStart(t: string, c: nat) {
    c == 0 || (0 < c <= |t| && t[c - 1] == '\n')
  }

  /** The cursor after strsep(3) or index(3) + 1 on a line starting at c; None for NULL. */
  function Next(t: string, c: Option<nat>): (r: Option<nat>)
    requires c.Some? ==> c.value <= |t|
    ensures r.Some? ==> c.Some? && c.value < r.value <= |t|
  {
    if c.None? then None
    else match Find(t, '\n', c.value)
      case Some(q) => Some(q + 1)
      case None => None
  }

  /** strncmp(t + c, tag, |tag|) == 0. */
  predicate Starts(t: string, c: nat, tag: string)
    requires c <= |t|
  {
    c + |tag| <= |t| && t[c..c + |tag|] == tag
  }

  /** The cursor after k strsep(3) calls from the start of the text. */
  function NthLine(t: string, k: nat): (r: Option<nat>)
    ensures r.Some? ==> r.value <= |t|
  {
    if k == 0 then Some(0) else Next(t, NthLine(t, k - 1))
  }

  // ---------------------------------------------------------------------
  // The status lines

  /** ep->status_lines: one pointer per line of /proc/<pid>/status the cache serves. */
  datatype StatusLines = StatusLines(
    uid: Option<nat>, gid: Option<nat>,
    vmsize: Option<nat>, vmlck: Option<nat>, vmrss: Option<nat>, vmdata: Option<nat>,
    vmstk: Option<nat>, vmexe: Option<nat>, vmlib: Option<nat>, vmswap: Option<nat>,
    threads: Option<nat>,
    sigpnd: Option<nat>, sigblk: Option<nat>, sigign: Option<nat>, sigcgt: Option<nat>)

  /** The first line from c on that starts with "Uid:"; None where index(3) finds no newline first. */
  function UidLine(t: string, c: nat): (r: Option<nat>)
    requires c <= |t|
    ensures r.Some? ==> c <= r.value <= |t|
    decreases |t| - c
  {
    if Starts(t, c, UidTag) then Some(c)
    else match Next(t, Some(c))
      case None => None
      case Some(d) => UidLine(t, d)
  }

  /**
   * The VmSize: block at line i: vmsize and vmlck, at most two skipped lines
   * that do not start with "VmRSS:", vmrss to vmlib, the skipped VmPTE line,
   * vmswap and threads; with the cursor after threads.
   */
  function VmBlock(t: string, i: nat, acc: StatusLines): (r: Option<(StatusLines, Option<nat>)>)
    requires i <= |t|
    ensures r.Some? && r.value.1.Some? ==> i < r.value.1.value <= |t|
  {
    var lck := Next(t, Some(i));
    var rss := RssLine(t, Next(t, lck));
    if rss.None? || !VmTailDefined(t, rss.value) then None
    else Some(VmTailOf(t, rss.value, acc.(vmsize := Some(i), vmlck := lck)))
  }

  /**
   * The VmRSS: line from cursor c: c itself, or one of the next two lines
   * when the ones before it do not start with "VmRSS:"; None where the C
   * code would compare or index NULL.
   */
  function RssLine(t: string, c: Option<nat>): (r: Option<nat>)
    requires c.Some? ==> c.value <= |t|
    ensures r.Some? ==> c.Some? && c.value <= r.value <= |t|
  {
    if c.None? then None
    else
      var c := if Starts(t, c.value, VmRssTag) then c else Next(t, c);
      if c.None? then None
      else if Starts(t, c.value, VmRssTag) then c else Next(t, c)
  }

  /** The part of VmBlock from the VmRSS: line on never follows NULL. */
  predicate VmTailDefined(t: string, rss: nat)
    requires rss <= |t|
  {
    var pte := Next(t, Next(t, Next(t, Next(t, Next(t, Some(rss))))));
    pte.Some? && Next(t, pte).Some?
  }

  /**
   * vmrss to vmlib on five consecutive lines, the VmPTE line skipped, vmswap
   * and threads on the two lines after it; and the cursor after threads.
   */
  function VmTailOf(t: string, rss: nat, acc: StatusLines): (r: (StatusLines, Option<nat>))
    requires rss <= |t|
    ensures r.1.Some? ==> rss < r.1.value <= |t|
  {
    var data := Next(t, Some(rss));
    var stk := Next(t, data);
    var exe := Next(t, stk);
    var lib := Next(t, exe);
    var swap := Next(t, Next(t, lib));
    var threads := Next(t, swap);
    (acc.(vmrss := Some(rss), vmdata := data, vmstk := stk, vmexe := exe, vmlib := lib,
          vmswap := swap, threads := threads), Next(t, threads))
  }

  /** The SigPnd: block at line i: four consecutive lines. */
  function SigBlock(t: string, i: nat, acc: StatusLines): StatusLines
    requires i <= |t|
  {
    var blk := Next(t, Some(i));
    var ign := Next(t, blk);
    acc.(sigpnd := Some(i), sigblk := blk, sigign := ign, sigcgt := Next(t, ign))
  }

  /** The `while (curline)` loop from cursor c. */
  function ScanFrom(t: string, c: Option<nat>, acc: StatusLines): Option<StatusLines>
    requires c.Some? ==> c.value <= |t|
    decreases if c.Some? then |t| + 1 - c.value else 0
  {
    if c.None? then Some(acc)
    else if Starts(t, c.value, VmSizeTag) then
      match VmBlock(t, c.value, acc)
      case None => None
      case Some(next) => ScanFrom(t, next.1, next.0)
    else if Starts(t, c.value, SigPndTag) then Some(SigBlock(t, c.value, acc))
    else if Next(t, c).None? then None
    else ScanFrom(t, Next(t, c), acc)
  }

  /**
   * The whole scan of a status text: uid on the first "Uid:" line, gid on
   * the line after it, then the loop.  Lines the scan does not reach keep
   * their previous pointers.
   */
  function StatusScan(t: string, prev: StatusLines): Option<StatusLines> {
    match UidLine(t, 0)
    case None => None
    case Some(u) =>
      var gid := Next(t, Some(u));
      ScanFrom(t, Next(t, gid), prev.(uid := Some(u), gid := gid))
  }

  // ---------------------------------------------------------------------
  // The io lines

  /** ep->io_lines: the seven lines of /proc/<pid>/io. */
  datatype IoLines = IoLines(
    rchar: Option<nat>, wchar: Option<nat>, syscr: Option<nat>, syscw: Option<nat>,
    readb: Option<nat>, writeb: Option<nat>, cancel: Option<nat>)

  /** The seven pointers are the cursors of seven strsep(3) calls from the start. */
  function IoSplit(t: string): IoLines {
    IoLines(NthLine(t, 0), NthLine(t, 1), NthLine(t, 2), NthLine(t, 3),
            NthLine(t, 4), NthLine(t, 5), NthLine(t, 6))
  }

  // ---------------------------------------------------------------------
  // The buffer view

  /** index(3) for '\n' from p: the first newline before the terminating NUL. */
  function NlAt(b: seq<char>, p: nat): (r: Option<nat>)
    requires p <= |b|
    ensures r.Some? ==> p <= r.value < |b| && b[r.value] == '\n'
    decreases |b| - p
  {
    if p == |b| || b[p] == NUL then None
    else if b[p] == '\n' then Some(p)
    else NlAt(b, p + 1)
  }

  /** strncmp(b + p, tag, |tag|) == 0 for a tag without NUL. */
  predicate TagAt(b: seq<char>, p: nat, tag: string)
    requires p <= |b|
  {
    p + |tag| <= |b| && b[p..p + |tag|] == tag
  }

  /** nb is b with some newlines turned into NULs. */
  predicate Cut(b: seq<char>, nb: seq<char>) {
    |nb| == |b| && forall k :: 0 <= k < |b| ==> nb[k] == b[k] || (b[k] == '\n' && nb[k] == NUL)
  }

  /** The C string at offset o of nb is the line of t that starts there. */
  predicate ReadsLine(nb: seq<char>, t: string, o: nat) {
    o <= |t| < |nb| && CStr(nb[o..]) == t[o..LineEnd(t, o)]
  }

  /** A pointer that is NULL or reads as its line. */
  predicate Pointer(nb: seq<char>, t: string, f: Option<nat>) {
    f.Some? ==> ReadsLine(nb, t, f.value)
  }

  /** A status pointer the scan kept from before, or one that reads as its line. */
  predicate KeptOrLine(p: Option<nat>, f: Option<nat>, nb: seq<char>, t: string) {
    f == p || Pointer(nb, t, f)
  }

  predicate EachKeptOrLine(prev: StatusLines, r: StatusLines, nb: seq<char>, t: string) {
    KeptOrLine(prev.uid, r.uid, nb, t) && KeptOrLine(prev.gid, r.gid, nb, t)
    && KeptOrLine(prev.vmsize, r.vmsize, nb, t) && KeptOrLine(prev.vmlck, r.vmlck, nb, t)
    && KeptOrLine(prev.vmrss, r.vmrss, nb, t) && KeptOrLine(prev.vmdata, r.vmdata, nb, t)
    && KeptOrLine(prev.vmstk, r.vmstk, nb, t) && KeptOrLine(prev.vmexe, r.vmexe, nb, t)
    && KeptOrLine(prev.vmlib, r.vmlib, nb, t) && KeptOrLine(prev.vmswap, r.vmswap, nb, t)
    && KeptOrLine(prev.threads, r.threads, nb, t)
    && KeptOrLine(prev.sigpnd, r.sigpnd, nb, t) && KeptOrLine(prev.sigblk, r.sigblk, nb, t)
    && KeptOrLine(prev.sigign, r.sigign, nb, t) && KeptOrLine(prev.sigcgt, r.sigcgt, nb, t)
  }

  /** t is the C string at the front of b. */
  predicate Text(b: seq<char>, t: string) {
    |t| < |b| && b[..|t|] == t && NoNul(t) && b[|t|] == NUL
  }

  /** The line at o has its bytes in place and a NUL where it ends. */
  predicate LineCut(nb: seq<char>, t: string, o: nat) {
    o <= |t| < |nb| && nb[LineEnd(t, o)] == NUL && nb[o..LineEnd(t, o)] == t[o..LineEnd(t, o)]
  }

  /**
   * The scan state: nb is b with the lines taken so far cut (their offsets
   * are in `seen`), each of them ends before the cursor, and from the cursor
   * on nb still holds the original bytes.
   */
  ghost predicate Inv(b: seq<char>, nb: seq<char>, t: string, c: Option<nat>, seen: set<nat>) {
    Text(b, t) && Cut(b, nb)
    && (c.Some? ==> c.value <= |t| && nb[c.value..] == b[c.value..])
    && forall o :: o in seen ==> LineCut(nb, t, o) && (c.Some? ==> LineEnd(t, o) < c.value)
  }

  /** Each status pointer is the previous one, NULL, or one taken in this scan. */
  predicate Tracked(prev: StatusLines, r: StatusLines, seen: set<nat>) {
    Taken(prev.uid, r.uid, seen) && Taken(prev.gid, r.gid, seen)
    && Taken(prev.vmsize, r.vmsize, seen) && Taken(prev.vmlck, r.vmlck, seen)
    && Taken(prev.vmrss, r.vmrss, seen) && Taken(prev.vmdata, r.vmdata, seen)
    && Taken(prev.vmstk, r.vmstk, seen) && Taken(prev.vmexe, r.vmexe, seen)
    && Taken(prev.vmlib, r.vmlib, seen) && Taken(prev.vmswap, r.vmswap, seen)
    && Taken(prev.threads, r.threads, seen)
    && Taken(prev.sigpnd, r.sigpnd, seen) && Taken(prev.sigblk, r.sigblk, seen)
    && Taken(prev.sigign, r.sigign, seen) && Taken(prev.sigcgt, r.sigcgt, seen)
  }

  predicate Taken(p: Option<nat>, f: Option<nat>, seen: set<nat>) {
    f == p || f.None? || f.value in seen
  }

  /** None of the tags holds a NUL, so strncmp(3) compares all of each. */
  lemma {:induction false} TagsNoNul()
    ensures NoNul(UidTag) && NoNul(VmSizeTag) && NoNul(VmRssTag) && NoNul(SigPndTag)
  {
  }

  /** Equal suffixes agree on every index and every slice inside them. */
  lemma {:induction false} Agree(nb: seq<char>, b: seq<char>, c: nat, k: nat, e: nat)
    requires |nb| == |b| && c <= k <= e <= |b| && nb[c..] == b[c..]
    ensures nb[k..] == b[k..] && nb[k..e] == b[k..e]
    ensures k < |b| ==> nb[k] == b[k]
  {
    assert nb[k..] == nb[c..][k - c..];
    assert b[k..] == b[c..][k - c..];
    assert nb[k..e] == nb[k..][..e - k];
    assert b[k..e] == b[k..][..e - k];
    if k < |b| {
      assert nb[k] == nb[k..][0];
    }
  }

  /** Inside the text, b holds the text. */
  lemma {:induction false} TextAt(b: seq<char>, t: string, k: nat, e: nat)
    requires Text(b, t) && k <= e <= |t|
    ensures b[k..e] == t[k..e]
    ensures k < |t| ==> b[k] == t[k]
  {
    var x := b[..|t|];
    forall i | 0 <= i < e - k ensures b[k..e][i] == t[k..e][i] {
      assert b[k + i] == x[k + i];
    }
    if k < |t| {
      assert b[k] == x[k];
    }
  }

  /** Reading the buffer from the cursor is reading the text. */
  lemma {:induction false} NlAtText(b: seq<char>, nb: seq<char>, t: string, c: nat)
    requires Text(b, t) && |nb| == |b|
    requires c <= |t| && nb[c..] == b[c..]
    ensures NlAt(nb, c) == Find(t, '\n', c)
    decreases |t| - c
  {
    Agree(nb, b, c, c, c);
    TextAt(b, t, c, c);
    if c < |t| && t[c] != '\n' {
      Agree(nb, b, c, c + 1, c + 1);
      NlAtText(b, nb, t, c + 1);
    }
  }

  lemma {:induction false} TagAtText(b: seq<char>, nb: seq<char>, t: string, c: nat, tag: string)
    requires Text(b, t) && |nb| == |b|
    requires c <= |t| && nb[c..] == b[c..]
    requires NoNul(tag)
    ensures TagAt(nb, c, tag) == Starts(t, c, tag)
  {
    if c + |tag| <= |t| {
      Agree(nb, b, c, c, c + |tag|);
      TextAt(b, t, c, c + |tag|);
    } else if c + |tag| <= |nb| {
      Agree(nb, b, c, |t|, |t|);
      assert nb[c..c + |tag|][|t| - c] == NUL;
      assert tag[|t| - c] != NUL;
    }
  }

  /** A line cut in place reads as the line. */
  lemma {:induction false} CutReads(nb: seq<char>, t: string, o: nat)
    requires LineCut(nb, t, o) && NoNul(t)
    ensures ReadsLine(nb, t, o)
  {
    var e := LineEnd(t, o);
    var x := t[o..e];
    assert nb[o..] == x + [NUL] + nb[e + 1..];
    CStrStopsAtNul(x, nb[e + 1..]);
  }

  /** A write at or after q leaves a line that ends before q cut in place. */
  lemma {:induction false} CutKept(nb: seq<char>, t: string, o: nat, q: nat)
    requires LineCut(nb, t, o) && LineEnd(t, o) < q < |nb|
    ensures LineCut(nb[q := NUL], t, o)
  {
    var e := LineEnd(t, o);
    assert nb[q := NUL][o..e] == nb[o..e];
  }

  /** index(3) + 1 at the cursor: no byte changes. */
  lemma {:induction false} SkipStep(b: seq<char>, nb: seq<char>, t: string, c: nat, seen: set<nat>)
    requires Inv(b, nb, t, Some(c), seen)
    ensures NlAt(nb, c) == Find(t, '\n', c)
    ensures Next(t, Some(c)).Some? ==> Inv(b, nb, t, Next(t, Some(c)), seen)
  {
    NlAtText(b, nb, t, c);
    if Next(t, Some(c)).Some? {
      var d := Next(t, Some(c)).value;
      Agree(nb, b, c, d, d);
    }
  }

  /**
   * strsep(&cur, "\n"): returns the cursor as the token (the caller stores
   * it), cuts the line's newline and moves the cursor to the next line.
   */
  method Strsep(ghost b: seq<char>, nb: seq<char>, ghost t: string, cur: Option<nat>, ghost seen: set<nat>)
    returns (nb': seq<char>, cur': Option<nat>, ghost seen': set<nat>)
    requires Inv(b, nb, t, cur, seen)
    ensures cur' == Next(t, cur)
    ensures seen' == if cur.Some? then seen + {cur.value} else seen
    ensures Inv(b, nb', t, cur', seen')
  {
    if cur.None? {
      return nb, None, seen;
    }
    var p := cur.value;
    NlAtText(b, nb, t, p);
    var q := NlAt(nb, p);
    seen' := seen + {p};
    if q.None? {
      Agree(nb, b, p, p, |t|);
      Agree(nb, b, p, |t|, |t|);
      TextAt(b, t, p, |t|);
      return nb, None, seen';
    }
    var e := q.value;
    Agree(nb, b, p, p, e);
    Agree(nb, b, p, e, e);
    TextAt(b, t, p, e);
    nb' := nb[e := NUL];
    cur' := Some(e + 1);
    Agree(nb, b, p, e + 1, e + 1);
    assert nb'[e + 1..] == nb[e + 1..];
    assert nb'[p..e] == nb[p..e];
    forall o | o in seen
      ensures LineCut(nb', t, o)
    {
      CutKept(nb, t, o, e);
    }
  }

  /** The scan state at the start: nothing cut, the cursor at the start of the buffer. */
  lemma {:induction false} InitialInv(b: seq<char>)
    requires NUL in b
    ensures Inv(b, b, CStr(b), Some(0), {})
  {
    CStrEnd(b);
  }

  /** Every line a scan has taken reads as its line. */
  lemma {:induction false} SeenReads(b: seq<char>, nb: seq<char>, t: string, c: Option<nat>, seen: set<nat>)
    requires Inv(b, nb, t, c, seen)
    ensures forall o :: o in seen ==> ReadsLine(nb, t, o)
  {
    forall o | o in seen ensures ReadsLine(nb, t, o) {
      CutReads(nb, t, o);
    }
  }

  /** The pointers a scan has taken read as their lines. */
  lemma {:induction false} TrackedReads(b: seq<char>, nb: seq<char>, t: string, c: Option<nat>, seen: set<nat>,
                     prev: StatusLines, r: StatusLines)
    requires Inv(b, nb, t, c, seen) && Tracked(prev, r, seen)
    ensures EachKeptOrLine(prev, r, nb, t)
  {
    SeenReads(b, nb, t, c, seen);
  }

  /** The VmSize: block of the loop, on the buffer. */
  method VmStep(ghost b: seq<char>, nb: seq<char>, ghost t: string, i: nat, r: StatusLines,
                ghost prev: StatusLines, ghost seen: set<nat>)
    returns (nb': seq<char>, r': StatusLines, c': Option<nat>, ghost seen': set<nat>)
    requires Inv(b, nb, t, Some(i), seen) && Tracked(prev, r, seen)
    requires VmBlock(t, i, r).Some?
    ensures VmBlock(t, i, r) == Some((r', c'))
    ensures Inv(b, nb', t, c', seen') && Tracked(prev, r', seen')
  {
    var c: Option<nat> := Some(i);
    r' := r.(vmsize := c);
    nb', c, seen' := Strsep(b, nb, t, c, seen);
    r' := r'.(vmlck := c);
    nb', c, seen' := Strsep(b, nb', t, c, seen');
    TagsNoNul();
    var rss := RssSearch(b, nb', t, c, seen');
    r', nb', c, seen' := VmTail(b, nb', t, rss, r', prev, seen');
    c' := c;
  }

  /** The two `strncmp(curline, "VmRSS:", 6)` tests, each skipping a line when it fails. */
  method RssSearch(ghost b: seq<char>, nb: seq<char>, ghost t: string, c: Option<nat>, ghost seen: set<nat>)
    returns (rss: nat)
    requires Inv(b, nb, t, c, seen)
    requires RssLine(t, c).Some?
    ensures RssLine(t, c) == Some(rss)
    ensures Inv(b, nb, t, Some(rss), seen)
  {
    var p := RssTest(b, nb, t, c.value, seen);
    rss := RssTest(b, nb, t, p, seen);
  }

  /** One of those tests: stay on a VmRSS: line, or move to the start of the next line. */
  method RssTest(ghost b: seq<char>, nb: seq<char>, ghost t: string, p: nat, ghost seen: set<nat>)
    returns (q: nat)
    requires Inv(b, nb, t, Some(p), seen)
    requires Starts(t, p, VmRssTag) || Next(t, Some(p)).Some?
    ensures Some(q) == if Starts(t, p, VmRssTag) then Some(p) else Next(t, Some(p))
    ensures Inv(b, nb, t, Some(q), seen)
  {
    TagAtText(b, nb, t, p, VmRssTag);
    q := p;
    if !TagAt(nb, p, VmRssTag) {
      SkipStep(b, nb, t, p, seen);
      q := NlAt(nb, p).value + 1;
    }
  }

  /** From vmrss to threads, skipping the VmPTE line. */
  method VmTail(ghost b: seq<char>, nb: seq<char>, ghost t: string, rss: nat, r: StatusLines,
                ghost prev: StatusLines, ghost seen: set<nat>)
    returns (r': StatusLines, nb': seq<char>, c': Option<nat>, ghost seen': set<nat>)
    requires Inv(b, nb, t, Some(rss), seen) && Tracked(prev, r, seen)
    requires VmTailDefined(t, rss)
    ensures VmTailOf(t, rss, r) == (r', c')
    ensures Inv(b, nb', t, c', seen') && Tracked(prev, r', seen')
  {
    var c: Option<nat> := Some(rss);
    r' := r.(vmrss := c);
    nb', c, seen' := Strsep(b, nb, t, c, seen);
    r' := r'.(vmdata := c);
    nb', c, seen' := Strsep(b, nb', t, c, seen');
    r' := r'.(vmstk := c);
    nb', c, seen' := Strsep(b, nb', t, c, seen');
    r' := r'.(vmexe := c);
    nb', c, seen' := Strsep(b, nb', t, c, seen');
    r' := r'.(vmlib := c);
    nb', c, seen' := Strsep(b, nb', t, c, seen');
    r', nb', c', seen' := VmSwap(b, nb', t, c.value, r', prev, seen');
  }

  /** Skip the VmPTE line at pte, then take vmswap and threads. */
  method VmSwap(ghost b: seq<char>, nb: seq<char>, ghost t: string, pte: nat, r: StatusLines,
                ghost prev: StatusLines, ghost seen: set<nat>)
    returns (r': StatusLines, nb': seq<char>, c': Option<nat>, ghost seen': set<nat>)
    requires Inv(b, nb, t, Some(pte), seen) && Tracked(prev, r, seen)
    requires Next(t, Some(pte)).Some?
    ensures var swap := Next(t, Some(pte));
            r' == r.(vmswap := swap, threads := Next(t, swap)) && c' == Next(t, Next(t, swap))
    ensures Inv(b, nb', t, c', seen') && Tracked(prev, r', seen')
  {
    SkipStep(b, nb, t, pte, seen);
    var c := Some(NlAt(nb, pte).value + 1);
    r' := r.(vmswap := c);
    nb', c, seen' := Strsep(b, nb, t, c, seen);
    r' := r'.(threads := c);
    nb', c', seen' := Strsep(b, nb', t, c, seen');
  }

  /** The SigPnd: block on the buffer. */
  method SigStep(ghost b: seq<char>, nb: seq<char>, ghost t: string, i: nat, r: StatusLines,
                 ghost prev: StatusLines, ghost seen: set<nat>)
    returns (nb': seq<char>, r': StatusLines, c': Option<nat>, ghost seen': set<nat>)
    requires Inv(b, nb, t, Some(i), seen) && Tracked(prev, r, seen)
    ensures r' == SigBlock(t, i, r)
    ensures Inv(b, nb', t, c', seen') && Tracked(prev, r', seen')
  {
    var c: Option<nat> := Some(i);
    r' := r.(sigpnd := c);
    nb', c, seen' := Strsep(b, nb, t, c, seen);
    r' := r'.(sigblk := c);
    nb', c, seen' := Strsep(b, nb', t, c, seen');
    r' := r'.(sigign := c);
    nb', c, seen' := Strsep(b, nb', t, c, seen');
    r' := r'.(sigcgt := c);
    nb', c, seen' := Strsep(b, nb', t, c, seen');
    c' := c;
  }

  /** A turn of the `while (curline)` loop at a VmSize: line. */
  lemma {:induction false} VmTurn(t: string, i: nat, acc: StatusLines, acc': StatusLines, c': Option<nat>)
    requires i <= |t| && Starts(t, i, VmSizeTag)
    requires VmBlock(t, i, acc) == Some((acc', c'))
    ensures ScanFrom(t, Some(i), acc) == ScanFrom(t, c', acc')
  {
  }

  /** A turn at a SigPnd: line ends the loop. */
  lemma {:induction false} SigTurn(t: string, i: nat, acc: StatusLines)
    requires i <= |t| && !Starts(t, i, VmSizeTag) && Starts(t, i, SigPndTag)
    ensures ScanFrom(t, Some(i), acc) == Some(SigBlock(t, i, acc))
  {
  }

  /** A turn at any other line moves to the next one. */
  lemma {:induction false} OtherTurn(t: string, i: nat, acc: StatusLines)
    requires i <= |t| && !Starts(t, i, VmSizeTag) && !Starts(t, i, SigPndTag)
    requires ScanFrom(t, Some(i), acc).Some?
    ensures Next(t, Some(i)).Some?
    ensures ScanFrom(t, Some(i), acc) == ScanFrom(t, Next(t, Some(i)), acc)
  {
  }

  /** A turn at a VmSize: line that the C code survives has a defined block. */
  lemma {:induction false} VmTurnDefined(t: string, i: nat, acc: StatusLines)
    requires i <= |t| && Starts(t, i, VmSizeTag)
    requires ScanFrom(t, Some(i), acc).Some?
    ensures VmBlock(t, i, acc).Some?
  {
  }

  /** The `strncmp(curline, "Uid:", 4)` loop: skip lines until one starts with "Uid:". */
  method FindUid(b: seq<char>, ghost t: string) returns (p: nat)
    requires Inv(b, b, t, Some(0), {})
    requires UidLine(t, 0).Some?
    ensures UidLine(t, 0) == Some(p)
    ensures Inv(b, b, t, Some(p), {})
  {
    TagsNoNul();
    p := 0;
    TagAtText(b, b, t, p, UidTag);
    while !TagAt(b, p, UidTag)
      invariant Inv(b, b, t, Some(p), {})
      invariant UidLine(t, p) == UidLine(t, 0)
      invariant TagAt(b, p, UidTag) == Starts(t, p, UidTag)
      decreases |t| - p
    {
      ghost var p0 := p;
      SkipStep(b, b, t, p, {});
      p := NlAt(b, p).value + 1;
      UidLineStep(t, p0, p);
      TagAtText(b, b, t, p, UidTag);
    }
  }

  /** Past a line that does not start with "Uid:", the search goes on from the next line. */
  lemma {:induction false} UidLineStep(t: string, p: nat, q: nat)
    requires p <= |t| && !Starts(t, p, UidTag) && Next(t, Some(p)) == Some(q)
    ensures UidLine(t, q) == UidLine(t, p)
  {
  }

  /**
   * The status scan of fetch_proc_pid_status on ep->status_buf: it computes
   * the lines the specification gives, cuts only newlines, and every pointer
   * is either the previous one or reads as the line it points at.
   */
  method ScanStatus(b: seq<char>, prev: StatusLines) returns (nb: seq<char>, r: StatusLines)
    requires NUL in b
    requires StatusScan(CStr(b), prev).Some?
    ensures r == StatusScan(CStr(b), prev).value
    ensures Cut(b, nb)
    ensures EachKeptOrLine(prev, r, nb, CStr(b))
  {
    ghost var t := CStr(b);
    InitialInv(b);
    TagsNoNul();
    nb := b;
    ghost var seen: set<nat> := {};
    var p := FindUid(b, t);
    // user & group IDs
    var c: Option<nat> := Some(p);
    r := prev.(uid := c);
    nb, c, seen := Strsep(b, nb, t, c, seen);
    r := r.(gid := c);
    nb, c, seen := Strsep(b, nb, t, c, seen);
    assert StatusScan(t, prev) == ScanFrom(t, c, r);
    nb, r := ScanLoop(b, nb, t, c, r, prev, seen);
  }

  /**
   * One turn of the `while (curline)` loop at line start i: a VmSize: block,
   * the SigPnd: block (which ends the loop) or a skip to the next line.
   */
  method Turn(ghost b: seq<char>, nb: seq<char>, ghost t: string, i: nat, r: StatusLines,
              ghost prev: StatusLines, ghost seen: set<nat>)
    returns (nb': seq<char>, r': StatusLines, c': Option<nat>, ghost seen': set<nat>, done: bool)
    requires Inv(b, nb, t, Some(i), seen) && Tracked(prev, r, seen)
    requires ScanFrom(t, Some(i), r).Some?
    ensures Inv(b, nb', t, c', seen') && Tracked(prev, r', seen')
    ensures done ==> ScanFrom(t, Some(i), r) == Some(r')
    ensures !done ==> ScanFrom(t, Some(i), r) == ScanFrom(t, c', r')
    ensures !done && c'.Some? ==> i < c'.value
  {
    TagsNoNul();
    TagAtText(b, nb, t, i, VmSizeTag);
    TagAtText(b, nb, t, i, SigPndTag);
    if TagAt(nb, i, VmSizeTag) {
      VmTurnDefined(t, i, r);
      nb', r', c', seen' := VmStep(b, nb, t, i, r, prev, seen);
      VmTurn(t, i, r, r', c');
      done := false;
    } else if TagAt(nb, i, SigPndTag) {
      SigTurn(t, i, r);
      nb', r', c', seen' := SigStep(b, nb, t, i, r, prev, seen);
      done := true;
    } else {
      OtherTurn(t, i, r);
      SkipStep(b, nb, t, i, seen);
      nb', r', seen' := nb, r, seen;
      c' := Some(NlAt(nb, i).value + 1);
      done := false;
    }
  }

  /** The `while (curline)` loop on the buffer, from cursor c. */
  method ScanLoop(ghost b: seq<char>, nb: seq<char>, ghost t: string, cur: Option<nat>, r: StatusLines,
                  ghost prev: StatusLines, ghost seen0: set<nat>)
    returns (nb': seq<char>, r': StatusLines)
    requires Inv(b, nb, t, cur, seen0) && Tracked(prev, r, seen0)
    requires ScanFrom(t, cur, r).Some?
    ensures ScanFrom(t, cur, r) == Some(r')
    ensures Cut(b, nb')
    ensures EachKeptOrLine(prev, r', nb', t)
  {
    ghost var goal := ScanFrom(t, cur, r);
    nb', r' := nb, r;
    var c := cur;
    ghost var seen := seen0;
    while c.Some?
      invariant Inv(b, nb', t, c, seen) && Tracked(prev, r', seen)
      invariant ScanFrom(t, c, r') == goal
      decreases if c.Some? then |t| + 1 - c.value else 0
    {
      var done;
      nb', r', c, seen, done := Turn(b, nb', t, c.value, r', prev, seen);
      if done {
        TrackedReads(b, nb', t, c, seen, prev, r');
        return;
      }
    }
    TrackedReads(b, nb', t, c, seen, prev, r');
  }

  /**
   * The io split of fetch_proc_pid_io on ep->io_buf: seven strsep(3) calls
   * from the start; each pointer is NULL or reads as its line.
   */
  method SplitIo(b: seq<char>) returns (nb: seq<char>, r: IoLines)
    requires NUL in b
    ensures r == IoSplit(CStr(b))
    ensures Cut(b, nb)
    ensures Pointer(nb, CStr(b), r.rchar) && Pointer(nb, CStr(b), r.wchar)
    ensures Pointer(nb, CStr(b), r.syscr) && Pointer(nb, CStr(b), r.syscw)
    ensures Pointer(nb, CStr(b), r.readb) && Pointer(nb, CStr(b), r.writeb)
    ensures Pointer(nb, CStr(b), r.cancel)
  {
    ghost var t := CStr(b);
    InitialInv(b);
    ghost var seen: set<nat> := {};
    var c: Option<nat> := Some(0);
    var rchar := c;
    nb, c, seen := Strsep(b, b, t, c, seen);
    var wchar := c;
    nb, c, seen := Strsep(b, nb, t, c, seen);
    var syscr := c;
    nb, c, seen := Strsep(b, nb, t, c, seen);
    var syscw := c;
    nb, c, seen := Strsep(b, nb, t, c, seen);
    var readb := c;
    nb, c, seen := Strsep(b, nb, t, c, seen);
    var writeb := c;
    nb, c, seen := Strsep(b, nb, t, c, seen);
    var cancel := c;
    nb, c, seen := Strsep(b, nb, t, c, seen);
    SeenReads(b, nb, t, c, seen);
    r := IoLines(rchar, wchar, syscr, syscw, readb, writeb, cancel);
  }
}
