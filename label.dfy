/**
 * The display label refresh_proc_pidlist builds once for each pid it has
 * not seen before: "%06d " and the command line; else, when the command
 * line is empty or cannot be opened, "%06d (name)" from the first line of
 * the status file; else "%06d <exiting>".
 *
 * All of it happens in one 1024-byte stack buffer that the loop over the
 * pid list reuses, so bytes a step does not write are left over from the
 * pid before, or from whatever was on the stack.  The buffer is a
 * parameter; where the C code would read past it (strchr(3) or strdup(3)
 * finding no terminator) the specification gives None.
 */
module Label {
  import opened CString

  const BufSize: nat := 1024
  /** sizeof(buf) - 8: the most the command line read asks for. */
  const CmdlineMax: nat := 1016
  /** sizeof(buf) - 4: the most the status read asks for. */
  const StatusMax: nat := 1020
  const Exiting: string := " <exiting>"

  /** What open(2) and one read(2) of a file give. */
  datatype Read = OpenFailed | ReadFailed | Got(data: seq<char>)

  /** A C int. */
  predicate Int32(n: int) {
    -0x8000_0000 <= n < 0x8000_0000
  }

  /** The bytes one read(2) of at most n bytes returns from a file holding s. */
  function Take(s: seq<char>, n: nat): (r: seq<char>)
    ensures |r| <= n && |r| <= |s| && r == s[..|r|]
    ensures |s| <= n ==> r == s
    ensures |s| > n ==> |r| == n
  {
    if |s| <= n then s else s[..n]
  }

  /** b with s stored from index at on. */
  function Put(b: seq<char>, at: nat, s: seq<char>): (r: seq<char>)
    requires at + |s| <= |b|
    ensures |r| == |b|
  {
    seq(|b|, i requires 0 <= i < |b| => if at <= i < at + |s| then s[i - at] else b[i])
  }

  /** sprintf(buf, ...) producing s: s and its NUL at the front of b. */
  function Sprintf(b: seq<char>, s: string): (r: seq<char>)
    requires |s| < |b|
    ensures |r| == |b|
  {
    Put(b, 0, s + [NUL])
  }

  function CmdlinePath(pid: int): string {
    "/proc/" + Decimal(pid) + "/cmdline"
  }

  function StatusPath(pid: int): string {
    "/proc/" + Decimal(pid) + "/status"
  }

  /** "%06d ". */
  function Prefix(pid: int): string {
    Pad6(pid) + " "
  }

  lemma {:induction false} Pow10Ten()
    ensures Pow10(10) == 10000000000
  {
  }

  /** How wide the strings are that sprintf(3) writes for a C int. */
  lemma {:induction false} Widths(pid: int)
    requires Int32(pid)
    ensures |CmdlinePath(pid)| <= 25 && |StatusPath(pid)| <= 24
    ensures 7 <= |Prefix(pid)| <= 12 && |Pad6(pid) + Exiting| <= 21
  {
    var m: nat := if pid < 0 then -pid else pid;
    Pow10Ten();
    DigitsLength(m, 10);
  }

  /**
   * The largest index in 1..j of d that holds a non-NUL byte, or 0: where
   * the first backward loop of the command line branch stops.
   */
  function LastMark(d: seq<char>, j: nat): (m: nat)
    requires j < |d|
    ensures m <= j && (m > 0 ==> d[m] != NUL)
    ensures forall i :: m < i <= j ==> d[i] == NUL
  {
    if j == 0 then 0 else if d[j] != NUL then j else LastMark(d, j - 1)
  }

  /**
   * The k bytes of the command line after both backward loops: the NULs
   * strictly between the first byte and the last non-NUL byte turned into
   * spaces.
   */
  function CmdlineFix(d: seq<char>): (r: seq<char>)
    requires |d| > 0
    ensures |r| == |d|
  {
    var m := LastMark(d, |d| - 1);
    seq(|d|, i requires 0 <= i < |d| => if 1 <= i < m && d[i] == NUL then ' ' else d[i])
  }

  /**
   * The command line branch: the cmdline path, then (if it opens) "%06d "
   * and the bytes read from index 7 on with a NUL after them; and `k`, the
   * read's result (0 when the open fails).
   */
  function CmdlineStage(pid: int, cmd: Read, b: seq<char>): (r: (seq<char>, int))
    requires Int32(pid) && |b| == BufSize
    ensures |r.0| == BufSize
  {
    Widths(pid);
    var b1 := Sprintf(b, CmdlinePath(pid));
    match cmd
    case OpenFailed => (b1, 0)
    case ReadFailed => (Sprintf(b1, Prefix(pid)), -1)
    case Got(c) =>
      var b2 := Sprintf(b1, Prefix(pid));
      var d := Take(c, CmdlineMax);
      if d == [] then (b2, 0) else (Put(b2, 7, CmdlineFix(d) + [NUL]), |d|)
  }

  /** strchr(b + from, '\n') over the buffer: the first newline or NUL from `from` on. */
  function StopAt(b: seq<char>, from: nat): (r: Option<nat>)
    requires from <= |b|
    ensures r.Some? ==> from <= r.value < |b| && (b[r.value] == NUL || b[r.value] == '\n')
    ensures r.Some? ==> forall i :: from <= i < r.value ==> b[i] != NUL && b[i] != '\n'
    ensures r.None? ==> forall i :: from <= i < |b| ==> b[i] != NUL && b[i] != '\n'
    decreases |b| - from
  {
    if from == |b| then None
    else if b[from] == NUL || b[from] == '\n' then Some(from)
    else StopAt(b, from + 1)
  }

  /**
   * The status branch: the status path, then (if it opens) the bytes read
   * from index 2 on, ")" and a NUL at the first newline (or, when strchr(3)
   * meets a NUL first, at index k), "%06d " over the front and "(" over its
   * NUL; and the read's result.
   */
  function StatusStage(pid: int, st: Read, b: seq<char>): (r: Option<(seq<char>, int)>)
    requires Int32(pid) && |b| == BufSize
    ensures r.Some? ==> |r.value.0| == BufSize
  {
    Widths(pid);
    var b1 := Sprintf(b, StatusPath(pid));
    match st
    case OpenFailed => Some((b1, 0))
    case ReadFailed => Some((b1, -1))
    case Got(c) =>
      var d := Take(c, StatusMax);
      if d == [] then Some((b1, 0))
      else
        var b2 := NameStage(pid, Put(b1, 2, d), |d|);
        if b2.None? then None else Some((b2.value, |d|))
  }

  /**
   * The status branch after a read of k > 0 bytes: ")" and a NUL at the
   * first newline (or at index k when strchr(3) meets a NUL first), then
   * "%06d " over the front and "(" over its NUL.
   */
  function NameStage(pid: int, b: seq<char>, k: nat): (r: Option<seq<char>>)
    requires Int32(pid) && |b| == BufSize && 2 <= BufSize
    ensures r.Some? ==> |r.value| == BufSize
  {
    Widths(pid);
    match StopAt(b, 2)
    case None => None
    case Some(q) =>
      var p := if b[q] == '\n' then q else k;
      if p + 2 > BufSize then None
      else
        var pre := Prefix(pid);
        var b3 := Sprintf(Put(b, p, [')', NUL]), pre);
        Some(b3[|pre| := '('])
  }

  /** The buffer after the whole ladder; None where strchr(3) would run off it. */
  function LabelBuffer(pid: int, cmd: Read, st: Read, b: seq<char>): (r: Option<seq<char>>)
    requires Int32(pid) && |b| == BufSize
    ensures r.Some? ==> |r.value| == BufSize
  {
    Widths(pid);
    var (b1, k) := CmdlineStage(pid, cmd, b);
    var s := if k == 0 then StatusStage(pid, st, b1) else Some((b1, k));
    if s.None? then None
    else if s.value.1 <= 0 then Some(Sprintf(s.value.0, Pad6(pid) + Exiting))
    else Some(s.value.0)
  }

  /** The label strdup(3) copies; None where it or strchr(3) would run off the buffer. */
  function LabelOf(pid: int, cmd: Read, st: Read, b: seq<char>): Option<string>
    requires Int32(pid) && |b| == BufSize
  {
    var f := LabelBuffer(pid, cmd, st, b);
    if f.Some? && NUL in f.value then Some(CStr(f.value)) else None
  }

  // ---------------------------------------------------------------------
  // The buffer operations

  /** memcpy(3)/sprintf(3) of s into buf at index at. */
  method Store(buf: array<char>, at: nat, s: seq<char>)
    requires at + |s| <= buf.Length
    modifies buf
    ensures buf[..] == Put(old(buf[..]), at, s)
  {
    var j := 0;
    while j < |s|
      invariant 0 <= j <= |s|
      invariant forall i :: 0 <= i < buf.Length ==> buf[i] == if at <= i < at + j then s[i - at] else old(buf[i])
    {
      buf[at + j] := s[j];
      j := j + 1;
    }
    assert forall i :: 0 <= i < buf.Length ==> buf[..][i] == Put(old(buf[..]), at, s)[i];
  }

  /** Both backward loops of the command line branch over the k bytes at index 7. */
  method FixCmdline(buf: array<char>, k: nat)
    requires buf.Length == BufSize && 1 <= k <= CmdlineMax
    modifies buf
    ensures buf[..] == Put(old(buf[..]), 7, CmdlineFix(old(buf[7..7 + k])))
  {
    ghost var d := buf[7..7 + k];
    ghost var m := LastMark(d, k - 1);
    var p := 6 + k;
    // skip trailing NULs
    while 7 < p
      invariant 7 <= p <= 6 + k
      invariant LastMark(d, p - 7) == m
      invariant buf[..] == old(buf[..])
    {
      var ch := buf[p];
      p := p - 1;
      if ch != NUL {
        assert d[p + 1 - 7] == ch;
        break;
      }
    }
    assert p == 7 + if m > 0 then m - 1 else 0;
    ghost var top := p;
    // turn the NULs before it into spaces
    while 7 < p
      invariant 7 <= p <= top
      invariant forall i :: 0 <= i < buf.Length ==>
        buf[i] == if p < i <= top && old(buf[i]) == NUL then ' ' else old(buf[i])
    {
      if buf[p] == NUL {
        buf[p] := ' ';
      }
      p := p - 1;
    }
    ghost var x := CmdlineFix(d);
    forall i | 0 <= i < buf.Length ensures buf[..][i] == Put(old(buf[..]), 7, x)[i] {
      if 7 <= i < 7 + k {
        assert old(buf[i]) == d[i - 7];
      }
    }
  }

  /** strchr(buf + from, '\n'), bounded by the buffer. */
  method Strchr(buf: array<char>, from: nat) returns (r: Option<nat>)
    requires from <= buf.Length
    ensures r == StopAt(buf[..], from)
  {
    var q := from;
    while q < buf.Length && buf[q] != NUL && buf[q] != '\n'
      invariant from <= q <= buf.Length
      invariant StopAt(buf[..], from) == StopAt(buf[..], q)
    {
      q := q + 1;
    }
    r := if q == buf.Length then None else Some(q);
  }

  /** strdup(3) of the C string at the front of buf. */
  method Strdup(buf: array<char>) returns (s: string)
    requires NUL in buf[..]
    ensures s == CStr(buf[..])
  {
    var n := 0;
    while buf[n] != NUL
      invariant n < buf.Length && NUL in buf[n..]
      invariant forall i :: 0 <= i < n ==> buf[i] != NUL
      decreases buf.Length - n
    {
      assert buf[n..][0] != NUL;
      assert NUL in buf[n + 1..] by {
        assert buf[n..] == [buf[n]] + buf[n + 1..];
      }
      n := n + 1;
    }
    assert buf[..][..n] == buf[..n];
    CStrIs(buf[..], n);
    s := buf[..n];
  }

  /** read(fd, buf + 7, ...) of k > 0 bytes, the NUL after them and both backward loops. */
  method StoreCmdline(buf: array<char>, d: seq<char>)
    requires buf.Length == BufSize && 0 < |d| <= CmdlineMax
    modifies buf
    ensures buf[..] == Put(old(buf[..]), 7, CmdlineFix(d) + [NUL])
  {
    ghost var b := buf[..];
    var k := |d|;
    Store(buf, 7, d);
    buf[7 + k] := NUL;
    assert buf[7..7 + k] == d;
    FixCmdline(buf, k);
    assert buf[..] == Put(b, 7, CmdlineFix(d) + [NUL]);
  }

  /** The command line branch on the buffer. */
  method CmdlineRead(pid: int, cmd: Read, buf: array<char>) returns (k: int)
    requires Int32(pid) && buf.Length == BufSize
    modifies buf
    ensures (buf[..], k) == CmdlineStage(pid, cmd, old(buf[..]))
  {
    Widths(pid);
    ghost var b := buf[..];
    Store(buf, 0, CmdlinePath(pid) + [NUL]);
    ghost var b1 := buf[..];
    assert b1 == Sprintf(b, CmdlinePath(pid));
    k := 0;
    if !cmd.OpenFailed? {
      Store(buf, 0, Prefix(pid) + [NUL]);
      ghost var b2 := buf[..];
      assert b2 == Sprintf(b1, Prefix(pid));
      if cmd.ReadFailed? {
        k := -1;
      } else {
        var d := Take(cmd.data, CmdlineMax);
        k := |d|;
        if k > 0 {
          StoreCmdline(buf, d);
        }
      }
    }
  }

  /** The status branch on the buffer. */
  method StatusRead(pid: int, st: Read, buf: array<char>) returns (k: int)
    requires Int32(pid) && buf.Length == BufSize
    requires StatusStage(pid, st, buf[..]).Some?
    modifies buf
    ensures Some((buf[..], k)) == StatusStage(pid, st, old(buf[..]))
  {
    Widths(pid);
    ghost var b := buf[..];
    Store(buf, 0, StatusPath(pid) + [NUL]);
    ghost var b1 := buf[..];
    assert b1 == Sprintf(b, StatusPath(pid));
    k := 0;
    if !st.OpenFailed? {
      if st.ReadFailed? {
        k := -1;
      } else {
        var d := Take(st.data, StatusMax);
        Store(buf, 2, d);
        ghost var b2 := buf[..];
        assert b2 == Put(b1, 2, d);
        k := |d|;
        if k > 0 {
          NameClose(pid, buf, k);
        } else {
          assert d == [];
          assert b2 == b1;
        }
      }
    }
  }

  /** The status branch after a read of k > 0 bytes, on the buffer. */
  method NameClose(pid: int, buf: array<char>, k: nat)
    requires Int32(pid) && buf.Length == BufSize
    requires NameStage(pid, buf[..], k).Some?
    modifies buf
    ensures Some(buf[..]) == NameStage(pid, old(buf[..]), k)
  {
    Widths(pid);
    ghost var b := buf[..];
    var q := Strchr(buf, 2);
    var p := if buf[q.value] == '\n' then q.value else k;
    buf[p] := ')';
    buf[p + 1] := NUL;
    assert buf[..] == Put(b, p, [')', NUL]);
    var pre := Prefix(pid);
    ghost var b3 := buf[..];
    Store(buf, 0, pre + [NUL]);
    assert buf[..] == Sprintf(b3, pre);
    buf[|pre|] := '(';
    assert buf[..] == Sprintf(b3, pre)[|pre| := '('];
  }

  /**
   * The label ladder on the shared buffer: the name strdup(3) copies, and
   * the buffer left for the next pid.
   */
  method BuildLabel(pid: int, cmd: Read, st: Read, buf: array<char>) returns (name: string)
    requires Int32(pid) && buf.Length == BufSize
    requires LabelOf(pid, cmd, st, buf[..]).Some?
    modifies buf
    ensures Some(name) == LabelOf(pid, cmd, st, old(buf[..]))
    ensures Some(buf[..]) == LabelBuffer(pid, cmd, st, old(buf[..]))
  {
    Widths(pid);
    ghost var b := buf[..];
    var k := CmdlineRead(pid, cmd, buf);
    if k == 0 {
      k := StatusRead(pid, st, buf);
    }
    if k <= 0 {
      Store(buf, 0, Pad6(pid) + Exiting + [NUL]);
    }
    assert Some(buf[..]) == LabelBuffer(pid, cmd, st, b);
    name := Strdup(buf);
  }
}
