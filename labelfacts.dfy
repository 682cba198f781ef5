/**
 * What the label ladder produces, case by case: the command line with its
 * NULs handled, the status name in parentheses, and the exiting sentinel.
 * None of these depends on what the shared buffer held before.
 */
module LabelFacts {
  import opened CString
  import opened Label
  import Cgroup

  /** A byte string without its trailing NULs. */
  function TrimNuls(d: seq<char>): (r: seq<char>)
    ensures |r| <= |d| && r == d[..|r|]
    ensures r != [] ==> r[|r| - 1] != NUL
    ensures forall i :: |r| <= i < |d| ==> d[i] == NUL
  {
    if d != [] && d[|d| - 1] == NUL then TrimNuls(d[..|d| - 1]) else d
  }

  /** Each NUL turned into a space. */
  function SpaceNuls(s: seq<char>): (r: string)
    ensures |r| == |s| && NoNul(r)
  {
    seq(|s|, i requires 0 <= i < |s| => if s[i] == NUL then ' ' else s[i])
  }

  /** The command line is missing or empty, so the ladder goes on to the status file. */
  predicate CmdlineEmpty(cmd: Read) {
    cmd.OpenFailed? || (cmd.Got? && cmd.data == [])
  }

  /** The status file gives nothing to name the process by. */
  predicate StatusEmpty(st: Read) {
    st.OpenFailed? || st.ReadFailed? || (st.Got? && st.data == [])
  }

  /** "%06d " and "%06d <exiting>" hold no NUL. */
  lemma {:induction false} PrefixPlain(pid: int)
    ensures NoNul(Prefix(pid)) && NoNul(Pad6(pid) + Exiting)
  {
    var p := Pad6(pid);
    forall i | 0 <= i < |p| + 1 ensures Prefix(pid)[i] != NUL {
      if i < |p| {
        assert Prefix(pid)[i] == p[i];
      }
    }
    forall i | 0 <= i < |p| + |Exiting| ensures (p + Exiting)[i] != NUL {
      if i < |p| {
        assert (p + Exiting)[i] == p[i];
      }
    }
  }

  /** The status path holds neither a NUL nor a newline. */
  lemma {:induction false} StatusPathPlain(pid: int)
    ensures NoNul(StatusPath(pid)) && Cgroup.OneLine(StatusPath(pid))
  {
    var s := StatusPath(pid);
    var dec := Decimal(pid);
    forall i | 0 <= i < |dec| ensures dec[i] != '\n' {
      if pid < 0 && i > 0 {
        assert dec[i] == Digits(-pid)[i - 1];
      } else if pid >= 0 {
        assert IsDigit(dec[i]);
      }
    }
    forall i | 0 <= i < |s| ensures s[i] != NUL && s[i] != '\n' {
      if 6 <= i < 6 + |dec| {
        assert s[i] == dec[i - 6];
      }
    }
  }

  // ---------------------------------------------------------------------
  // From the final buffer to the label

  /** Once the final buffer holds a NUL, the label is its C string. */
  lemma {:induction false} LabelOfBuffer(pid: int, cmd: Read, st: Read, b: seq<char>, f: seq<char>, n: nat)
    requires Int32(pid) && |b| == BufSize
    requires LabelBuffer(pid, cmd, st, b) == Some(f)
    requires n < |f| && f[n] == NUL
    ensures LabelOf(pid, cmd, st, b) == Some(CStr(f))
  {
    assert f[n] in f;
  }

  /** sprintf(3) of s leaves s as the C string at the front of the buffer. */
  lemma {:induction false} CStrOfSprintf(b: seq<char>, s: string)
    requires |s| < |b| && NoNul(s)
    ensures CStr(Sprintf(b, s)) == s
  {
    var f := Sprintf(b, s);
    assert f[..|s|] == s;
    assert f[|s|] == NUL;
    CStrIs(f, |s|);
  }

  /** A buffer that holds the bytes of want and then a NUL has want as its C string. */
  lemma {:induction false} CStrOfText(f: seq<char>, want: string)
    requires |want| < |f| && f[|want|] == NUL && NoNul(want)
    requires forall i :: 0 <= i < |want| ==> f[i] == want[i]
    ensures CStr(f) == want
  {
    assert f[..|want|] == want;
    CStrIs(f, |want|);
  }

  // ---------------------------------------------------------------------
  // The command line branch

  /** How long a byte string is without its trailing NULs, as the first loop finds it. */
  lemma {:induction false} TrimNulsLength(d: seq<char>)
    requires |d| > 0 && d[0] != NUL
    ensures |TrimNuls(d)| == LastMark(d, |d| - 1) + 1
  {
  }

  /**
   * The text of the command line after both loops: the arguments with
   * trailing NULs dropped and the NULs between them turned into spaces;
   * nothing at all when the command line starts with a NUL.
   */
  lemma {:induction false} CmdlineText(d: seq<char>)
    requires |d| > 0
    ensures d[0] != NUL ==> CStr(CmdlineFix(d)) == SpaceNuls(TrimNuls(d))
    ensures d[0] == NUL ==> CStr(CmdlineFix(d)) == []
  {
    var x := CmdlineFix(d);
    if d[0] == NUL {
      assert x[0] == NUL;
      CStrIs(x, 0);
    } else {
      CmdlineTextNamed(d);
    }
  }

  /** The case of CmdlineText where the command line does not start with a NUL. */
  lemma {:induction false} CmdlineTextNamed(d: seq<char>)
    requires |d| > 0 && d[0] != NUL
    ensures CStr(CmdlineFix(d)) == SpaceNuls(TrimNuls(d))
  {
    var m := LastMark(d, |d| - 1);
    var x := CmdlineFix(d);
    var s := SpaceNuls(TrimNuls(d));
    CmdlineFixFront(d, m, x, s);
    CStrIs(x, m + 1);
  }

  /** Up to the last non-NUL byte m the fixed command line x is the spaced text s; a NUL follows it. */
  lemma {:induction false} CmdlineFixFront(d: seq<char>, m: nat, x: seq<char>, s: string)
    requires |d| > 0 && d[0] != NUL
    requires m == LastMark(d, |d| - 1) && x == CmdlineFix(d) && s == SpaceNuls(TrimNuls(d))
    ensures m + 1 <= |x| && x[..m + 1] == s
    ensures m + 1 < |x| ==> x[m + 1] == NUL
  {
    var t := TrimNuls(d);
    TrimNulsLength(d);
    assert |t| == m + 1;
    forall i | 0 <= i < m + 1 ensures x[i] == s[i] {
      assert t[i] == d[i];
      if i == 0 || i == m {
        assert d[i] != NUL;
      }
    }
    assert x[..m + 1] == s;
  }

  /** A command line read of k > 0 bytes settles the ladder in its first branch. */
  lemma {:induction false} CmdlineBuffer(pid: int, c: seq<char>, st: Read, b: seq<char>)
    requires Int32(pid) && |b| == BufSize
    requires Take(c, CmdlineMax) != []
    ensures |CmdlinePath(pid)| < BufSize && |Prefix(pid)| < BufSize
    ensures LabelBuffer(pid, Got(c), st, b) ==
      Some(Put(Sprintf(Sprintf(b, CmdlinePath(pid)), Prefix(pid)), 7, CmdlineFix(Take(c, CmdlineMax)) + [NUL]))
  {
    Widths(pid);
  }

  /** The C string after "%06d " is written and x is stored at index 7: seven bytes of it, then x's. */
  lemma {:induction false} CmdlineCStr(b: seq<char>, pre: string, x: seq<char>)
    requires 7 <= |pre| < |b| && NoNul(pre) && 7 + |x| < |b|
    ensures CStr(Put(Sprintf(b, pre), 7, x + [NUL])) == pre[..7] + CStr(x)
  {
    var g := Sprintf(b, pre);
    CmdlineParts(b, pre, x);
    NoNulPrefix(pre, 7);
    CStrOfParts(Put(g, 7, x + [NUL]), pre[..7], x, g[8 + |x|..]);
  }

  /** The buffer after the command line branch, in three parts. */
  lemma {:induction false} CmdlineParts(b: seq<char>, pre: string, x: seq<char>)
    requires 7 <= |pre| < |b| && 7 + |x| < |b|
    ensures Put(Sprintf(b, pre), 7, x + [NUL]) == pre[..7] + (x + [NUL] + Sprintf(b, pre)[8 + |x|..])
  {
    var g := Sprintf(b, pre);
    assert g[..7] == pre[..7] by {
      PutSplit(b, 0, pre + [NUL]);
    }
    PutSplit(g, 7, x + [NUL]);
  }

  lemma {:induction false} NoNulPrefix(s: seq<char>, n: nat)
    requires NoNul(s) && n <= |s|
    ensures NoNul(s[..n])
  {
    forall i | 0 <= i < n ensures s[..n][i] != NUL {
      assert s[..n][i] == s[i];
    }
  }

  /** The C string of a NUL-free a, x, a NUL and anything: a and the C string of x. */
  lemma {:induction false} CStrOfParts(f: seq<char>, a: seq<char>, x: seq<char>, r: seq<char>)
    requires NoNul(a) && f == a + (x + [NUL] + r)
    ensures CStr(f) == a + CStr(x)
  {
    CStrAppend(a, x + [NUL] + r);
    CStrNulAfter(x, r);
  }

  /** Storing s at index at: the bytes before, s, and the bytes after. */
  lemma {:induction false} PutSplit(b: seq<char>, at: nat, s: seq<char>)
    requires at + |s| <= |b|
    ensures Put(b, at, s) == b[..at] + s + b[at + |s|..]
  {
  }

  /** A command line read of k > 0 bytes labels the pid with the first seven bytes of "%06d " and its text. */
  lemma {:induction false} CmdlineLabel(pid: int, c: seq<char>, st: Read, b: seq<char>)
    requires Int32(pid) && |b| == BufSize
    requires Take(c, CmdlineMax) != []
    ensures LabelOf(pid, Got(c), st, b) == Some(Prefix(pid)[..7] + CStr(CmdlineFix(Take(c, CmdlineMax))))
  {
    CmdlineBuffer(pid, c, st, b);
    PrefixPlain(pid);
    Widths(pid);
    var d := Take(c, CmdlineMax);
    var b1 := Sprintf(b, CmdlinePath(pid));
    var f := Put(Sprintf(b1, Prefix(pid)), 7, CmdlineFix(d) + [NUL]);
    assert f[7 + |d|] == NUL;
    LabelOfBuffer(pid, Got(c), st, b, f, 7 + |d|);
    CmdlineCStr(b1, Prefix(pid), CmdlineFix(d));
  }

  /**
   * The label of a non-empty command line that starts with an argument:
   * "%06d " and the arguments separated by spaces, for pids below a million.
   */
  lemma {:induction false} CmdlineName(pid: int, c: seq<char>, st: Read, b: seq<char>)
    requires 0 <= pid < 1000000 && |b| == BufSize
    requires Take(c, CmdlineMax) != [] && c[0] != NUL
    ensures LabelOf(pid, Got(c), st, b) == Some(Pad6(pid) + " " + SpaceNuls(TrimNuls(Take(c, CmdlineMax))))
  {
    CmdlineLabel(pid, c, st, b);
    assert Take(c, CmdlineMax)[0] == c[0];
    CmdlineText(Take(c, CmdlineMax));
    Pad6Width(pid);
    assert Prefix(pid)[..7] == Prefix(pid);
  }

  /** A command line that starts with a NUL labels the pid with "%06d " alone. */
  lemma {:induction false} CmdlineLeadingNul(pid: int, c: seq<char>, st: Read, b: seq<char>)
    requires 0 <= pid < 1000000 && |b| == BufSize
    requires Take(c, CmdlineMax) != [] && c[0] == NUL
    ensures LabelOf(pid, Got(c), st, b) == Some(Pad6(pid) + " ")
  {
    CmdlineLabel(pid, c, st, b);
    assert Take(c, CmdlineMax)[0] == c[0];
    CmdlineText(Take(c, CmdlineMax));
    Pad6Width(pid);
    assert Prefix(pid)[..7] + [] == Pad6(pid) + " ";
  }

  /**
   * A seven-digit pid fills all seven bytes before the command line, so
   * its label has no space between the pid and the command.
   */
  lemma {:induction false} SevenDigitPid(pid: int, c: seq<char>, st: Read, b: seq<char>)
    requires 1000000 <= pid < 10000000 && |b| == BufSize
    requires Take(c, CmdlineMax) != []
    ensures LabelOf(pid, Got(c), st, b) == Some(Pad6(pid) + CStr(CmdlineFix(Take(c, CmdlineMax))))
  {
    CmdlineLabel(pid, c, st, b);
    Pad6Seven(pid);
    assert Prefix(pid)[..7] == Pad6(pid);
  }

  // ---------------------------------------------------------------------
  // The status branch

  /** strchr(3) stops at the first newline or NUL. */
  lemma {:induction false} StopAtIs(b: seq<char>, from: nat, q: nat)
    requires from <= q < |b| && (b[q] == NUL || b[q] == '\n')
    requires forall i :: from <= i < q ==> b[i] != NUL && b[i] != '\n'
    ensures StopAt(b, from) == Some(q)
  {
  }

  /** With no command line, a status read of k > 0 bytes goes on to close the name. */
  lemma {:induction false} StatusBuffer(pid: int, cmd: Read, c: seq<char>, b: seq<char>)
    requires Int32(pid) && |b| == BufSize
    requires CmdlineEmpty(cmd) && Take(c, StatusMax) != []
    ensures |StatusPath(pid)| < BufSize
    ensures CmdlineStage(pid, cmd, b).1 == 0
    ensures LabelBuffer(pid, cmd, Got(c), b) ==
      NameStage(pid, Put(Sprintf(CmdlineStage(pid, cmd, b).0, StatusPath(pid)), 2, Take(c, StatusMax)), |Take(c, StatusMax)|)
  {
    Widths(pid);
  }

  /**
   * Closing the name with ")" at index p: the C string is "%06d (", the
   * buffer's bytes from index 8 up to p, and ")".
   */
  lemma {:induction false} ClosedName(pid: int, b: seq<char>, k: nat, q: nat, p: nat)
    requires 0 <= pid < 1000000 && |b| == BufSize
    requires StopAt(b, 2) == Some(q) && p == (if b[q] == '\n' then q else k)
    requires 8 <= p && p + 2 <= BufSize && NoNul(b[8..p])
    ensures NameStage(pid, b, k).Some? && NameStage(pid, b, k).value[p + 1] == NUL
    ensures CStr(NameStage(pid, b, k).value) == Pad6(pid) + " (" + b[8..p] + ")"
  {
    Widths(pid);
    Pad6Width(pid);
    var f := Sprintf(Put(b, p, [')', NUL]), Prefix(pid))[7 := '('];
    assert NameStage(pid, b, k) == Some(f);
    var want := Pad6(pid) + " (" + b[8..p] + ")";
    ClosedParts(pid, b, p);
    assert f[p + 1] == NUL by {
      assert f == want + [NUL] + b[p + 2..];
      assert |want| == p + 1;
    }
    Cgroup.NoNulConcat(Pad6(pid) + " (", b[8..p]);
    Cgroup.NoNulConcat(Pad6(pid) + " (" + b[8..p], ")");
    CStrStopsAtNul(want, b[p + 2..]);
  }

  /** The buffer after the name is closed at p, in parts. */
  lemma {:induction false} ClosedParts(pid: int, b: seq<char>, p: nat)
    requires 0 <= pid < 1000000 && |b| == BufSize && 8 <= p && p + 2 <= BufSize
    ensures |Prefix(pid)| == 7
    ensures Sprintf(Put(b, p, [')', NUL]), Prefix(pid))[7 := '(']
      == Pad6(pid) + " (" + b[8..p] + ")" + [NUL] + b[p + 2..]
  {
    Pad6Width(pid);
    var pre := Prefix(pid);
    var g := Put(b, p, [')', NUL]);
    assert g[8..] == b[8..p] + (")" + [NUL]) + b[p + 2..] by {
      PutSplit(b, p, [')', NUL]);
      assert [')', NUL] == ")" + [NUL];
    }
    var h := Sprintf(g, pre);
    assert h == pre + [NUL] + g[8..] by {
      PutSplit(g, 0, pre + [NUL]);
    }
    NulToParen(pre, g[8..]);
    assert pre + "(" == Pad6(pid) + " (";
    SeqAssoc5(Pad6(pid) + " (", b[8..p], ")", [NUL], b[p + 2..]);
  }

  /** Storing '(' over the NUL just after a seven-byte prefix. */
  lemma {:induction false} NulToParen(pre: string, tail: seq<char>)
    requires |pre| == 7
    ensures (pre + [NUL] + tail)[7 := '('] == pre + "(" + tail
  {
  }

  /** Regrouping a concatenation of five parts. */
  lemma {:induction false} SeqAssoc5(a: seq<char>, b: seq<char>, c: seq<char>, d: seq<char>, e: seq<char>)
    ensures a + (b + (c + d) + e) == a + b + c + d + e
  {
  }

  /** A newline-ended name six bytes into the status data, closed in any buffer. */
  lemma {:induction false} NamedLine(pid: int, b1: seq<char>, d: seq<char>, h: string, name: string, rest: string)
    requires 0 <= pid < 1000000 && |b1| == BufSize && |d| <= StatusMax
    requires d == h + name + "\n" + rest
    requires |h| == 6 && NoNul(h) && Cgroup.OneLine(h)
    requires NoNul(name) && Cgroup.OneLine(name)
    ensures NameStage(pid, Put(b1, 2, d), |d|).Some?
    ensures NameStage(pid, Put(b1, 2, d), |d|).value[9 + |name|] == NUL
    ensures CStr(NameStage(pid, Put(b1, 2, d), |d|).value) == Pad6(pid) + " (" + name + ")"
  {
    var b2 := Put(b1, 2, d);
    var q := 8 + |name|;
    assert b2[q] == '\n' by {
      assert b2[q] == d[6 + |name|];
    }
    forall i | 2 <= i < q ensures b2[i] != NUL && b2[i] != '\n' {
      if i < 8 {
        assert b2[i] == d[i - 2] == h[i - 2];
      } else {
        assert b2[i] == d[i - 2] == name[i - 8];
      }
    }
    StopAtIs(b2, 2, q);
    assert b2[8..q] == name by {
      forall i | 8 <= i < q ensures b2[i] == name[i - 8] {
        assert b2[i] == d[i - 2];
      }
    }
    ClosedName(pid, b2, |d|, q, q);
  }

  /**
   * A status file whose first line is six bytes (as in "Name:\t") and then
   * a name, ended by a newline, labels the pid "%06d (name)".
   */
  lemma {:induction false} StatusName(pid: int, cmd: Read, c: seq<char>, b: seq<char>, h: string, name: string, rest: string)
    requires 0 <= pid < 1000000 && |b| == BufSize
    requires CmdlineEmpty(cmd)
    requires Take(c, StatusMax) == h + name + "\n" + rest
    requires |h| == 6 && NoNul(h) && Cgroup.OneLine(h)
    requires NoNul(name) && Cgroup.OneLine(name)
    ensures LabelOf(pid, cmd, Got(c), b) == Some(Pad6(pid) + " (" + name + ")")
  {
    var d := Take(c, StatusMax);
    StatusBuffer(pid, cmd, c, b);
    var b1 := Sprintf(CmdlineStage(pid, cmd, b).0, StatusPath(pid));
    NamedLine(pid, b1, d, h, name, rest);
    LabelOfBuffer(pid, cmd, Got(c), b, NameStage(pid, Put(b1, 2, d), |d|).value, 9 + |name|);
  }

  /** 8 to 12 bytes of status data without a newline, read over the status path. */
  lemma {:induction false} ShortStatus(pid: int, b0: seq<char>, d: seq<char>)
    requires 0 <= pid < 1000000 && |b0| == BufSize
    requires 8 <= |d| <= 12 && NoNul(d) && Cgroup.OneLine(d)
    ensures |StatusPath(pid)| < BufSize
    ensures NameStage(pid, Put(Sprintf(b0, StatusPath(pid)), 2, d), |d|).Some?
    ensures NameStage(pid, Put(Sprintf(b0, StatusPath(pid)), 2, d), |d|).value[|d| + 1] == NUL
    ensures CStr(NameStage(pid, Put(Sprintf(b0, StatusPath(pid)), 2, d), |d|).value)
      == Pad6(pid) + " (" + d[6..|d| - 2] + ")"
  {
    Widths(pid);
    StatusPathPlain(pid);
    var k := |d|;
    var path := StatusPath(pid);
    var b1 := Sprintf(b0, path);
    var b2 := Put(b1, 2, d);
    var q := |path|;
    assert b2[q] == b1[q] == NUL;
    forall i | 2 <= i < q ensures b2[i] != NUL && b2[i] != '\n' {
      if i < 2 + k {
        assert b2[i] == d[i - 2];
      } else {
        assert b2[i] == b1[i] == path[i];
      }
    }
    StopAtIs(b2, 2, q);
    assert b2[8..k] == d[6..k - 2] by {
      forall i | 8 <= i < k ensures b2[i] == d[i - 2] {
      }
    }
    ClosedName(pid, b2, k, q, k);
  }

  /**
   * A short status file with no newline (8 to 12 bytes): strchr(3) runs
   * into the NUL of the status path left in the buffer, the ")" goes at
   * index k rather than after the name, and the name loses its last two
   * bytes.
   */
  lemma {:induction false} StatusNoNewline(pid: int, cmd: Read, c: seq<char>, b: seq<char>)
    requires 0 <= pid < 1000000 && |b| == BufSize
    requires CmdlineEmpty(cmd)
    requires 8 <= |Take(c, StatusMax)| <= 12
    requires NoNul(Take(c, StatusMax)) && Cgroup.OneLine(Take(c, StatusMax))
    ensures var d := Take(c, StatusMax);
      LabelOf(pid, cmd, Got(c), b) == Some(Pad6(pid) + " (" + d[6..|d| - 2] + ")")
  {
    var d := Take(c, StatusMax);
    StatusBuffer(pid, cmd, c, b);
    var b0 := CmdlineStage(pid, cmd, b).0;
    ShortStatus(pid, b0, d);
    LabelOfBuffer(pid, cmd, Got(c), b, NameStage(pid, Put(Sprintf(b0, StatusPath(pid)), 2, d), |d|).value, |d| + 1);
  }

  // ---------------------------------------------------------------------
  // The exiting sentinel

  /** A failed command line read labels the pid "%06d <exiting>". */
  lemma {:induction false} ExitingOnReadError(pid: int, st: Read, b: seq<char>)
    requires Int32(pid) && |b| == BufSize
    ensures LabelOf(pid, ReadFailed, st, b) == Some(Pad6(pid) + Exiting)
  {
    Widths(pid);
    PrefixPlain(pid);
    var s := Pad6(pid) + Exiting;
    var b1 := CmdlineStage(pid, ReadFailed, b).0;
    assert CmdlineStage(pid, ReadFailed, b).1 == -1;
    var f := Sprintf(b1, s);
    assert LabelBuffer(pid, ReadFailed, st, b) == Some(f);
    assert f[|s|] == NUL;
    LabelOfBuffer(pid, ReadFailed, st, b, f, |s|);
    CStrOfSprintf(b1, s);
  }

  /** An empty or missing command line reaches the status branch with k == 0. */
  lemma {:induction false} CmdlineStageEmpty(pid: int, cmd: Read, b: seq<char>)
    requires Int32(pid) && |b| == BufSize && CmdlineEmpty(cmd)
    ensures CmdlineStage(pid, cmd, b).1 == 0
  {
  }

  /** A status file that fails or is empty leaves k <= 0. */
  lemma {:induction false} StatusStageEmpty(pid: int, st: Read, b: seq<char>)
    requires Int32(pid) && |b| == BufSize && StatusEmpty(st)
    ensures StatusStage(pid, st, b).Some? && StatusStage(pid, st, b).value.1 <= 0
  {
  }

  /** No command line and nothing from the status file labels the pid "%06d <exiting>". */
  lemma {:induction false} ExitingOnNoName(pid: int, cmd: Read, st: Read, b: seq<char>)
    requires Int32(pid) && |b| == BufSize
    requires CmdlineEmpty(cmd) && StatusEmpty(st)
    ensures LabelOf(pid, cmd, st, b) == Some(Pad6(pid) + Exiting)
  {
    Widths(pid);
    PrefixPlain(pid);
    CmdlineStageEmpty(pid, cmd, b);
    var b1 := CmdlineStage(pid, cmd, b).0;
    StatusStageEmpty(pid, st, b1);
    var b2 := StatusStage(pid, st, b1).value.0;
    var s := Pad6(pid) + Exiting;
    var f := Sprintf(b2, s);
    assert LabelBuffer(pid, cmd, st, b) == Some(f);
    assert f[|s|] == NUL;
    LabelOfBuffer(pid, cmd, st, b, f, |s|);
    CStrOfSprintf(b2, s);
  }
}
