/**
 * What the line locators of fetch_proc_pid_status and fetch_proc_pid_io
 * find, stated on the lines of the text: which line each pointer lands on,
 * and that every pointer the status scan sets is the start of a line.
 */
module LineFacts {
  import opened CString
  import opened LineScan
  import Cgroup

  /** The cursor after n more strsep(3) steps from c. */
  function After(t: string, c: Option<nat>, n: nat): (r: Option<nat>)
    requires c.Some? ==> c.value <= |t|
    ensures r.Some? ==> r.value <= |t|
  {
    if n == 0 then c else Next(t, After(t, c, n - 1))
  }

  /** Pointer f is a line of t whose text is l. */
  predicate LineIs(t: string, f: Option<nat>, l: string) {
    f.Some? && f.value <= |t| && t[f.value..LineEnd(t, f.value)] == l
  }

  /**
   * A strsep(3) step from c moves to the start of the next line, and there
   * is no line start in between; it gives NULL exactly on the last line.
   */
  lemma {:induction false} NextIsNextLine(t: string, c: nat)
    requires c <= |t|
    ensures Next(t, Some(c)).Some? <==> LineEnd(t, c) < |t|
    ensures Next(t, Some(c)).Some? ==> Next(t, Some(c)).value == LineEnd(t, c) + 1
    ensures Next(t, Some(c)).Some? ==> LineStart(t, Next(t, Some(c)).value)
    ensures forall k :: c < k <= LineEnd(t, c) ==> !LineStart(t, k)
  {
  }

  /** Steps from a line start stay on line starts. */
  lemma {:induction false} AfterLineStart(t: string, c: Option<nat>, n: nat)
    requires c.Some? ==> c.value <= |t| && LineStart(t, c.value)
    ensures After(t, c, n).Some? ==> LineStart(t, After(t, c, n).value)
  {
    if n > 0 {
      AfterLineStart(t, c, n - 1);
      var p := After(t, c, n - 1);
      if p.Some? {
        NextIsNextLine(t, p.value);
      }
    }
  }

  /** The uid line is the first line from c that starts with "Uid:". */
  lemma {:induction false} UidLineSound(t: string, c: nat)
    requires c <= |t| && LineStart(t, c)
    requires UidLine(t, c).Some?
    ensures LineStart(t, UidLine(t, c).value) && Starts(t, UidLine(t, c).value, UidTag)
    ensures forall s :: c <= s < UidLine(t, c).value && LineStart(t, s) ==> !Starts(t, s, UidTag)
    decreases |t| - c
  {
    if !Starts(t, c, UidTag) {
      NextIsNextLine(t, c);
      UidLineSound(t, Next(t, Some(c)).value);
    }
  }

  /** When a line from c starts with "Uid:", the search finds it or an earlier one. */
  lemma {:induction false} UidLineComplete(t: string, c: nat, u: nat)
    requires c <= u <= |t| && LineStart(t, c)
    requires LineStart(t, u) && Starts(t, u, UidTag)
    ensures UidLine(t, c).Some? && UidLine(t, c).value <= u
    decreases |t| - c
  {
    if !Starts(t, c, UidTag) {
      NextIsNextLine(t, c);
      assert LineEnd(t, c) < u;
      UidLineComplete(t, LineEnd(t, c) + 1, u);
    }
  }

  /** No line starts with both "VmSize:" and "SigPnd:". */
  lemma {:induction false} TagsDiffer(t: string, c: nat)
    requires c <= |t| && Starts(t, c, SigPndTag)
    ensures !Starts(t, c, VmSizeTag)
  {
    assert t[c] == t[c..c + |SigPndTag|][0] == 'S';
  }

  /**
   * The VmSize: block at line i: vmsize there, vmlck on the next line,
   * vmrss on the first of the next three lines that starts with "VmRSS:"
   * (or on the third of them when neither of the first two does), vmdata,
   * vmstk, vmexe and vmlib on the four lines after vmrss, vmswap and
   * threads on the sixth and seventh, and the cursor on the eighth; the
   * other pointers are untouched.
   */
  lemma {:induction false} VmBlockLayout(t: string, i: nat, acc: StatusLines)
    requires i <= |t| && VmBlock(t, i, acc).Some?
    ensures var r := VmBlock(t, i, acc).value.0;
      && r.vmsize == Some(i) && r.vmlck == After(t, Some(i), 1)
      && r.vmrss.Some?
      && (|| (r.vmrss == After(t, Some(i), 2) && Starts(t, r.vmrss.value, VmRssTag))
          || (r.vmrss == After(t, Some(i), 3) && Starts(t, r.vmrss.value, VmRssTag)
              && !Starts(t, After(t, Some(i), 2).value, VmRssTag))
          || (r.vmrss == After(t, Some(i), 4)
              && !Starts(t, After(t, Some(i), 2).value, VmRssTag)
              && !Starts(t, After(t, Some(i), 3).value, VmRssTag)))
      && r.vmdata == After(t, r.vmrss, 1) && r.vmstk == After(t, r.vmrss, 2)
      && r.vmexe == After(t, r.vmrss, 3) && r.vmlib == After(t, r.vmrss, 4)
      && r.vmswap == After(t, r.vmrss, 6) && r.threads == After(t, r.vmrss, 7)
      && VmBlock(t, i, acc).value.1 == After(t, r.vmrss, 8)
      && r.uid == acc.uid && r.gid == acc.gid
      && r.sigpnd == acc.sigpnd && r.sigblk == acc.sigblk
      && r.sigign == acc.sigign && r.sigcgt == acc.sigcgt
  {
  }

  /** Each status pointer is the previous one, NULL, or the start of a line. */
  predicate AtLine(p: Option<nat>, f: Option<nat>, t: string) {
    f == p || f.None? || (f.value <= |t| && LineStart(t, f.value))
  }

  predicate EachAtLine(prev: StatusLines, r: StatusLines, t: string) {
    AtLine(prev.uid, r.uid, t) && AtLine(prev.gid, r.gid, t)
    && AtLine(prev.vmsize, r.vmsize, t) && AtLine(prev.vmlck, r.vmlck, t)
    && AtLine(prev.vmrss, r.vmrss, t) && AtLine(prev.vmdata, r.vmdata, t)
    && AtLine(prev.vmstk, r.vmstk, t) && AtLine(prev.vmexe, r.vmexe, t)
    && AtLine(prev.vmlib, r.vmlib, t) && AtLine(prev.vmswap, r.vmswap, t)
    && AtLine(prev.threads, r.threads, t)
    && AtLine(prev.sigpnd, r.sigpnd, t) && AtLine(prev.sigblk, r.sigblk, t)
    && AtLine(prev.sigign, r.sigign, t) && AtLine(prev.sigcgt, r.sigcgt, t)
  }

  /** A VmSize: block at a line start sets pointers at line starts only. */
  lemma {:induction false} VmBlockAtLines(t: string, i: nat, acc: StatusLines, prev: StatusLines)
    requires i <= |t| && LineStart(t, i) && VmBlock(t, i, acc).Some?
    requires EachAtLine(prev, acc, t)
    ensures EachAtLine(prev, VmBlock(t, i, acc).value.0, t)
    ensures VmBlock(t, i, acc).value.1.Some? ==> LineStart(t, VmBlock(t, i, acc).value.1.value)
  {
    VmBlockLayout(t, i, acc);
    var rss := VmBlock(t, i, acc).value.0.vmrss;
    AfterLineStart(t, Some(i), 1);
    AfterLineStart(t, Some(i), 2);
    AfterLineStart(t, Some(i), 3);
    AfterLineStart(t, Some(i), 4);
    assert LineStart(t, rss.value);
    AfterLineStart(t, rss, 1);
    AfterLineStart(t, rss, 2);
    AfterLineStart(t, rss, 3);
    AfterLineStart(t, rss, 4);
    AfterLineStart(t, rss, 6);
    AfterLineStart(t, rss, 7);
    AfterLineStart(t, rss, 8);
  }

  /** A SigPnd: block at a line start sets pointers at line starts only. */
  lemma {:induction false} SigBlockAtLines(t: string, i: nat, acc: StatusLines, prev: StatusLines)
    requires i <= |t| && LineStart(t, i)
    requires EachAtLine(prev, acc, t)
    ensures EachAtLine(prev, SigBlock(t, i, acc), t)
    ensures SigBlock(t, i, acc).uid == acc.uid && SigBlock(t, i, acc).gid == acc.gid
  {
    NextIsNextLine(t, i);
    var blk := Next(t, Some(i));
    if blk.Some? {
      NextIsNextLine(t, blk.value);
      var ign := Next(t, blk);
      if ign.Some? {
        NextIsNextLine(t, ign.value);
      }
    }
  }

  /** The loop leaves uid and gid alone and sets pointers at line starts only. */
  lemma {:induction false} ScanFromAtLines(t: string, c: Option<nat>, acc: StatusLines, prev: StatusLines)
    requires c.Some? ==> c.value <= |t| && LineStart(t, c.value)
    requires ScanFrom(t, c, acc).Some?
    requires EachAtLine(prev, acc, t)
    ensures ScanFrom(t, c, acc).value.uid == acc.uid && ScanFrom(t, c, acc).value.gid == acc.gid
    ensures EachAtLine(prev, ScanFrom(t, c, acc).value, t)
    decreases if c.Some? then |t| + 1 - c.value else 0
  {
    if c.Some? {
      var i := c.value;
      if Starts(t, i, VmSizeTag) {
        VmTurnDefined(t, i, acc);
        var next := VmBlock(t, i, acc).value;
        VmBlockAtLines(t, i, acc, prev);
        VmBlockLayout(t, i, acc);
        VmTurn(t, i, acc, next.0, next.1);
        ScanFromAtLines(t, next.1, next.0, prev);
      } else if Starts(t, i, SigPndTag) {
        SigTurn(t, i, acc);
        SigBlockAtLines(t, i, acc, prev);
      } else {
        OtherTurn(t, i, acc);
        NextIsNextLine(t, i);
        ScanFromAtLines(t, Next(t, c), acc, prev);
      }
    }
  }

  /**
   * The status scan: uid is the first line starting with "Uid:", gid the
   * line after it, the loop does not move either, and every pointer it sets
   * is the start of a line.
   */
  lemma {:induction false} StatusScanLines(t: string, prev: StatusLines)
    requires StatusScan(t, prev).Some?
    ensures var r := StatusScan(t, prev).value;
      && r.uid == UidLine(t, 0) && r.gid == Next(t, r.uid)
      && Starts(t, r.uid.value, UidTag)
      && (forall s :: 0 <= s < r.uid.value && LineStart(t, s) ==> !Starts(t, s, UidTag))
      && EachAtLine(prev, r, t)
  {
    var u := UidLine(t, 0).value;
    UidLineSound(t, 0);
    var gid := Next(t, Some(u));
    var acc := prev.(uid := Some(u), gid := gid);
    NextIsNextLine(t, u);
    if gid.Some? {
      NextIsNextLine(t, gid.value);
    }
    assert EachAtLine(prev, acc, t);
    ScanFromAtLines(t, Next(t, gid), acc, prev);
  }

  /**
   * A line starting with "SigPnd:" is reached from c when no line between
   * starts with "VmSize:" or "SigPnd:": a missing VmSize: block does not
   * stop the scan, and the SigPnd: block is the last thing it sets.
   */
  lemma {:induction false} SigPndReached(t: string, c: nat, s: nat, acc: StatusLines)
    requires c <= s <= |t| && LineStart(t, c)
    requires LineStart(t, s) && Starts(t, s, SigPndTag)
    requires forall k :: c <= k < s && LineStart(t, k) ==> !Starts(t, k, VmSizeTag) && !Starts(t, k, SigPndTag)
    ensures ScanFrom(t, Some(c), acc) == Some(SigBlock(t, s, acc))
    decreases |t| - c
  {
    if c < s {
      NextIsNextLine(t, c);
      assert LineEnd(t, c) < s;
      SigPndReached(t, LineEnd(t, c) + 1, s, acc);
    } else {
      TagsDiffer(t, s);
    }
  }

  // ---------------------------------------------------------------------
  // The io lines

  lemma {:induction false} UnlinesAppend(a: seq<string>, b: seq<string>)
    ensures Cgroup.Unlines(a + b) == Cgroup.Unlines(a) + Cgroup.Unlines(b)
    decreases |b|
  {
    if b == [] {
      assert a + b == a;
    } else {
      var b' := b[..|b| - 1];
      var l := b[|b| - 1];
      assert (a + b)[..|a + b| - 1] == a + b';
      assert (a + b)[|a + b| - 1] == l;
      UnlinesAppend(a, b');
      var ua, ub := Cgroup.Unlines(a), Cgroup.Unlines(b');
      assert Cgroup.Unlines(a + b) == (ua + ub) + l + "\n";
      assert Cgroup.Unlines(b) == ub + l + "\n";
      assert (ua + ub) + l + "\n" == ua + (ub + l + "\n");
    }
  }

  /** The text of ls is the lines before k, line k and its newline, and the lines after. */
  lemma {:induction false} UnlinesSplit(ls: seq<string>, k: nat)
    requires k < |ls|
    ensures Cgroup.Unlines(ls) == Cgroup.Unlines(ls[..k]) + ls[k] + "\n" + Cgroup.Unlines(ls[k + 1..])
  {
    var a, b := ls[..k + 1], ls[k + 1..];
    assert a + b == ls;
    UnlinesAppend(a, b);
    assert a[..|a| - 1] == ls[..k];
    assert a[|a| - 1] == ls[k];
    assert Cgroup.Unlines(a) == Cgroup.Unlines(a[..|a| - 1]) + a[|a| - 1] + "\n";
  }

  /** A line l with its newline, between text p before and text rest after. */
  lemma {:induction false} LineAtSplit(p: string, l: string, rest: string)
    requires Cgroup.OneLine(l)
    ensures var t := p + l + "\n" + rest;
      && LineEnd(t, |p|) == |p| + |l|
      && LineIs(t, Some(|p|), l)
      && Next(t, Some(|p|)) == Some(|p| + |l| + 1)
  {
    var t := p + l + "\n" + rest;
    var o, e := |p|, |p| + |l|;
    assert t[o..e] == l;
    assert t[e] == '\n';
    forall j | o <= j < e ensures t[j] != '\n' {
      assert t[j] == l[j - o];
    }
  }

  /** Line k of the text of ls starts after the first k lines and reads as ls[k]. */
  lemma {:induction false} LineOfUnlines(ls: seq<string>, k: nat)
    requires forall i :: 0 <= i < |ls| ==> Cgroup.OneLine(ls[i])
    requires k < |ls|
    ensures LineIs(Cgroup.Unlines(ls), Some(|Cgroup.Unlines(ls[..k])|), ls[k])
    ensures Next(Cgroup.Unlines(ls), Some(|Cgroup.Unlines(ls[..k])|)) == Some(|Cgroup.Unlines(ls[..k])| + |ls[k]| + 1)
  {
    UnlinesSplit(ls, k);
    LineAtSplit(Cgroup.Unlines(ls[..k]), ls[k], Cgroup.Unlines(ls[k + 1..]));
  }

  /** k strsep(3) steps from the start of the text of ls land on line k. */
  lemma {:induction false} NthLineOfUnlines(ls: seq<string>, k: nat)
    requires forall i :: 0 <= i < |ls| ==> Cgroup.OneLine(ls[i])
    requires k <= |ls|
    ensures NthLine(Cgroup.Unlines(ls), k) == Some(|Cgroup.Unlines(ls[..k])|)
  {
    if k > 0 {
      NthLineOfUnlines(ls, k - 1);
      LineOfUnlines(ls, k - 1);
      assert ls[..k][..k - 1] == ls[..k - 1];
      assert Cgroup.Unlines(ls[..k]) == Cgroup.Unlines(ls[..k - 1]) + ls[k - 1] + "\n";
      assert |Cgroup.Unlines(ls[..k])| == |Cgroup.Unlines(ls[..k - 1])| + |ls[k - 1]| + 1;
    }
  }

  /** The k'th strsep(3) cursor on the text of ls reads as line k. */
  lemma {:induction false} NthLineIs(ls: seq<string>, k: nat)
    requires forall i :: 0 <= i < |ls| ==> Cgroup.OneLine(ls[i])
    requires k < |ls|
    ensures LineIs(Cgroup.Unlines(ls), NthLine(Cgroup.Unlines(ls), k), ls[k])
  {
    NthLineOfUnlines(ls, k);
    LineOfUnlines(ls, k);
  }

  /** The io split of seven or more lines points each pointer at its own line. */
  lemma {:induction false} IoSplitOfLines(ls: seq<string>)
    requires forall i :: 0 <= i < |ls| ==> Cgroup.OneLine(ls[i])
    requires |ls| >= 7
    ensures var t := Cgroup.Unlines(ls);
      && LineIs(t, IoSplit(t).rchar, ls[0]) && LineIs(t, IoSplit(t).wchar, ls[1])
      && LineIs(t, IoSplit(t).syscr, ls[2]) && LineIs(t, IoSplit(t).syscw, ls[3])
      && LineIs(t, IoSplit(t).readb, ls[4]) && LineIs(t, IoSplit(t).writeb, ls[5])
      && LineIs(t, IoSplit(t).cancel, ls[6])
  {
    NthLineIs(ls, 0);
    NthLineIs(ls, 1);
    NthLineIs(ls, 2);
    NthLineIs(ls, 3);
    NthLineIs(ls, 4);
    NthLineIs(ls, 5);
    NthLineIs(ls, 6);
  }
}
