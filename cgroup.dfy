/**
 * proc_cgroup_reformat: turn the kernel's per-process control group listing
 * ("2:cpu:/\n1:cpuset:/\n") into the one-line form ps(1) prints
 * ("cpu:/;cpuset:/").
 *
 * The reference definition works on lines: the text is cut at its first NUL,
 * split into newline-terminated lines, each line holding a ':' contributes
 * what follows its first ':', and the contributions are joined.  The join
 * keeps the source's rule for the separator: a ';' goes in front of a
 * contribution only when the contributions before it hold at least one
 * character, because the source decides "not the first group" by comparing
 * an output pointer that advanced by the contribution lengths alone.
 */
module Cgroup {
  import opened CString

  /** The newline-terminated lines of v, without their newlines; an unterminated tail is dropped. */
  function CompleteLines(v: seq<char>): (ls: seq<string>) {
    LinesUpTo(v, |v|)
  }

  /** Where the line holding position p of v starts: just after the last newline before p. */
  function LineStartAt(v: seq<char>, p: nat): (k: nat)
    requires p <= |v|
    ensures k <= p
  {
    if p == 0 then 0
    else if v[p - 1] == '\n' then p
    else LineStartAt(v, p - 1)
  }

  /** The complete lines among the first p characters of v. */
  function LinesUpTo(v: seq<char>, p: nat): seq<string>
    requires p <= |v|
  {
    if p == 0 then []
    else if v[p - 1] == '\n' then LinesUpTo(v, p - 1) + [v[LineStartAt(v, p - 1)..p - 1]]
    else LinesUpTo(v, p - 1)
  }

  /** What one line contributes: the text after its first ':', or nothing without a ':'. */
  function Contribution(line: string): (c: seq<string>)
    ensures |c| <= 1
    ensures |c| == 1 <==> ':' in line
  {
    match Find(line, ':', 0)
    case None => []
    case Some(i) => [line[i + 1..]]
  }

  /** The contributions of a sequence of lines, in order. */
  function Contributions(ls: seq<string>): (cs: seq<string>)
    ensures |cs| <= |ls|
  {
    if ls == [] then [] else Contributions(ls[..|ls| - 1]) + Contribution(ls[|ls| - 1])
  }

  /** Total length of a sequence of strings. */
  function SumLen(cs: seq<string>): nat {
    if cs == [] then 0 else SumLen(cs[..|cs| - 1]) + |cs[|cs| - 1]|
  }

  /** The join proc_cgroup_reformat performs, separator rule included. */
  function JoinGroups(cs: seq<string>): (r: string)
    ensures |r| >= SumLen(cs)
  {
    if cs == [] then []
    else
      var front := cs[..|cs| - 1];
      JoinGroups(front) + (if SumLen(front) > 0 then ";" else "") + cs[|cs| - 1]
  }

  /** The reformatted string for the first len bytes of a read buffer. */
  function Reformatted(data: seq<char>): string {
    JoinGroups(Contributions(CompleteLines(CStr(data))))
  }

  /** An independent reference: the plain join with ';' between every two strings. */
  function JoinSemi(cs: seq<string>): string {
    if cs == [] then []
    else if |cs| == 1 then cs[0]
    else cs[0] + ";" + JoinSemi(cs[1..])
  }

  /** Scanning state after the first p characters: just past the first ':' of the current line, if it has one. */
  function ColonEnd(v: seq<char>, p: nat): (r: Option<nat>)
    requires p <= |v|
    ensures r.Some? ==> LineStartAt(v, p) < r.value <= p && v[r.value - 1] == ':'
  {
    if p == 0 || v[p - 1] == '\n' then None
    else if ColonEnd(v, p - 1).Some? then ColonEnd(v, p - 1)
    else if v[p - 1] == ':' then Some(p)
    else None
  }

  /** What the scanner copies out when a newline comes at p: the text after the recorded ':', if any. */
  function ColonPart(v: seq<char>, p: nat): seq<string>
    requires p <= |v|
  {
    match ColonEnd(v, p)
    case None => []
    case Some(s) => [v[s..p]]
  }

  /** The contributions the scanner has collected after the first p characters. */
  function Collected(v: seq<char>, p: nat): seq<string>
    requires p <= |v|
  {
    if p == 0 then []
    else if v[p - 1] == '\n' then Collected(v, p - 1) + ColonPart(v, p - 1)
    else Collected(v, p - 1)
  }

  /**
   * proc_cgroup_reformat(buf, len, fmt): the characters of buf before the
   * first NUL and before len, reformatted.  The result is the C string left
   * in fmt.
   */
  method Reformat(buf: seq<char>, len: int) returns (fmt: string)
    requires len <= |buf|
    ensures fmt == Reformatted(buf[..if len < 0 then 0 else len])
  {
    var n: nat := if len < 0 then 0 else len;
    var data := buf[..n];
    fmt := [];
    var target: nat := 0;
    var s: Option<nat> := None;
    var p: nat := 0;
    ghost var cs: seq<string> := [];
    while p < n
      invariant p <= n
      invariant forall i :: 0 <= i < p ==> data[i] != NUL
      invariant s == ColonEnd(data, p)
      invariant cs == Collected(data, p)
      invariant fmt == JoinGroups(cs)
      invariant target == SumLen(cs)
    {
      if data[p] == NUL {
        break;
      }
      if data[p] == ':' && s.None? {
        s := Some(p + 1);
      }
      if data[p] == '\n' && s.Some? {
        // a complete group line: copy what follows its first ':'
        var part := data[s.value..p];
        JoinGroupsSnoc(cs, part);
        // "not the first cgroup?" compares the output pointer with the start
        var sep := if target != 0 then ";" else "";
        fmt := fmt + sep;
        fmt := fmt + part;
        target := target + |part|;
        s := None;
        cs := cs + [part];
      }
      p := p + 1;
    }
    CStrOfScanned(data, p);
    CollectedContributions(data, p);
  }

  /** Joining one more group, as the source's two strncat calls do. */
  lemma {:induction false} JoinGroupsSnoc(cs: seq<string>, part: string)
    ensures JoinGroups(cs + [part]) == JoinGroups(cs) + (if SumLen(cs) > 0 then ";" else "") + part
    ensures SumLen(cs + [part]) == SumLen(cs) + |part|
  {
    assert (cs + [part])[..|cs|] == cs;
  }

  /** What the scanner collects is the contribution of every complete line. */
  lemma {:induction false} CollectedContributions(v: seq<char>, p: nat)
    requires p <= |v|
    ensures Collected(v, p) == Contributions(LinesUpTo(v, p))
  {
    if p > 0 {
      CollectedContributions(v, p - 1);
      if v[p - 1] == '\n' {
        var ls := LinesUpTo(v, p - 1);
        var line := v[LineStartAt(v, p - 1)..p - 1];
        assert LinesUpTo(v, p) == ls + [line];
        assert Collected(v, p) == Collected(v, p - 1) + ColonPart(v, p - 1);
        LineContribution(v, p - 1);
        ContributionsSnoc(ls, line);
        EqualSums(Collected(v, p), Collected(v, p - 1), ColonPart(v, p - 1), Contributions(ls), Contribution(line), Contributions(LinesUpTo(v, p)));
      } else {
        assert Collected(v, p) == Collected(v, p - 1);
        assert LinesUpTo(v, p) == LinesUpTo(v, p - 1);
      }
    }
  }

  /** Equal parts make equal sums. */
  lemma {:induction false} EqualSums(x: seq<string>, a: seq<string>, b: seq<string>, c: seq<string>, d: seq<string>, y: seq<string>)
    requires x == a + b && a == c && b == d && y == c + d
    ensures x == y
  {
  }

  /**
   * The line from LineStartAt(v, p) to p contributes exactly the text after
   * the position ColonEnd records, and nothing when it records none.
   */
  lemma {:induction false} LineContribution(v: seq<char>, p: nat)
    requires p <= |v|
    ensures Contribution(v[LineStartAt(v, p)..p]) == ColonPart(v, p)
  {
    var k := LineStartAt(v, p);
    if p == 0 || v[p - 1] == '\n' {
      assert v[k..p] == [];
    } else {
      LineContribution(v, p - 1);
      assert k == LineStartAt(v, p - 1);
      var c := v[p - 1];
      var l := v[k..p - 1];
      SliceSnoc(v, k, p);
      ContributionSnoc(l, c);
      match ColonEnd(v, p - 1)
      case None =>
        assert ColonEnd(v, p) == if c == ':' then Some(p) else None;
        assert v[p..p] == [];
      case Some(s) =>
        assert ColonEnd(v, p) == Some(s);
        SliceSnoc(v, s, p);
    }
  }

  /** A slice is the slice one shorter and its last character. */
  lemma {:induction false} SliceSnoc(v: seq<char>, i: nat, j: nat)
    requires i < j <= |v|
    ensures v[i..j] == v[i..j - 1] + [v[j - 1]]
  {
  }

  /** One more character on a line: it extends the contribution, or starts one when it is the first ':'. */
  lemma {:induction false} ContributionSnoc(l: string, c: char)
    ensures Contribution(l + [c]) ==
            if ':' in l then [Contribution(l)[0] + [c]] else if c == ':' then [[]] else []
  {
    match Find(l, ':', 0)
    case None =>
      FindSnocNone(l, c, ':', 0);
      if c == ':' {
        assert (l + [c])[|l| + 1..] == [];
      }
    case Some(i) =>
      FindSnocSome(l, c, ':', 0);
      assert (l + [c])[i + 1..] == l[i + 1..] + [c];
  }

  lemma {:induction false} FindSnocNone(x: seq<char>, c: char, d: char, from: nat)
    requires from <= |x|
    requires Find(x, d, from).None?
    ensures Find(x + [c], d, from) == if c == d then Some(|x|) else None
    decreases |x| - from
  {
    if from < |x| {
      assert (x + [c])[from] == x[from];
      FindSnocNone(x, c, d, from + 1);
    }
  }

  lemma {:induction false} FindSnocSome(x: seq<char>, c: char, d: char, from: nat)
    requires from <= |x|
    requires Find(x, d, from).Some?
    ensures Find(x + [c], d, from) == Find(x, d, from)
    decreases |x| - from
  {
    assert (x + [c])[from] == x[from];
    if x[from] != d {
      FindSnocSome(x, c, d, from + 1);
    }
  }

  /** Extending the lines by one adds that line's contribution. */
  lemma {:induction false} ContributionsSnoc(ls: seq<string>, l: string)
    ensures Contributions(ls + [l]) == Contributions(ls) + Contribution(l)
  {
    assert (ls + [l])[..|ls|] == ls;
  }

  /** The complete lines of v's first p characters only look at those characters. */
  lemma {:induction false} LinesUpToPrefix(v: seq<char>, w: seq<char>, p: nat)
    requires p <= |v| && p <= |w| && v[..p] == w[..p]
    ensures LinesUpTo(v, p) == LinesUpTo(w, p)
    ensures LineStartAt(v, p) == LineStartAt(w, p)
  {
    if p > 0 {
      assert v[p - 1] == w[p - 1] by { assert v[..p][p - 1] == w[..p][p - 1]; }
      assert v[..p - 1] == w[..p - 1] by { assert v[..p - 1] == v[..p][..p - 1]; assert w[..p - 1] == w[..p][..p - 1]; }
      LinesUpToPrefix(v, w, p - 1);
      var k := LineStartAt(v, p - 1);
      assert v[k..p - 1] == w[k..p - 1] by {
        assert v[k..p - 1] == v[..p][k..p - 1];
        assert w[k..p - 1] == w[..p][k..p - 1];
      }
    }
  }

  /** Scanning stopped at p either at the end or at a NUL, so the lines seen are those of the C string. */
  lemma {:induction false} CStrOfScanned(data: seq<char>, p: nat)
    requires p <= |data|
    requires forall i :: 0 <= i < p ==> data[i] != NUL
    requires p < |data| ==> data[p] == NUL
    ensures CompleteLines(CStr(data)) == LinesUpTo(data, p)
  {
    var t := data[..p];
    assert NoNul(t);
    if p == |data| {
      assert t == data;
      CStrOfNoNul(data);
    } else {
      assert data == t + [NUL] + data[p + 1..];
      CStrStopsAtNul(t, data[p + 1..]);
    }
    LinesUpToPrefix(t, data, p);
  }

  /** No newline in a string. */
  predicate OneLine(l: string) {
    forall i :: 0 <= i < |l| ==> l[i] != '\n'
  }

  /** The text of a sequence of newline-terminated lines. */
  function Unlines(ls: seq<string>): string {
    if ls == [] then [] else Unlines(ls[..|ls| - 1]) + ls[|ls| - 1] + "\n"
  }

  /** Characters without a newline extend the current line and add no complete line. */
  lemma {:induction false} LinesWithinLine(x: seq<char>, t: string, j: nat)
    requires OneLine(t) && j <= |t|
    ensures LinesUpTo(x + t, |x| + j) == LinesUpTo(x, |x|)
    ensures LineStartAt(x + t, |x| + j) == LineStartAt(x, |x|)
  {
    var v := x + t;
    if j == 0 {
      LinesUpToPrefix(v, x, |x|);
    } else {
      assert v[|x| + j - 1] == t[j - 1];
      LinesWithinLine(x, t, j - 1);
    }
  }

  /** An unterminated tail adds no complete line. */
  lemma {:induction false} TailAddsNoLine(x: seq<char>, t: string)
    requires OneLine(t)
    ensures CompleteLines(x + t) == CompleteLines(x)
  {
    LinesWithinLine(x, t, |t|);
    assert |x + t| == |x| + |t|;
  }

  /** A terminated line after complete lines adds exactly that line. */
  lemma {:induction false} AppendLine(x: seq<char>, l: string)
    requires OneLine(l)
    requires LineStartAt(x, |x|) == |x|
    ensures CompleteLines(x + l + "\n") == CompleteLines(x) + [l]
    ensures LineStartAt(x + l + "\n", |x + l + "\n"|) == |x + l + "\n"|
  {
    var v := x + l + "\n";
    var p := |x| + |l|;
    assert v[p] == '\n';
    assert v[..p] == x + l;
    LinesWithinLine(x, l, |l|);
    assert |x + l| == p;
    LinesUpToPrefix(v, x + l, p);
    assert v[|x|..p] == l;
  }

  /** The complete lines of Unlines(ls) are ls. */
  lemma {:induction false} CompleteLinesUnlines(ls: seq<string>)
    requires forall i :: 0 <= i < |ls| ==> OneLine(ls[i])
    ensures CompleteLines(Unlines(ls)) == ls
    ensures LineStartAt(Unlines(ls), |Unlines(ls)|) == |Unlines(ls)|
  {
    if ls != [] {
      var front := ls[..|ls| - 1];
      CompleteLinesUnlines(front);
      AppendLine(Unlines(front), ls[|ls| - 1]);
      assert front + [ls[|ls| - 1]] == ls;
    }
  }

  lemma {:induction false} UnlinesNoNul(ls: seq<string>)
    requires forall i :: 0 <= i < |ls| ==> NoNul(ls[i])
    ensures NoNul(Unlines(ls))
  {
    if ls != [] {
      UnlinesNoNul(ls[..|ls| - 1]);
      var f := Unlines(ls[..|ls| - 1]);
      var l := ls[|ls| - 1];
      NoNulConcat(f, l);
      NoNulConcat(f + l, "\n");
    }
  }

  /**
   * Reformatting newline-terminated lines joins the contributions of those
   * lines; an unterminated last line contributes nothing.
   */
  lemma {:induction false} ReformatLines(ls: seq<string>, tail: string)
    requires forall i :: 0 <= i < |ls| ==> OneLine(ls[i]) && NoNul(ls[i])
    requires OneLine(tail) && NoNul(tail)
    ensures Reformatted(Unlines(ls) + tail) == JoinGroups(Contributions(ls))
  {
    var u := Unlines(ls);
    var v := u + tail;
    assert CStr(v) == v by {
      UnlinesNoNul(ls);
      NoNulConcat(u, tail);
      CStrOfNoNul(v);
    }
    TailAddsNoLine(u, tail);
    CompleteLinesUnlines(ls);
  }

  lemma {:induction false} NoNulConcat(a: seq<char>, b: seq<char>)
    requires NoNul(a) && NoNul(b)
    ensures NoNul(a + b)
  {
    var v := a + b;
    forall i | 0 <= i < |v| ensures v[i] != NUL {
      if i < |a| { assert v[i] == a[i]; } else { assert v[i] == b[i - |a|]; }
    }
  }

  /** A NUL ends the input: nothing after it is looked at. */
  lemma {:induction false} ReformatStopsAtNul(x: seq<char>, y: seq<char>)
    requires NoNul(x)
    ensures Reformatted(x + [NUL] + y) == Reformatted(x)
  {
    CStrStopsAtNul(x, y);
    CStrOfNoNul(x);
  }

  /** When every group text is non-empty the join is the plain ';'-separated join. */
  lemma {:induction false} JoinGroupsPlain(cs: seq<string>)
    requires forall i :: 0 <= i < |cs| ==> cs[i] != []
    ensures JoinGroups(cs) == JoinSemi(cs)
    ensures cs != [] ==> SumLen(cs) > 0
  {
    if cs != [] {
      var front := cs[..|cs| - 1];
      JoinGroupsPlain(front);
      JoinSemiSnoc(front, cs[|cs| - 1]);
      assert front + [cs[|cs| - 1]] == cs;
    }
  }

  lemma {:induction false} JoinSemiSnoc(cs: seq<string>, c: string)
    ensures JoinSemi(cs + [c]) == if cs == [] then c else JoinSemi(cs) + ";" + c
  {
    if |cs| >= 2 {
      assert (cs + [c])[1..] == cs[1..] + [c];
      JoinSemiSnoc(cs[1..], c);
    } else if |cs| == 1 {
      assert (cs + [c])[1..] == [c];
    }
  }

  /** Two terminated lines and the contributions they make. */
  lemma {:induction false} TwoLines(a: string, b: string, ca: string, cb: string)
    requires OneLine(a) && NoNul(a) && OneLine(b) && NoNul(b)
    requires Contribution(a) == [ca] && Contribution(b) == [cb]
    ensures Reformatted(a + "\n" + b + "\n") == JoinGroups([ca, cb])
  {
    var ls := [a, b];
    assert ls[..1] == [a];
    assert ls[..1][..0] == [];
    assert Unlines([a]) == a + "\n" by {
      assert Unlines([a]) == Unlines([]) + a + "\n";
      assert [] + a == a;
    }
    assert Unlines(ls) == a + "\n" + b + "\n";
    ReformatLines(ls, "");
    assert Unlines(ls) + "" == Unlines(ls);
    assert Contributions(ls) == [ca, cb];
  }

  /** Joining two group texts, as the source's separator rule decides. */
  lemma {:induction false} JoinTwo(ca: string, cb: string)
    ensures JoinGroups([ca, cb]) == ca + (if |ca| > 0 then ";" else "") + cb
  {
    var cs := [ca, cb];
    assert cs[..1] == [ca];
    assert [ca][..0] == [];
    assert JoinGroups([ca]) == ca by {
      assert JoinGroups([ca]) == JoinGroups([]) + "" + ca;
      assert [] + "" + ca == ca;
    }
    assert SumLen([ca]) == |ca|;
  }

  /** A group line "id:rest" with no ':' in id. */
  predicate GroupLine(id: string, rest: string) {
    (forall i :: 0 <= i < |id| ==> id[i] != ':')
    && OneLine(id) && NoNul(id) && OneLine(rest) && NoNul(rest)
  }

  /** A hierarchy id followed by ':' contributes what follows. */
  lemma {:induction false} GroupLineContribution(id: string, rest: string)
    requires GroupLine(id, rest)
    ensures Contribution(id + ":" + rest) == [rest]
    ensures OneLine(id + ":" + rest) && NoNul(id + ":" + rest)
  {
    var l := id + ":" + rest;
    FindPast(l, ':', 0, |id|);
    assert l[|id| + 1..] == rest;
    NoNulConcat(id, ":");
    NoNulConcat(id + ":", rest);
    forall i | 0 <= i < |l| ensures l[i] != '\n' {
      if i < |id| { assert l[i] == id[i]; }
      else if i > |id| { assert l[i] == rest[i - |id| - 1]; }
    }
  }

  lemma {:induction false} FindPast(s: seq<char>, c: char, from: nat, at: nat)
    requires from <= at < |s| && s[at] == c
    requires forall i :: from <= i < at ==> s[i] != c
    ensures Find(s, c, from) == Some(at)
    decreases at - from
  {
    if from < at {
      FindPast(s, c, from + 1, at);
    }
  }

  /**
   * Two hierarchy lines such as "2:cpu:/" and "1:cpuset:/" become
   * "cpu:/;cpuset:/": the texts after the ids, joined by ';'.
   */
  lemma {:induction false} ReformatTwoGroups(id1: string, g1: string, id2: string, g2: string)
    requires GroupLine(id1, g1) && GroupLine(id2, g2)
    requires g1 != []
    ensures Reformatted((id1 + ":" + g1) + "\n" + (id2 + ":" + g2) + "\n") == g1 + ";" + g2
  {
    GroupLineContribution(id1, g1);
    GroupLineContribution(id2, g2);
    TwoLines(id1 + ":" + g1, id2 + ":" + g2, g1, g2);
    JoinTwo(g1, g2);
  }

  /**
   * A first group line with nothing after its ':' contributes an empty text,
   * and because no character has been produced yet the next group gets no
   * ';': "1:\n2:cpu:/\n" becomes "cpu:/".
   */
  lemma {:induction false} ReformatEmptyFirstGroup(id1: string, id2: string, g2: string)
    requires GroupLine(id1, []) && GroupLine(id2, g2)
    ensures Reformatted((id1 + ":") + "\n" + (id2 + ":" + g2) + "\n") == g2
  {
    GroupLineContribution(id1, []);
    GroupLineContribution(id2, g2);
    assert id1 + ":" + [] == id1 + ":";
    TwoLines(id1 + ":", id2 + ":" + g2, [], g2);
    JoinTwo([], g2);
    assert [] + "" + g2 == g2;
  }

  /**
   * When no group line ends right after its ':', the reformatted listing is
   * the plain ';'-separated join of the group texts.
   */
  lemma {:induction false} ReformatPlainJoin(ls: seq<string>)
    requires forall i :: 0 <= i < |ls| ==> OneLine(ls[i]) && NoNul(ls[i])
    requires forall i :: 0 <= i < |Contributions(ls)| ==> Contributions(ls)[i] != []
    ensures Reformatted(Unlines(ls)) == JoinSemi(Contributions(ls))
  {
    ReformatLines(ls, []);
    assert Unlines(ls) + [] == Unlines(ls);
    JoinGroupsPlain(Contributions(ls));
  }
}
