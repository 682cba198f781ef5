/**
 * _pm_getfield: the field'th white-space separated field of a C string,
 * copied into a scratch buffer that lives across calls and only grows.
 *
 * The reference definition works on the text before the first NUL: a skip
 * passes a run of non-space characters and then the run of spaces after
 * it, and the field is the run of non-space characters where the skips
 * stop.  Text that starts with white space therefore has an empty field 0.
 */
module Field {
  import opened CString


  /** Drop the leading run of non-space characters. */
  function DropWord(s: string): (r: string)
    ensures |r| <= |s|
    ensures r == [] || IsSpace(r[0])
  {
    if s != [] && !IsSpace(s[0]) then DropWord(s[1..]) else s
  }

  /** The leading run of non-space characters. */
  function Token(s: string): (r: string)
    ensures |r| <= |s|
    ensures forall i :: 0 <= i < |r| ==> !IsSpace(r[i])
    ensures |r| < |s| ==> IsSpace(s[|r|])
  {
    if s != [] && !IsSpace(s[0]) then [s[0]] + Token(s[1..]) else []
  }

  /** The text left after k skips (a negative count skips nothing). */
  function Skip(t: string, k: int): string
    decreases if k < 0 then 0 else k
  {
    if k <= 0 then t else DropSpaces(DropWord(Skip(t, k - 1)))
  }

  /** Field k of the C string text t. */
  function FieldAt(t: string, k: int): string {
    Token(Skip(t, k))
  }

  /** One skip of the outer loop of _pm_getfield, from index p of b. */
  method SkipField(b: seq<char>, p: nat) returns (q: nat)
    requires NUL in b
    requires p <= |CStr(b)|
    ensures p <= q <= |CStr(b)|
    ensures CStr(b)[q..] == DropSpaces(DropWord(CStr(b)[p..]))
  {
    ghost var t := CStr(b);
    CStrEnd(b);
    q := p;
    // skip to the next space
    while b[q] != NUL && !IsSpace(b[q])
      invariant p <= q <= |t|
      decreases |t| - q
      invariant DropWord(t[p..]) == DropWord(t[q..])
    {
      assert t[q..][1..] == t[q + 1..];
      q := q + 1;
    }
    assert DropWord(t[q..]) == t[q..];
    ghost var r := q;
    // skip to the next word
    while b[q] != NUL && IsSpace(b[q])
      invariant r <= q <= |t|
      decreases |t| - q
      invariant DropSpaces(t[r..]) == DropSpaces(t[q..])
    {
      assert t[q..][1..] == t[q + 1..];
      q := q + 1;
    }
    assert DropSpaces(t[q..]) == t[q..];
  }

  /** The length of the run of non-space characters at index p of t. */
  function TokenLen(t: string, p: nat): (n: nat)
    requires p <= |t|
    ensures p + n <= |t|
    decreases |t| - p
  {
    if p < |t| && !IsSpace(t[p]) then 1 + TokenLen(t, p + 1) else 0
  }

  lemma {:induction false} TokenAt(t: string, p: nat)
    requires p <= |t|
    ensures Token(t[p..]) == t[p..p + TokenLen(t, p)]
    decreases |t| - p
  {
    if p < |t| && !IsSpace(t[p]) {
      TokenAt(t, p + 1);
      assert t[p..][1..] == t[p + 1..];
      assert t[p..p + TokenLen(t, p)] == [t[p]] + t[p + 1..p + 1 + TokenLen(t, p + 1)];
    }
  }

  /** The copy loop of _pm_getfield: the length of the field at index p. */
  method FieldLength(b: seq<char>, p: nat) returns (n: nat)
    requires NUL in b
    requires p <= |CStr(b)|
    ensures p + n <= |CStr(b)|
    ensures CStr(b)[p..p + n] == Token(CStr(b)[p..])
  {
    ghost var t := CStr(b);
    CStrEnd(b);
    n := 0;
    while !(IsSpace(b[p + n]) || b[p + n] == NUL || b[p + n] == '\n')
      invariant p + n <= |t|
      decreases |t| - n
      invariant TokenLen(t, p) == n + TokenLen(t, p + n)
    {
      n := n + 1;
    }
    TokenAt(t, p);
  }

  /**
   * How _pm_getfield walks p: skip `field` times, then measure the
   * field.  It returns where the field starts and ends in b.
   */
  method FieldSpan(b: seq<char>, field: int) returns (start: nat, end: nat)
    requires NUL in b
    ensures start <= end <= |CStr(b)|
    ensures b[start..end] == FieldAt(CStr(b), field)
  {
    ghost var t := CStr(b);
    var p: nat := 0;
    var i := 0;
    while i < field
      invariant p <= |t|
      invariant t[p..] == Skip(t, i)
      invariant i <= if field < 0 then 0 else field
    {
      p := SkipField(b, p);
      i := i + 1;
    }
    assert t[p..] == Skip(t, field);
    var n := FieldLength(b, p);
    start, end := p, p + n;
    CStrSlice(b, start, end);
    assert b[start..end] == Token(t[p..]);
  }

  /** The static scratch buffer of _pm_getfield: retbuf with retbuflen bytes. */
  class Scratch {
    var retbuf: seq<char>
    var retbuflen: nat

    ghost predicate Valid()
      reads this
    {
      |retbuf| == retbuflen
    }

    /** Both statics start out zero: no buffer yet. */
    constructor ()
      ensures Valid() && retbuflen == 0
    {
      retbuf, retbuflen := [], 0;
    }

    /**
     * _pm_getfield(buf, field): NULL for a NULL buffer; otherwise the
     * field, NUL-terminated at the front of the scratch buffer, which grows
     * to the field's length plus four only when it cannot hold the field
     * and its NUL.  Bytes the copy does not reach keep their old values.
     */
    method GetField(buf: Option<seq<char>>, field: int) returns (r: Option<string>)
      requires Valid()
      requires buf.Some? ==> NUL in buf.value
      modifies this
      ensures Valid()
      ensures buf.None? ==> r.None? && retbuf == old(retbuf)
      ensures buf.Some? ==> r == Some(FieldAt(CStr(buf.value), field))
      ensures buf.Some? ==> retbuflen == if |r.value| >= old(retbuflen) then |r.value| + 4 else old(retbuflen)
      ensures buf.Some? ==> retbuf[..|r.value| + 1] == r.value + [NUL]
      ensures buf.Some? ==> forall j :: |r.value| < j < |old(retbuf)| && j < retbuflen ==> retbuf[j] == old(retbuf)[j]
    {
      if buf.None? {
        return None;
      }
      var b := buf.value;
      var start, end := FieldSpan(b, field);
      var i := end - start;
      var grown := retbuf;
      if i >= retbuflen {
        retbuflen := i + 4;
        // realloc keeps the old bytes; the bytes it adds are shown as NUL
        grown := retbuf + seq(retbuflen - |retbuf|, _ => NUL);
      }
      retbuf := b[start..end] + [NUL] + grown[i + 1..];
      r := Some(b[start..end]);
    }
  }

  /** A word: a non-empty run of non-space characters. */
  predicate Word(w: string) {
    w != [] && forall i :: 0 <= i < |w| ==> !IsSpace(w[i])
  }

  /** A gap: a non-empty run of white space. */
  predicate Gap(g: string) {
    g != [] && forall i :: 0 <= i < |g| ==> IsSpace(g[i])
  }

  /** Words laid out with a gap between each pair: ws[0] + seps[0] + ws[1] + ... */
  function Layout(ws: seq<string>, seps: seq<string>): (t: string)
    requires |ws| >= 1 && |seps| == |ws| - 1
  {
    if |ws| == 1 then ws[0] else ws[0] + seps[0] + Layout(ws[1..], seps[1..])
  }

  /** The last skip may be taken first. */
  lemma {:induction false} SkipFront(t: string, k: nat)
    ensures Skip(t, k + 1) == Skip(DropSpaces(DropWord(t)), k)
  {
    if k > 0 {
      SkipFront(t, k - 1);
    }
  }

  lemma {:induction false} SkipEmpty(k: nat)
    ensures Skip([], k) == []
  {
    if k > 0 {
      SkipEmpty(k - 1);
      assert Skip([], k) == DropSpaces(DropWord(Skip([], k - 1)));
      assert DropWord([]) == [];
    }
  }

  lemma {:induction false} DropWordOfWord(w: string, rest: string)
    requires Word(w)
    requires rest == [] || IsSpace(rest[0])
    ensures DropWord(w + rest) == rest
  {
    assert (w + rest)[1..] == w[1..] + rest;
    if |w| > 1 {
      DropWordOfWord(w[1..], rest);
    }
  }

  lemma {:induction false} DropSpacesOfGap(g: string, rest: string)
    requires Gap(g)
    requires rest == [] || !IsSpace(rest[0])
    ensures DropSpaces(g + rest) == rest
  {
    assert (g + rest)[1..] == g[1..] + rest;
    if |g| > 1 {
      DropSpacesOfGap(g[1..], rest);
    }
  }

  lemma {:induction false} TokenOfWord(w: string, rest: string)
    requires Word(w)
    requires rest == [] || IsSpace(rest[0])
    ensures Token(w + rest) == w
  {
    assert (w + rest)[1..] == w[1..] + rest;
    if |w| > 1 {
      TokenOfWord(w[1..], rest);
    } else {
      assert w[1..] + rest == rest;
    }
  }

  /**
   * Field k of words separated by runs of white space is the k'th word, and
   * the empty string once k passes the last word.
   */
  lemma {:induction false} FieldsOfLayout(ws: seq<string>, seps: seq<string>, k: nat)
    requires |ws| >= 1 && |seps| == |ws| - 1
    requires forall i :: 0 <= i < |ws| ==> Word(ws[i])
    requires forall i :: 0 <= i < |seps| ==> Gap(seps[i])
    ensures FieldAt(Layout(ws, seps), k) == if k < |ws| then ws[k] else []
  {
    var t := Layout(ws, seps);
    assert t[..|ws[0]|] == ws[0] by { LayoutStartsWithWord(ws, seps); }
    if |ws| == 1 {
      if k == 0 {
        TokenOfWord(ws[0], []);
        assert ws[0] + [] == ws[0];
      } else {
        SkipFront(t, k - 1);
        DropWordOfWord(ws[0], []);
        assert ws[0] + [] == ws[0];
        SkipEmpty(k - 1);
      }
    } else {
      var rest := Layout(ws[1..], seps[1..]);
      assert t == ws[0] + (seps[0] + rest);
      LayoutStartsWithWord(ws[1..], seps[1..]);
      if k == 0 {
        TokenOfWord(ws[0], seps[0] + rest);
      } else {
        SkipFront(t, k - 1);
        DropWordOfWord(ws[0], seps[0] + rest);
        DropSpacesOfGap(seps[0], rest);
        assert Skip(t, k) == Skip(rest, k - 1);
        FieldsOfLayout(ws[1..], seps[1..], k - 1);
        if k < |ws| {
          assert ws[1..][k - 1] == ws[k];
        }
      }
    }
  }

  lemma {:induction false} LayoutStartsWithWord(ws: seq<string>, seps: seq<string>)
    requires |ws| >= 1 && |seps| == |ws| - 1
    requires Word(ws[0])
    ensures |Layout(ws, seps)| >= |ws[0]|
    ensures Layout(ws, seps)[..|ws[0]|] == ws[0]
    ensures !IsSpace(Layout(ws, seps)[0])
  {
  }

  /** Text that starts with white space has an empty field 0. */
  lemma {:induction false} LeadingSpaceField(t: string)
    requires t != [] && IsSpace(t[0])
    ensures FieldAt(t, 0) == []
  {
  }

  /** A negative field number selects field 0, as no skip is taken. */
  lemma {:induction false} NegativeField(t: string, k: int)
    requires k < 0
    ensures FieldAt(t, k) == FieldAt(t, 0)
  {
  }
}
