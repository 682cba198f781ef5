/**
 * The walk of refresh_proc_pidlist over the new pid list: every pid that
 * is neither cached nor met earlier in the list gets its label, built on
 * the 1024-byte stack buffer the loop shares between pids.
 *
 * The walk is stated over a label step, a function from a pid and the
 * buffer to the label and the buffer after it; Labels pins that step to
 * the label ladder of the Label module for the given cmdline and status
 * files.
 */
module PidWalk {
  import opened CString
  import opened Label
  import LabelFacts

  /** One label step: the label of a pid and the buffer left after it, or None. */
  type Labeller = (int, seq<char>) -> Option<(string, seq<char>)>

  /**
   * The label ladder for one pid on buffer c, with its files; None where it
   * is undefined. It gives what BuildLabel returns and leaves in the array,
   * the label is the C string that buffer holds, and the three rungs give what proc_pid.c:176-238 writes: the command
   * line behind the pid's prefix, and the exiting sentinel when neither the
   * command line nor the status name is there.
   */
  function LabelStep(p: int, cmd: Read, st: Read, c: seq<char>): (r: Option<(string, seq<char>)>)
    ensures r.Some? <==> Int32(p) && |c| == BufSize && LabelOf(p, cmd, st, c).Some?
    ensures r.Some? ==> Some(r.value.0) == LabelOf(p, cmd, st, c) && Some(r.value.1) == LabelBuffer(p, cmd, st, c)
    ensures r.Some? ==> |r.value.1| == BufSize && NUL in r.value.1 && r.value.0 == CStr(r.value.1)
    ensures Int32(p) && |c| == BufSize && cmd.Got? && Take(cmd.data, CmdlineMax) != [] ==>
      r.Some? && r.value.0 == Prefix(p)[..7] + CStr(CmdlineFix(Take(cmd.data, CmdlineMax)))
    ensures Int32(p) && |c| == BufSize && cmd.ReadFailed? ==> r.Some? && r.value.0 == Pad6(p) + Exiting
    ensures Int32(p) && |c| == BufSize && LabelFacts.CmdlineEmpty(cmd) && LabelFacts.StatusEmpty(st) ==>
      r.Some? && r.value.0 == Pad6(p) + Exiting
  {
    if Int32(p) && |c| == BufSize then
      Rungs(p, cmd, st, c);
      if LabelOf(p, cmd, st, c).Some? then Some((LabelOf(p, cmd, st, c).value, LabelBuffer(p, cmd, st, c).value))
      else None
    else None
  }

  /** What the ladder labels a pid with at each rung it can stop at. */
  lemma {:induction false} Rungs(p: int, cmd: Read, st: Read, c: seq<char>)
    requires Int32(p) && |c| == BufSize
    ensures cmd.Got? && Take(cmd.data, CmdlineMax) != [] ==>
      LabelOf(p, cmd, st, c) == Some(Prefix(p)[..7] + CStr(CmdlineFix(Take(cmd.data, CmdlineMax))))
    ensures cmd.ReadFailed? ==> LabelOf(p, cmd, st, c) == Some(Pad6(p) + Exiting)
    ensures LabelFacts.CmdlineEmpty(cmd) && LabelFacts.StatusEmpty(st) ==> LabelOf(p, cmd, st, c) == Some(Pad6(p) + Exiting)
  {
    if cmd.Got? && Take(cmd.data, CmdlineMax) != [] {
      LabelFacts.CmdlineLabel(p, cmd.data, st, c);
    }
    if cmd.ReadFailed? {
      LabelFacts.ExitingOnReadError(p, st, c);
    }
    if LabelFacts.CmdlineEmpty(cmd) && LabelFacts.StatusEmpty(st) {
      LabelFacts.ExitingOnNoName(p, cmd, st, c);
    }
  }

  /** step is the ladder over the cmdline and status files of each pid. */
  ghost predicate Labels(step: Labeller, cmdline: int -> Read, status: int -> Read) {
    forall p, c {:trigger LabelStep(p, cmdline(p), status(p), c)} :: step(p, c) == LabelStep(p, cmdline(p), status(p), c)
  }

  /** The files always give a step pinned to the ladder: the step the refresh requires exists. */
  lemma {:induction false} StepExists(cmdline: int -> Read, status: int -> Read)
    ensures exists step :: Labels(step, cmdline, status)
  {
    var step: Labeller := (p, c) => LabelStep(p, cmdline(p), status(p), c);
    assert Labels(step, cmdline, status);
  }

  /** The pids among the first j of the list that are not in known. */
  function NewAmong(known: set<int>, pids: seq<int>, j: nat): set<int>
    requires j <= |pids|
  {
    set i | 0 <= i < j && pids[i] !in known :: pids[i]
  }

  /**
   * The labels the walk builds for those of the first j listed pids that
   * are neither known (cached) nor seen earlier in the list, and the
   * buffer after them; None once a label step is undefined.
   */
  function Walk(known: set<int>, pids: seq<int>, step: Labeller, b: seq<char>, j: nat): (r: Option<(map<int, string>, seq<char>)>)
    requires j <= |pids|
    ensures r.Some? ==> r.value.0.Keys == NewAmong(known, pids, j)
  {
    if j == 0 then Some((map[], b))
    else match Walk(known, pids, step, b, j - 1)
      case None => None
      case Some((m, c)) =>
        var p := pids[j - 1];
        assert NewAmong(known, pids, j) == NewAmong(known, pids, j - 1) + (if p in known then {} else {p});
        if p in known || p in m then Some((m, c))
        else match step(p, c)
          case None => None
          case Some((name, c')) => Some((m[p := name], c'))
  }

  /** A walk that gets to the end gets through every prefix. */
  lemma {:induction false} WalkPrefix(known: set<int>, pids: seq<int>, step: Labeller, b: seq<char>, i: nat, j: nat)
    requires i <= j <= |pids|
    requires Walk(known, pids, step, b, j).Some?
    ensures Walk(known, pids, step, b, i).Some?
  {
    if i < j {
      WalkPrefix(known, pids, step, b, i, j - 1);
    }
  }

  /** A list whose pids are all known builds no label and leaves the buffer alone. */
  lemma {:induction false} WalkAllKnown(known: set<int>, pids: seq<int>, step: Labeller, b: seq<char>, j: nat)
    requires j <= |pids| && forall i :: 0 <= i < j ==> pids[i] in known
    ensures Walk(known, pids, step, b, j) == Some((map[], b))
  {
    if j > 0 {
      WalkAllKnown(known, pids, step, b, j - 1);
    }
  }

  /** The walk's step over a pid it has already seen or that is known. */
  lemma {:induction false} WalkSkips(known: set<int>, pids: seq<int>, step: Labeller, b0: seq<char>, i: nat, m: map<int, string>, b: seq<char>)
    requires i < |pids|
    requires Walk(known, pids, step, b0, i).Some? && Walk(known, pids, step, b0, i).value == (m, b)
    requires pids[i] in known || pids[i] in m
    ensures Walk(known, pids, step, b0, i + 1).Some? && Walk(known, pids, step, b0, i + 1).value == (m, b)
  {
  }

  /** The walk's step over a new pid: its label is the label step on the buffer. */
  lemma {:induction false} WalkLabels(known: set<int>, pids: seq<int>, step: Labeller, b0: seq<char>, i: nat, m: map<int, string>, b: seq<char>)
    requires i < |pids|
    requires Walk(known, pids, step, b0, i).Some? && Walk(known, pids, step, b0, i).value == (m, b)
    requires pids[i] !in known && pids[i] !in m
    requires Walk(known, pids, step, b0, i + 1).Some?
    ensures step(pids[i], b).Some?
    ensures Walk(known, pids, step, b0, i + 1).value == (m[pids[i] := step(pids[i], b).value.0], step(pids[i], b).value.1)
  {
  }

  /**
   * The label of a new pid, built on the shared buffer: the walk goes on
   * from the labels m and the buffer's contents to those with this label.
   */
  method LabelNew(ghost known: set<int>, pids: seq<int>, ghost step: Labeller, cmdline: int -> Read, status: int -> Read,
                  ghost b0: seq<char>, i: nat, ghost m: map<int, string>, buf: array<char>) returns (name: string)
    requires i < |pids| && buf.Length == BufSize && Labels(step, cmdline, status)
    requires Walk(known, pids, step, b0, i).Some? && Walk(known, pids, step, b0, i).value == (m, buf[..])
    requires pids[i] !in known && pids[i] !in m
    requires Walk(known, pids, step, b0, i + 1).Some?
    modifies buf
    ensures Walk(known, pids, step, b0, i + 1).value == (m[pids[i] := name], buf[..])
  {
    WalkLabels(known, pids, step, b0, i, m, buf[..]);
    var p := pids[i];
    assert LabelStep(p, cmdline(p), status(p), buf[..]) == step(p, buf[..]);
    name := BuildLabel(p, cmdline(p), status(p), buf);
  }
}
