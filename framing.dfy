/** Newline framing of a byte stream (server recv_loop, client network_reader):
    the receive buffer is split at each `\n`; the text after the last newline
    stays buffered until more bytes arrive. */
module Framing {
  import opened Values

  predicate NoNewline(s: seq<byte>) {
    NEWLINE !in s
  }

  /** Index of the first newline. */
  function FirstNewline(s: seq<byte>): (i: nat)
    requires NEWLINE in s
    ensures i < |s| && s[i] == NEWLINE && NoNewline(s[..i])
  {
    if s[0] == NEWLINE then 0
    else
      var k := FirstNewline(s[1..]);
      assert s[..k + 1] == [s[0]] + s[1..][..k];
      k + 1
  }

  /** `buffer.split(b'\n', 1)`: the text before the first newline and the text after it. */
  function SplitOnce(s: seq<byte>): (r: (seq<byte>, seq<byte>))
    requires NEWLINE in s
    ensures NoNewline(r.0)
    ensures r.0 + [NEWLINE] + r.1 == s
    ensures |r.1| < |s|
  {
    var i := FirstNewline(s);
    assert s[..i] + [NEWLINE] + s[i + 1..] == s;
    (s[..i], s[i + 1..])
  }

  /** The bytes that a sequence of framed lines occupies on the wire. */
  function Join(lines: seq<seq<byte>>): seq<byte> {
    if lines == [] then [] else lines[0] + [NEWLINE] + Join(lines[1..])
  }

  predicate AllLines(lines: seq<seq<byte>>) {
    forall k :: 0 <= k < |lines| ==> NoNewline(lines[k])
  }

  /** Every complete line of `buf`, in order, and the incomplete remainder:
      what repeatedly splitting at the first newline produces. */
  function SplitLines(buf: seq<byte>): (seq<seq<byte>>, seq<byte>)
    decreases |buf|
  {
    if NEWLINE !in buf then ([], buf)
    else
      var (line, rest) := SplitOnce(buf);
      var (more, tail) := SplitLines(rest);
      ([line] + more, tail)
  }

  /** What splitting produces: newline-free lines and remainder that,
      re-joined, give back exactly the bytes received. */
  lemma {:induction false} SplitLinesSound(buf: seq<byte>)
    ensures AllLines(SplitLines(buf).0)
    ensures NoNewline(SplitLines(buf).1)
    ensures Join(SplitLines(buf).0) + SplitLines(buf).1 == buf
    decreases |buf|
  {
    if NEWLINE in buf {
      var (line, rest) := SplitOnce(buf);
      SplitLinesSound(rest);
      var (more, tail) := SplitLines(rest);
      assert ([line] + more)[1..] == more;
      assert Join([line] + more) == line + [NEWLINE] + Join(more);
    }
  }

  lemma {:induction false} NewlineAt(a: seq<byte>, b: seq<byte>)
    requires NoNewline(a)
    ensures NEWLINE in a + [NEWLINE] + b
    ensures SplitOnce(a + [NEWLINE] + b) == (a, b)
  {
    var s := a + [NEWLINE] + b;
    assert s[|a|] == NEWLINE;
    assert s[..|a|] == a;
    var i := FirstNewline(s);
    assert i == |a|;
    assert s[i + 1..] == b;
  }

  /** Splitting is the only decomposition into newline-free lines and a
      newline-free remainder: the two directions of the framing contract. */
  lemma {:induction false} SplitLinesUnique(lines: seq<seq<byte>>, rest: seq<byte>)
    requires AllLines(lines) && NoNewline(rest)
    ensures SplitLines(Join(lines) + rest) == (lines, rest)
  {
    if lines == [] {
      assert Join(lines) + rest == rest;
    } else {
      var tail := lines[1..];
      JoinCons(lines, rest);
      SplitLinesCons(lines[0], Join(tail) + rest);
      AllLinesTail(lines);
      SplitLinesUnique(tail, rest);
      assert [lines[0]] + tail == lines;
    }
  }

  /** The first line of a non-empty join comes off the front. */
  lemma JoinCons(lines: seq<seq<byte>>, rest: seq<byte>)
    requires lines != []
    ensures Join(lines) + rest == lines[0] + [NEWLINE] + (Join(lines[1..]) + rest)
  {
    assert Join(lines) == lines[0] + [NEWLINE] + Join(lines[1..]);
  }

  /** The lines after the first are newline-free too. */
  lemma AllLinesTail(lines: seq<seq<byte>>)
    requires AllLines(lines) && lines != []
    ensures AllLines(lines[1..])
  {
    forall k | 0 <= k < |lines| - 1 ensures NoNewline(lines[1..][k]) {
      assert lines[1..][k] == lines[k + 1];
    }
  }

  /** A newline-free line and its newline come off the front first. */
  lemma SplitLinesCons(line: seq<byte>, after: seq<byte>)
    requires NoNewline(line)
    ensures SplitLines(line + [NEWLINE] + after) == ([line] + SplitLines(after).0, SplitLines(after).1)
  {
    NewlineAt(line, after);
  }

  lemma {:induction false} JoinAppend(a: seq<seq<byte>>, b: seq<seq<byte>>)
    ensures Join(a + b) == Join(a) + Join(b)
  {
    if a != [] {
      assert (a + b)[1..] == a[1..] + b;
      JoinAppend(a[1..], b);
    } else {
      assert a + b == b;
    }
  }

  /** Bytes that arrive in pieces frame as if they had arrived at once: the
      lines of `a + b` are the lines of `a` followed by the lines of the
      buffered remainder of `a` extended by `b`. */
  lemma {:induction false} SplitLinesAppend(a: seq<byte>, b: seq<byte>)
    ensures SplitLines(a + b).0 == SplitLines(a).0 + SplitLines(SplitLines(a).1 + b).0
    ensures SplitLines(a + b).1 == SplitLines(SplitLines(a).1 + b).1
  {
    var (la, ra) := SplitLines(a);
    var (lb, rb) := SplitLines(ra + b);
    SplitLinesSound(a);
    SplitLinesSound(ra + b);
    Regroup(a, b, la, ra, lb, rb);
    AllLinesAppend(la, lb);
    SplitLinesUnique(la + lb, rb);
  }

  lemma Regroup(a: seq<byte>, b: seq<byte>, la: seq<seq<byte>>, ra: seq<byte>, lb: seq<seq<byte>>, rb: seq<byte>)
    requires Join(la) + ra == a && Join(lb) + rb == ra + b
    ensures Join(la + lb) + rb == a + b
  {
    JoinAppend(la, lb);
    assert Join(la + lb) + rb == Join(la) + (Join(lb) + rb);
    assert Join(la) + (ra + b) == (Join(la) + ra) + b;
  }

  lemma AllLinesAppend(a: seq<seq<byte>>, b: seq<seq<byte>>)
    requires AllLines(a) && AllLines(b)
    ensures AllLines(a + b)
  {
    forall k | 0 <= k < |a + b| ensures NoNewline((a + b)[k]) {
      if k < |a| { assert (a + b)[k] == a[k]; } else { assert (a + b)[k] == b[k - |a|]; }
    }
  }
}
