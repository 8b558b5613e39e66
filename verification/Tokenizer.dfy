// The CR/LF tokenizer of the serial driver: scanLinesCRLF driven by bufio.Scanner.
module Tokenizer {
  import opened Prelude
  import opened Text

  const EOL: set<char> := {'\r', '\n'}

  // Limit handed to the scanner: a run of this many bytes without a line end is an error.
  const MAX_TOKEN: nat := 0x10_0000

  function NonEmpty(s: string): seq<string> {
    if s == "" then [] else [s]
  }

  // Reference: the non-empty maximal EOL-free runs of a whole stream, in order.
  function Lines(s: string): seq<string>
    decreases |s|
  {
    var n := Find(s, EOL);
    if n == |s| then NonEmpty(s) else NonEmpty(s[..n]) + Lines(s[n + 1..])
  }

  // The non-empty runs that a line end follows.
  function Complete(s: string): seq<string>
    decreases |s|
  {
    var n := Find(s, EOL);
    if n == |s| then [] else NonEmpty(s[..n]) + Complete(s[n + 1..])
  }

  // What comes after the last line end.
  function Rest(s: string): (r: string)
    ensures |r| <= |s|
    decreases |s|
  {
    var n := Find(s, EOL);
    if n == |s| then s else Rest(s[n + 1..])
  }

  lemma {:induction false} RestIsTail(s: string)
    ensures var r := Rest(s);
      r == s[|s| - |r|..] && Free(r, EOL) && (|r| < |s| ==> s[|s| - |r| - 1] in EOL)
    decreases |s|
  {
    hide *;
    var n := Find(s, EOL);
    RestUnfolds(s);
    if n < |s| {
      var t := s[n + 1..];
      RestIsTail(t);
      TailOfTail(s, n, Rest(t));
    }
  }

  lemma RestUnfolds(s: string)
    ensures var n := Find(s, EOL);
      && (n == |s| ==> Rest(s) == s && Free(s, EOL))
      && (n < |s| ==> s[n] in EOL && Rest(s) == Rest(s[n + 1..]))
  {
    hide FindFrom;
    FindFirst(s, 0, EOL);
  }

  lemma TailOfTail(s: string, n: nat, r: string)
    requires n < |s| && s[n] in EOL && |r| <= |s| - n - 1
    requires var t := s[n + 1..]; r == t[|t| - |r|..] && (|r| < |t| ==> t[|t| - |r| - 1] in EOL)
    ensures r == s[|s| - |r|..] && s[|s| - |r| - 1] in EOL
  {
    var t := s[n + 1..];
    assert |r| < |t| ==> t[|t| - |r| - 1] == s[|s| - |r| - 1];
  }

  // A window of the stream that is a line: no line end inside, one (or the border) on each side.
  ghost predicate IsRun(s: string, i: int, j: int) {
    && 0 <= i < j <= |s|
    && (forall x :: i <= x < j ==> s[x] != '\r' && s[x] != '\n')
    && (i == 0 || s[i - 1] == '\r' || s[i - 1] == '\n')
    && (j == |s| || s[j] == '\r' || s[j] == '\n')
  }

  // The k-th line of s starts here.
  ghost function Start(s: string, k: nat): (i: nat)
    requires k < |Lines(s)|
    decreases |s|
  {
    var n := Find(s, EOL);
    if n > 0 && k == 0 then 0
    else n + 1 + Start(s[n + 1..], if n > 0 then k - 1 else k)
  }

  lemma RunShift(s: string, d: nat, i: int, j: int)
    requires 0 < d <= |s| && s[d - 1] in EOL
    ensures IsRun(s[d..], i, j) <==> d <= i + d && IsRun(s, i + d, j + d)
  {
    var t := s[d..];
    assert forall x :: 0 <= x < |t| ==> t[x] == s[x + d];
    if d <= i + d && IsRun(s, i + d, j + d) {
      assert forall x :: i <= x < j ==> t[x] == s[x + d];
    }
    if IsRun(t, i, j) {
      forall x | i + d <= x < j + d
        ensures s[x] !in EOL
      {
        assert s[x] == t[x - d];
      }
    }
  }

  // Lines and their positions after the first line end.
  lemma LaterLine(s: string, t: string, d: nat, k: nat)
    requires var n := Find(s, EOL);
      n < |s| && t == s[n + 1..] && d == (if n > 0 then 1 else 0)
    requires k < |Lines(t)|
    ensures |Lines(s)| == d + |Lines(t)|
    ensures Lines(s)[k + d] == Lines(t)[k]
    ensures Start(s, k + d) == Find(s, EOL) + 1 + Start(t, k)
  {
  }

  // A line that starts the stream.
  lemma LeadingLine(s: string)
    requires Find(s, EOL) > 0
    ensures |Lines(s)| > 0 && Start(s, 0) == 0 && Lines(s)[0] == s[..Find(s, EOL)]
    ensures IsRun(s, 0, Find(s, EOL))
  {
    FindFirst(s, 0, EOL);
  }

  // Every element of Lines is a maximal run ...
  lemma {:induction false} LineIsRun(s: string, k: nat)
    requires k < |Lines(s)|
    ensures IsRun(s, Start(s, k), Start(s, k) + |Lines(s)[k]|)
    ensures Lines(s)[k] == s[Start(s, k)..Start(s, k) + |Lines(s)[k]|]
    decreases |s|
  {
    hide *;
    var n := Find(s, EOL);
    if n > 0 && k == 0 {
      LeadingLine(s);
    } else {
      var d := if n > 0 then 1 else 0;
      LaterIndex(s, k);
      var t := s[n + 1..];
      LineIsRun(t, k - d);
      LaterLine(s, t, d, k - d);
      LaterRun(s, n + 1, t, Start(t, k - d), Lines(t)[k - d]);
    }
  }

  lemma LaterIndex(s: string, k: nat)
    requires k < |Lines(s)| && (Find(s, EOL) == 0 || k > 0)
    ensures Find(s, EOL) < |s| && s[Find(s, EOL)] in EOL
    ensures k - (if Find(s, EOL) > 0 then 1 else 0) < |Lines(s[Find(s, EOL) + 1..])|
  {
    FindFirst(s, 0, EOL);
  }

  lemma LaterRun(s: string, d: nat, t: string, i: nat, line: string)
    requires 0 < d <= |s| && s[d - 1] in EOL && t == s[d..]
    requires IsRun(t, i, i + |line|) && line == t[i..i + |line|]
    ensures IsRun(s, d + i, d + i + |line|) && line == s[d + i..d + i + |line|]
  {
    RunShift(s, d, i, i + |line|);
    SliceShift(s, d, d + i, d + i + |line|);
    assert 0 <= i <= i + |line| <= |t|;
  }

  // ... they are listed from left to right ...
  lemma {:induction false} LinesOrdered(s: string, k: nat)
    requires k + 1 < |Lines(s)|
    ensures Start(s, k) + |Lines(s)[k]| < Start(s, k + 1)
    decreases |s|
  {
    hide *;
    var n := Find(s, EOL);
    var d := if n > 0 then 1 else 0;
    LaterIndex(s, k + 1);
    var t := s[n + 1..];
    LaterLine(s, t, d, k + 1 - d);
    if k >= d {
      LaterLine(s, t, d, k - d);
      LinesOrdered(t, k - d);
    } else {
      LeadingLine(s);
    }
  }

  // ... and no maximal run is missing.
  lemma {:induction false} RunIsLine(s: string, i: nat, j: nat) returns (k: nat)
    requires IsRun(s, i, j)
    ensures k < |Lines(s)| && Start(s, k) == i && Lines(s)[k] == s[i..j]
    decreases |s|
  {
    hide *;
    var n := Find(s, EOL);
    FirstRun(s, i, j);
    if i <= n {
      k := 0;
      LeadingLine(s);
    } else {
      var t := s[n + 1..];
      RunShift(s, n + 1, i - n - 1, j - n - 1);
      var k' := RunIsLine(t, i - n - 1, j - n - 1);
      var d := if n > 0 then 1 else 0;
      LaterLine(s, t, d, k');
      k := k' + d;
      SliceShift(s, n + 1, i, j);
    }
  }

  lemma FirstRun(s: string, i: nat, j: nat)
    requires IsRun(s, i, j)
    ensures i < j <= |s|
    ensures i <= Find(s, EOL) ==> i == 0 < j == Find(s, EOL)
    ensures i > Find(s, EOL) ==> s[Find(s, EOL)] in EOL
  {
    FindFirst(s, 0, EOL);
  }

  lemma SliceShift(s: string, d: nat, i: nat, j: nat)
    requires d <= i <= j <= |s|
    ensures s[d..][i - d..j - d] == s[i..j]
  {
  }

  lemma {:induction false} LinesSplit(s: string)
    ensures Lines(s) == Complete(s) + NonEmpty(Rest(s))
    decreases |s|
  {
    var n := Find(s, EOL);
    if n < |s| {
      var t := s[n + 1..];
      LinesSplit(t);
      assert Lines(s) == NonEmpty(s[..n]) + Lines(t);
      assert Complete(s) == NonEmpty(s[..n]) + Complete(t);
      assert Rest(s) == Rest(t);
    }
  }

  lemma CompleteCut(s: string)
    ensures Find(s, EOL) == |s| ==> Complete(s) == [] && Rest(s) == s
    ensures Find(s, EOL) < |s| ==> var n := Find(s, EOL);
      Complete(s) == NonEmpty(s[..n]) + Complete(s[n + 1..]) && Rest(s) == Rest(s[n + 1..])
  {
  }

  // Cutting off the first line.
  lemma FirstLine(line: string, sep: char, tail: string)
    requires Free(line, EOL) && sep in EOL
    ensures var s := line + [sep] + tail;
      && Lines(s) == NonEmpty(line) + Lines(tail)
      && Complete(s) == NonEmpty(line) + Complete(tail)
      && Rest(s) == Rest(tail)
  {
    var s := line + [sep] + tail;
    assert s == line + ([sep] + tail);
    FindAfter(line, [sep] + tail, EOL);
    assert s[|line| + 1..] == tail;
  }

  // Cutting a stream in two changes neither the finished lines nor the unfinished one.
  lemma {:induction false} SplitAnywhere(a: string, b: string)
    ensures Complete(a + b) == Complete(a) + Complete(Rest(a) + b)
    ensures Rest(a + b) == Rest(Rest(a) + b)
    decreases |a|
  {
    var n := Find(a, EOL);
    if n < |a| {
      FindFirst(a, 0, EOL);
      SplitAnywhere(a[n + 1..], b);
      SplitLater(a, a[..n], a[n], a[n + 1..], b);
    } else {
      assert Complete(a) == [] && Rest(a) == a;
    }
  }

  lemma SplitLater(a: string, line: string, sep: char, t: string, b: string)
    requires Free(line, EOL) && sep in EOL && a == line + [sep] + t
    requires Complete(t + b) == Complete(t) + Complete(Rest(t) + b)
    requires Rest(t + b) == Rest(Rest(t) + b)
    ensures Complete(a + b) == Complete(a) + Complete(Rest(a) + b)
    ensures Rest(a + b) == Rest(Rest(a) + b)
  {
    hide *;
    FirstLine(line, sep, t);
    FirstLine(line, sep, t + b);
    assert line + [sep] + (t + b) == a + b;
    assert NonEmpty(line) + (Complete(t) + Complete(Rest(a) + b)) == (NonEmpty(line) + Complete(t)) + Complete(Rest(a) + b);
  }

  lemma LineStart(sep: char, tail: string)
    requires sep in EOL
    ensures Lines("" + [sep] + tail) == Lines(tail)
  {
    hide Lines, Complete, Rest;
    FirstLine("", sep, tail);
    assert NonEmpty("") + Lines(tail) == Lines(tail);
  }

  lemma {:induction false} LeadingEol(eol: string, rest: string)
    requires forall i :: 0 <= i < |eol| ==> eol[i] in EOL
    ensures Lines(eol + rest) == Lines(rest)
  {
    hide *;
    if eol == "" {
      assert eol + rest == rest;
    } else {
      LeadingEol(eol[1..], rest);
      assert eol + rest == "" + [eol[0]] + (eol[1..] + rest);
      LineStart(eol[0], eol[1..] + rest);
    }
  }

  // A line followed by a non-empty CR/LF sequence, then more text.
  lemma LinesOfTerminated(line: string, eol: string, rest: string)
    requires line != "" && Free(line, EOL)
    requires eol != "" && forall i :: 0 <= i < |eol| ==> eol[i] in EOL
    ensures Lines(line + eol + rest) == [line] + Lines(rest)
  {
    LeadingEol(eol[1..], rest);
    assert line + eol + rest == line + [eol[0]] + (eol[1..] + rest);
    FirstLine(line, eol[0], eol[1..] + rest);
  }

  // The split function -----------------------------------------------------------------------

  method ScanLinesCRLF(data: string, atEOF: bool) returns (advance: nat, token: Option<string>)
    ensures token.Some? <==> Find(data, EOL) < |data| || (atEOF && data != "")
    ensures token.Some? ==> 0 < advance <= |data|
    ensures token.None? ==> advance == 0
    ensures token.Some? ==> token.value == data[..Find(data, EOL)]
    ensures token.Some? ==> forall i :: 0 <= i < |token.value| ==> token.value[i] != '\r' && token.value[i] != '\n'
    ensures token.Some? && |token.value| < |data| ==> data[|token.value|] == '\r' || data[|token.value|] == '\n'
    ensures token.None? && data != "" ==> forall i :: 0 <= i < |data| ==> data[i] != '\r' && data[i] != '\n'
    ensures token.Some? ==> advance == Find(data, EOL) + if Find(data, EOL) < |data| then 1 else 0
  {
    FindFirst(data, 0, EOL);
    if atEOF && |data| == 0 {
      return 0, None;
    }
    for i := 0 to |data|
      invariant Find(data, EOL) == FindFrom(data, i, EOL)
    {
      if data[i] in EOL {
        return i + 1, Some(data[..i]);
      }
    }
    assert data[..|data|] == data;
    if atEOF {
      return |data|, Some(data);
    }
    return 0, None;
  }

  // The scanner ------------------------------------------------------------------------------

  datatype Scan = Scan(buf: string, tooLong: bool)

  // One Read of the serial port: the lines it completes and the buffer it leaves.
  function ReadStep(st: Scan, chunk: string): (Scan, seq<string>)
    requires !st.tooLong
  {
    var data := st.buf + chunk;
    (Scan(Rest(data), |Rest(data)| >= MAX_TOKEN), Complete(data))
  }

  // The scanner never reads more than the free part of its buffer.
  ghost predicate Fits(st: Scan, chunks: seq<string>)
    decreases |chunks|
  {
    chunks == [] || st.tooLong ||
    (|st.buf| + |chunks[0]| <= MAX_TOKEN && Fits(ReadStep(st, chunks[0]).0, chunks[1..]))
  }

  // All lines up to and including end of stream; a token that is too long stops the scan.
  function ScanAll(st: Scan, chunks: seq<string>): (bool, seq<string>)
    decreases |chunks|
  {
    if st.tooLong then (true, [])
    else if chunks == [] then (false, NonEmpty(st.buf))
    else
      var (st', now) := ReadStep(st, chunks[0]);
      var (bad, later) := ScanAll(st', chunks[1..]);
      (bad, now + later)
  }

  ghost predicate RunAt(s: string, i: int) {
    0 <= i <= |s| - 0x10_0000 && forall x :: i <= x < i + 0x10_0000 ==> s[x] != '\r' && s[x] != '\n'
  }

  ghost predicate HasLongRun(s: string) {
    exists i :: RunAt(s, i)
  }

  // Over a prefix of the stream already read, a long run appears exactly when the buffer is full.
  lemma LongRunStep(p: string, chunk: string)
    requires !HasLongRun(p) && |Rest(p)| + |chunk| <= MAX_TOKEN
    ensures HasLongRun(p + chunk) <==> |Rest(p + chunk)| >= MAX_TOKEN
  {
    var s := p + chunk;
    if |Rest(s)| >= MAX_TOKEN {
      RestIsTail(s);
      LongTail(s, Rest(s));
    }
    if HasLongRun(s) {
      var i :| RunAt(s, i);
      LongRunFillsBuffer(p, chunk, i);
    }
  }

  lemma LongTail(s: string, r: string)
    requires MAX_TOKEN <= |r| <= |s| && r == s[|s| - |r|..] && Free(r, EOL)
    ensures HasLongRun(s)
  {
    var i := |s| - |r|;
    assert forall x :: i <= x < |s| ==> s[x] == r[x - i];
    assert RunAt(s, i);
  }

  lemma LongRunFillsBuffer(p: string, chunk: string, i: int)
    requires !HasLongRun(p) && |Rest(p)| + |chunk| <= MAX_TOKEN
    requires RunAt(p + chunk, i)
    ensures |Rest(p + chunk)| >= MAX_TOKEN
  {
    var s := p + chunk;
    var cut := |p| - |Rest(p)|;
    RestIsTail(p);
    if i < cut {
      assert s[cut - 1] == p[cut - 1];
      assert i + MAX_TOKEN <= |p|;
      assert forall x :: i <= x < i + MAX_TOKEN ==> s[x] == p[x];
      assert RunAt(p, i);
      assert false;
    }
    assert i == cut;
    var last := Rest(p) + chunk;
    assert last == s[i..];
    FindFirst(last, 0, EOL);
    assert Find(last, EOL) == |last|;
    SplitAnywhere(p, chunk);
  }

  lemma LongRunMonotone(p: string, q: string)
    requires HasLongRun(p)
    ensures HasLongRun(p + q)
  {
    var i :| RunAt(p, i);
    assert forall x :: i <= x < i + MAX_TOKEN ==> (p + q)[x] == p[x];
    assert RunAt(p + q, i);
  }

  // Main result. However the stream is cut into reads, the lines are those of the whole stream;
  // the scan fails exactly on streams with a run of MAX_TOKEN bytes, and then it has delivered
  // a prefix of those lines.
  lemma ChunkIndependence(chunks: seq<string>)
    requires Fits(Scan("", false), chunks)
    ensures ScanAll(Scan("", false), chunks).0 <==> HasLongRun(Flatten(chunks))
    ensures !HasLongRun(Flatten(chunks)) ==> ScanAll(Scan("", false), chunks).1 == Lines(Flatten(chunks))
    ensures ScanAll(Scan("", false), chunks).1 <= Lines(Flatten(chunks))
  {
    assert "" + Flatten(chunks) == Flatten(chunks);
    ChunksAfter("", chunks);
  }

  lemma {:induction false} ChunksAfter(p: string, chunks: seq<string>)
    requires !HasLongRun(p) && Fits(Scan(Rest(p), false), chunks)
    ensures var all := p + Flatten(chunks);
      var (bad, out) := ScanAll(Scan(Rest(p), false), chunks);
      && (bad <==> HasLongRun(all))
      && (!bad ==> Complete(p) + out == Lines(all))
      && Complete(p) + out <= Lines(all)
    decreases |chunks|
  {
    hide Lines, Complete, Rest, Find, FindFrom, HasLongRun, RunAt;
    if chunks == [] {
      assert p + Flatten(chunks) == p;
      LinesSplit(p);
    } else {
      var c, more := chunks[0], chunks[1..];
      var q := p + c;
      assert p + Flatten(chunks) == q + Flatten(more);
      SplitAnywhere(p, c);
      LongRunStep(p, c);
      var st' := Scan(Rest(q), |Rest(q)| >= MAX_TOKEN);
      assert ReadStep(Scan(Rest(p), false), c).0 == st';
      if st'.tooLong {
        assert ScanAll(st', more) == (true, []);
        LongRunMonotone(q, Flatten(more));
        SplitAnywhere(q, Flatten(more));
        LinesSplit(q + Flatten(more));
      } else {
        ChunksAfter(q, more);
      }
    }
  }

  // The scanner object of the read loop.
  class Scanner {
    var buf: string
    var tooLong: bool

    ghost function View(): Scan
      reads this
    {
      Scan(buf, tooLong)
    }

    // No token is left over between two reads.
    ghost predicate Valid()
      reads this
    {
      Find(buf, EOL) == |buf|
    }

    constructor ()
      ensures Valid() && View() == Scan("", false)
    {
      buf, tooLong := "", false;
    }

    // Takes in what one read returned and cuts off every token it completes. The read loop
    // passes on the non-empty tokens only.
    method Read(chunk: string) returns (lines: seq<string>)
      requires Valid() && !tooLong && |buf| + |chunk| <= MAX_TOKEN
      modifies this
      ensures Valid() && (View(), lines) == ReadStep(old(View()), chunk)
    {
      hide Complete, Rest, FindFrom;
      buf := buf + chunk;
      ghost var data := buf;
      lines := [];
      var advance, token := ScanLinesCRLF(buf, false);
      while token.Some?
        invariant Complete(data) == lines + Complete(buf) && Rest(data) == Rest(buf)
        invariant token.Some? <==> Find(buf, EOL) < |buf|
        invariant token.Some? ==> token.value == buf[..Find(buf, EOL)] && advance == Find(buf, EOL) + 1 <= |buf|
        decreases |buf|
      {
        CompleteCut(buf);
        if token.value != "" {
          lines := lines + [token.value];
        }
        buf := buf[advance..];
        advance, token := ScanLinesCRLF(buf, false);
      }
      CompleteCut(buf);
      assert lines + Complete(buf) == lines;
      tooLong := |buf| >= MAX_TOKEN;
      assert View() == ReadStep(old(View()), chunk).0;
    }

    // End of stream: an unterminated last line is still a token.
    method Finish() returns (lines: seq<string>)
      requires Valid() && !tooLong
      ensures lines == ScanAll(View(), []).1
    {
      var _, token := ScanLinesCRLF(buf, true);
      lines := if token.Some? then NonEmpty(token.value) else [];
      assert buf[..|buf|] == buf;
    }
  }
}
