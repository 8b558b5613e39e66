// The string operations of the Go library that the parsers rely on. A Go string is a sequence of
// bytes; it is modelled as a `string` with one character per byte.
module Text {
  import opened Prelude

  const BLANKS: set<char> := {' ', '\t', '\n', '\U{0B}', '\U{0C}', '\r'}

  // Position of the first character of s that belongs to stop, or |s| when there is none.
  function Find(s: string, stop: set<char>): (n: nat)
    ensures n <= |s|
  {
    FindFrom(s, 0, stop)
  }

  function FindFrom(s: string, from: nat, stop: set<char>): (n: nat)
    requires from <= |s|
    ensures from <= n <= |s|
    decreases |s| - from
  {
    if from == |s| || s[from] in stop then from else FindFrom(s, from + 1, stop)
  }

  predicate Free(s: string, stop: set<char>) {
    forall i :: 0 <= i < |s| ==> s[i] !in stop
  }

  lemma {:induction false} FindFirst(s: string, from: nat, stop: set<char>)
    requires from <= |s|
    ensures var n := FindFrom(s, from, stop);
      (forall i :: from <= i < n ==> s[i] !in stop) && (n < |s| ==> s[n] in stop)
    decreases |s| - from
  {
    if from < |s| && s[from] !in stop {
      FindFirst(s, from + 1, stop);
    }
  }

  // A stop character right after a stop-free prefix is the first one.
  lemma FindAfter(w: string, rest: string, stop: set<char>)
    requires Free(w, stop)
    requires rest == "" || rest[0] in stop
    ensures Find(w + rest, stop) == |w|
    ensures (w + rest)[..|w|] == w && (w + rest)[|w|..] == rest
  {
    FindFirst(w + rest, 0, stop);
    assert forall i :: 0 <= i < |w| ==> (w + rest)[i] == w[i];
    if rest != "" {
      assert (w + rest)[|w|] == rest[0];
    }
  }

  function TrimLeft(s: string): string {
    if s != "" && s[0] in BLANKS then TrimLeft(s[1..]) else s
  }

  function TrimRight(s: string): string {
    if s != "" && s[|s| - 1] in BLANKS then TrimRight(s[..|s| - 1]) else s
  }

  function TrimSpace(s: string): string {
    TrimRight(TrimLeft(s))
  }

  predicate AllBlank(s: string) {
    forall i :: 0 <= i < |s| ==> s[i] in BLANKS
  }

  // Neither the first nor the last character is white space.
  predicate Trimmed(s: string) {
    s == "" || (s[0] !in BLANKS && s[|s| - 1] !in BLANKS)
  }

  lemma {:induction false} TrimLeftPad(pad: string, s: string)
    requires AllBlank(pad) && Trimmed(s)
    ensures TrimLeft(pad + s) == s
  {
    if pad == "" {
      assert pad + s == s;
    } else {
      assert (pad + s)[0] == pad[0] && (pad + s)[1..] == pad[1..] + s;
      TrimLeftPad(pad[1..], s);
    }
  }

  lemma {:induction false} TrimRightPad(s: string, pad: string)
    requires AllBlank(pad) && Trimmed(s)
    ensures TrimRight(s + pad) == s
  {
    if pad == "" {
      assert s + pad == s;
    } else {
      var t := s + pad;
      assert t[|t| - 1] == pad[|pad| - 1] && t[..|t| - 1] == s + pad[..|pad| - 1];
      TrimRightPad(s, pad[..|pad| - 1]);
    }
  }

  // Trimming removes exactly the surrounding white space.
  lemma TrimPadded(left: string, s: string, right: string)
    requires AllBlank(left) && AllBlank(right) && Trimmed(s)
    ensures TrimSpace(left + s + right) == s
  {
    if s == "" {
      assert left + s + right == (left + right) + "";
      TrimLeftPad(left + right, "");
    } else {
      TrimLeftAny(left, s + right);
      assert left + s + right == left + (s + right);
      TrimRightPad(s, right);
    }
  }

  lemma {:induction false} TrimLeftAny(pad: string, s: string)
    requires AllBlank(pad) && s != "" && s[0] !in BLANKS
    ensures TrimLeft(pad + s) == s
  {
    if pad == "" {
      assert pad + s == s;
    } else {
      assert (pad + s)[0] == pad[0] && (pad + s)[1..] == pad[1..] + s;
      TrimLeftAny(pad[1..], s);
    }
  }

  // strings.Fields: the maximal blank-free runs.
  function Fields(s: string): seq<string>
    decreases |s|
  {
    if s == "" then []
    else if s[0] in BLANKS then Fields(s[1..])
    else var n := Find(s, BLANKS); [s[..n]] + Fields(s[n..])
  }

  predicate IsWord(w: string) {
    w != "" && Free(w, BLANKS)
  }

  // strings.Join
  function Join(words: seq<string>, sep: string): string {
    if words == [] then ""
    else if |words| == 1 then words[0]
    else words[0] + sep + Join(words[1..], sep)
  }

  function TrimPrefix(s: string, prefix: string): string {
    if prefix <= s then s[|prefix|..] else s
  }

  lemma FieldsCons(w: string, tail: string)
    requires IsWord(w) && (tail == "" || tail[0] in BLANKS)
    ensures Fields(w + tail) == [w] + Fields(tail)
  {
    FindAfter(w, tail, BLANKS);
    assert (w + tail)[0] == w[0];
  }

  // White space is these six characters: they are trimmed and separate words, and no other does.
  lemma WhiteSpace(v: string, w: string, c: char)
    requires IsWord(v) && IsWord(w)
    ensures c in BLANKS <==> c == ' ' || c == '\t' || c == '\n' || c == '\r' || c == '\U{0B}' || c == '\U{0C}'
    ensures c == ' ' || c == '\t' || c == '\n' || c == '\r' || c == '\U{0B}' || c == '\U{0C}' ==>
      TrimSpace([c] + v + [c]) == v && Fields(v + [c] + w) == [v, w]
  {
    hide FindFrom, TrimLeft, TrimRight, Fields;
    if c in BLANKS {
      TrimPadded([c], v, [c]);
      FieldsCons(v, [c] + w);
      FieldsCons(w, "");
      FieldsTail([]);
      FieldsBlank(c, w);
      assert v + [c] + w == v + ([c] + w) && w + "" == w;
    }
  }

  lemma FieldsBlank(c: char, w: string)
    requires c in BLANKS
    ensures Fields([c] + w) == Fields(w)
  {
    assert ([c] + w)[1..] == w;
  }

  // Splitting at white space undoes joining words with spaces.
  lemma {:induction false} FieldsJoin(words: seq<string>)
    requires forall i :: 0 <= i < |words| ==> IsWord(words[i])
    ensures Fields(Join(words, " ")) == words
  {
    if words != [] {
      hide Fields;
      var w, more := words[0], words[1..];
      FieldsJoin(more);
      var tail := if more == [] then "" else " " + Join(more, " ");
      FieldsCons(w, tail);
      assert Join(words, " ") == w + tail;
      FieldsTail(more);
    }
  }

  lemma FieldsTail(words: seq<string>)
    ensures words != [] ==> Fields(" " + Join(words, " ")) == Fields(Join(words, " "))
    ensures Fields("") == []
  {
    if words != [] {
      var s := " " + Join(words, " ");
      assert s[1..] == Join(words, " ");
    }
  }

  lemma {:induction false} JoinTrimmed(ws: seq<string>)
    requires ws != [] && forall i :: 0 <= i < |ws| ==> IsWord(ws[i])
    ensures Join(ws, " ") != "" && Trimmed(Join(ws, " "))
  {
    assert IsWord(ws[0]);
    if |ws| > 1 {
      JoinTrimmed(ws[1..]);
    }
  }

  // Hexadecimal text ---------------------------------------------------------------------------

  function HexDigit(n: nat): (c: char)
    requires n < 16
  {
    if n < 10 then ('0' as int + n) as char else ('A' as int + (n - 10)) as char
  }

  function HexValue(c: char): (v: Option<nat>)
    ensures v.Some? ==> v.value < 16
  {
    if '0' <= c <= '9' then Some(c as int - '0' as int)
    else if 'A' <= c <= 'F' then Some(c as int - 'A' as int + 10)
    else if 'a' <= c <= 'f' then Some(c as int - 'a' as int + 10)
    else None
  }

  predicate AllHex(s: string) {
    forall i :: 0 <= i < |s| ==> HexValue(s[i]).Some?
  }

  lemma HexDigitValue(n: nat)
    requires n < 16
    ensures HexValue(HexDigit(n)) == Some(n)
    ensures HexDigit(n) !in BLANKS && HexDigit(n) != ':'
  {
  }

  // Digits are printed in upper case and read in both cases, and nothing else is a digit.
  lemma HexDigits(n: nat, c: char)
    requires n < 16
    ensures HexDigit(n) == "0123456789ABCDEF"[n]
    ensures HexValue("0123456789ABCDEF"[n]) == Some(n) && HexValue("0123456789abcdef"[n]) == Some(n)
    ensures HexValue(c).Some? ==> c in "0123456789ABCDEFabcdef"
  {
    assert "0123456789ABCDEF"[n] == HexDigit(n);
    if v :| HexValue(c) == Some(v) {
      var all := "0123456789ABCDEFabcdef";
      assert c == (if c <= '9' then all[v] else if c <= 'F' then all[v] else all[v + 6]);
    }
  }

  // Value of a hexadecimal numeral of any length.
  function HexNat(s: string): nat
    requires AllHex(s)
  {
    if s == "" then 0 else 16 * HexNat(s[..|s| - 1]) + HexValue(s[|s| - 1]).value
  }

  // strconv.ParseUint(s, 16, bits), with limit == 2^bits.
  function ParseUint(s: string, limit: nat): (r: Option<nat>)
    ensures r.Some? ==> r.value < limit
  {
    if s != "" && AllHex(s) && HexNat(s) < limit then Some(HexNat(s)) else None
  }

  // The %0<width>X verb for numbers that fit the width.
  function HexUpper(n: nat, width: nat): (s: string)
    ensures |s| == width
  {
    if width == 0 then "" else HexUpper(n / 16, width - 1) + [HexDigit(n % 16)]
  }

  function Pow16(k: nat): (p: nat)
    ensures p > 0
  {
    if k == 0 then 1 else 16 * Pow16(k - 1)
  }

  lemma {:induction false} HexUpperValue(n: nat, width: nat)
    requires n < Pow16(width)
    ensures AllHex(HexUpper(n, width)) && HexNat(HexUpper(n, width)) == n
    ensures Free(HexUpper(n, width), BLANKS) && Free(HexUpper(n, width), {':'})
  {
    if width > 0 {
      HexUpperValue(n / 16, width - 1);
      HexDigitValue(n % 16);
      var s := HexUpper(n, width);
      assert s[..width - 1] == HexUpper(n / 16, width - 1);
    }
  }

  // hex.DecodeString
  function HexDecode(s: string): Option<seq<byte>> {
    if s == "" then Some([])
    else if |s| == 1 || HexValue(s[0]).None? || HexValue(s[1]).None? then None
    else
      var b := HexValue(s[0]).value * 16 + HexValue(s[1]).value;
      match HexDecode(s[2..])
      case None => None
      case Some(rest) => Some([b] + rest)
  }

  function HexBytes(b: seq<byte>): (s: string)
    ensures |s| == 2 * |b|
  {
    if b == [] then "" else [HexDigit(b[0] / 16), HexDigit(b[0] % 16)] + HexBytes(b[1..])
  }

  // Printing bytes in hexadecimal and decoding them again gives the bytes back.
  lemma {:induction false} HexRoundTrip(b: seq<byte>)
    ensures HexDecode(HexBytes(b)) == Some(b)
    ensures Free(HexBytes(b), BLANKS)
  {
    if b != [] {
      HexRoundTrip(b[1..]);
      HexDigitValue(b[0] / 16);
      HexDigitValue(b[0] % 16);
      assert HexBytes(b)[2..] == HexBytes(b[1..]);
      assert [b[0]] + b[1..] == b;
    }
  }

  // A text that decodes is made of hexadecimal digits only, two for each byte.
  lemma {:induction false} HexDecodeShape(s: string)
    requires HexDecode(s).Some?
    ensures |s| == 2 * |HexDecode(s).value| && AllHex(s) && Free(s, BLANKS)
  {
    if s != "" {
      HexDecodeShape(s[2..]);
      assert forall i :: 2 <= i < |s| ==> s[i] == s[2..][i - 2];
    }
  }

  // Any other text is no bytes.
  lemma {:induction false} HexDecodes(s: string)
    requires AllHex(s) && |s| % 2 == 0
    ensures HexDecode(s).Some?
  {
    if s != "" {
      assert forall i :: 0 <= i < |s[2..]| ==> s[2..][i] == s[i + 2];
      HexDecodes(s[2..]);
    }
  }

  // Bytes appended to a text, one character for each byte.
  function Chars(b: seq<byte>): (s: string)
    ensures |s| == |b|
    ensures forall i :: 0 <= i < |b| ==> s[i] == b[i] as char
  {
    seq(|b|, i requires 0 <= i < |b| => b[i] as char)
  }

  function Codes(s: string): (b: seq<int>)
    ensures |b| == |s|
    ensures forall i :: 0 <= i < |s| ==> b[i] == s[i] as int
  {
    seq(|s|, i requires 0 <= i < |s| => s[i] as int)
  }

  // Decimal text -------------------------------------------------------------------------------

  // The %d verb.
  function Decimal(n: nat): (s: string)
    ensures s != ""
  {
    if n < 10 then [(n + '0' as nat) as char] else Decimal(n / 10) + Decimal(n % 10)
  }

  predicate AllDecimal(s: string) {
    forall i :: 0 <= i < |s| ==> '0' <= s[i] <= '9'
  }

  function DecimalNat(s: string): nat
    requires AllDecimal(s)
  {
    if s == "" then 0 else 10 * DecimalNat(s[..|s| - 1]) + (s[|s| - 1] as nat - '0' as nat)
  }

  lemma {:induction false} DecimalValue(n: nat)
    ensures AllDecimal(Decimal(n)) && DecimalNat(Decimal(n)) == n && IsWord(Decimal(n))
  {
    if n >= 10 {
      DecimalValue(n / 10);
      OneDigit(n % 10);
      MoreDigits(Decimal(n / 10), n % 10);
    } else {
      OneDigit(n);
    }
  }

  lemma OneDigit(n: nat)
    requires n < 10
    ensures Decimal(n) == [(n + '0' as nat) as char]
    ensures AllDecimal(Decimal(n)) && DecimalNat(Decimal(n)) == n && IsWord(Decimal(n))
  {
    assert Decimal(n)[..0] == "";
  }

  lemma MoreDigits(front: string, n: nat)
    requires n < 10 && AllDecimal(front) && IsWord(front)
    ensures var s := front + [(n + '0' as nat) as char];
      AllDecimal(s) && DecimalNat(s) == 10 * DecimalNat(front) + n && IsWord(s)
  {
    var s := front + [(n + '0' as nat) as char];
    assert s[..|s| - 1] == front;
  }
}
