// The property map of EPC 0x9F (ECHONET Lite Specification, Part II, Appendix 1).
module PropertyMap {
  import opened Prelude

  datatype MapError = Empty | ShortTruncated | LongTruncated

  function Pow2(n: nat): (p: nat)
    ensures p > 0
  {
    if n == 0 then 1 else 2 * Pow2(n - 1)
  }

  // Bit i of b, counted from the low end.
  predicate Bit(b: nat, i: nat) {
    if i == 0 then b % 2 == 1 else Bit(b / 2, i - 1)
  }

  // The code a set bit stands for: byte index in the low nibble, bit index plus eight above.
  function Code(i: nat, bit: nat): byte
    requires i < 16 && bit < 8
  {
    (bit + 8) * 16 + i
  }

  // Decoding -----------------------------------------------------------------------------------

  function ListedCodes(codes: seq<byte>): set<byte> {
    set i | 0 <= i < |codes| :: codes[i]
  }

  function MaskedCodes(mask: seq<byte>): set<byte>
    requires |mask| == 16
  {
    set i, bit | 0 <= i < 16 && 0 <= bit < 8 && Bit(mask[i], bit) :: Code(i, bit)
  }

  function Decoded(edt: seq<byte>): Result<set<byte>, MapError> {
    if |edt| < 1 then Err(Empty)
    else
      var n: nat := edt[0];
      if n <= 15 then (if |edt| < 1 + n then Err(ShortTruncated) else Ok(ListedCodes(edt[1..1 + n])))
      else if |edt| < 17 then Err(LongTruncated)
      else Ok(MaskedCodes(edt[1..17]))
  }

  // Bit number k of a byte, by its weight.
  lemma BitWeight(b: byte, k: nat)
    requires k < 8
    ensures Bit(b, k) <==> (b / [1, 2, 4, 8, 16, 32, 64, 128][k]) % 2 == 1
  {
    hide Bit;
    Halves(b);
    LowBit(b / [1, 2, 4, 8, 16, 32, 64, 128][k]);
    if k > 0 { BitDown(b, k); }
    if k > 1 { BitDown(b / 2, k - 1); }
    if k > 2 { BitDown(b / 4, k - 2); }
    if k > 3 { BitDown(b / 8, k - 3); }
    if k > 4 { BitDown(b / 16, k - 4); }
    if k > 5 { BitDown(b / 32, k - 5); }
    if k > 6 { BitDown(b / 64, k - 6); }
  }

  lemma LowBit(b: nat)
    ensures Bit(b, 0) <==> b % 2 == 1
  {
  }

  lemma BitDown(b: nat, k: nat)
    requires k > 0
    ensures Bit(b, k) == Bit(b / 2, k - 1)
  {
  }

  lemma Halves(b: nat)
    ensures b / 2 / 2 == b / 4 && b / 4 / 2 == b / 8 && b / 8 / 2 == b / 16
    ensures b / 16 / 2 == b / 32 && b / 32 / 2 == b / 64 && b / 64 / 2 == b / 128
  {
  }

  // What is refused and why.
  lemma RefusedMaps(edt: seq<byte>)
    ensures |edt| == 0 ==> Decoded(edt) == Err(Empty)
    ensures |edt| > 0 && edt[0] <= 15 && |edt| - 1 < edt[0] as int ==> Decoded(edt) == Err(ShortTruncated)
    ensures |edt| > 0 && edt[0] > 15 && |edt| < 17 ==> Decoded(edt) == Err(LongTruncated)
    ensures |edt| > 0 && (if edt[0] <= 15 then |edt| - 1 >= edt[0] as int else |edt| >= 17) ==> Decoded(edt).Ok?
  {
    hide ListedCodes, MaskedCodes;
  }

  method DecodeGetPropertyMap(edt: seq<byte>) returns (r: Result<set<byte>, MapError>)
    ensures r == Decoded(edt)
  {
    if |edt| < 1 {
      return Err(Empty);
    }
    var n: nat := edt[0];
    var out: set<byte> := {};
    if n <= 15 {
      if |edt| < 1 + n {
        return Err(ShortTruncated);
      }
      var codes := edt[1..1 + n];
      for k := 0 to n
        invariant out == ListedCodes(codes[..k])
      {
        assert codes[..k + 1] == codes[..k] + [codes[k]];
        out := out + {codes[k]};
        assert forall x :: x in ListedCodes(codes[..k + 1]) <==> x in ListedCodes(codes[..k]) || x == codes[k];
      }
      assert codes[..n] == codes;
      return Ok(out);
    }
    if |edt| < 17 {
      return Err(LongTruncated);
    }
    hide Bit, Code;
    var mask := edt[1..17];
    for i := 0 to 16
      invariant out == set j, bit | 0 <= j < i && 0 <= bit < 8 && Bit(mask[j], bit) :: Code(j, bit)
    {
      for b := 0 to 8
        invariant out == (set j, bit | 0 <= j < i && 0 <= bit < 8 && Bit(mask[j], bit) :: Code(j, bit))
          + (set bit | 0 <= bit < b && Bit(mask[i], bit) :: Code(i, bit))
      {
        if Bit(mask[i], b) {
          out := out + {Code(i, b)};
        }
      }
    }
    assert forall e: byte :: e in out <==> e in MaskedCodes(mask);
    assert out == MaskedCodes(mask);
    return Ok(out);
  }

  // Encoding, as the meter has to do it ---------------------------------------------------------

  predicate IsMappable(s: set<byte>) {
    forall e :: e in s ==> 0x80 <= e
  }

  // The bits from the given one upwards.
  function MaskFrom(s: set<byte>, i: nat, bit: nat): (v: nat)
    requires i < 16 && bit <= 8
    ensures v < Pow2(8 - bit)
    decreases 8 - bit
  {
    if bit == 8 then 0 else (if Code(i, bit) in s then 1 else 0) + 2 * MaskFrom(s, i, bit + 1)
  }

  function MaskByte(s: set<byte>, i: nat): byte
    requires i < 16
  {
    assert Pow2(8) == 256 by {
      assert Pow2(4) == 16;
    }
    MaskFrom(s, i, 0)
  }

  function Mask(s: set<byte>): (m: seq<byte>)
    ensures |m| == 16
  {
    seq(16, i requires 0 <= i < 16 => MaskByte(s, i))
  }

  lemma {:induction false} BitOfMask(s: set<byte>, i: nat, from: nat, bit: nat)
    requires i < 16 && from + bit < 8
    ensures Bit(MaskFrom(s, i, from), bit) <==> Code(i, from + bit) in s
    decreases bit
  {
    hide Code, Pow2;
    if bit > 0 {
      BitOfMask(s, i, from + 1, bit - 1);
      assert MaskFrom(s, i, from) / 2 == MaskFrom(s, i, from + 1);
    }
  }

  // The mask byte holds exactly the bits of the members.
  lemma MaskBits(s: set<byte>, i: nat, bit: nat)
    requires i < 16 && bit < 8
    ensures Bit(MaskByte(s, i), bit) <==> Code(i, bit) in s
  {
    hide Code, Pow2, MaskFrom, Bit;
    BitOfMask(s, i, 0, bit);
  }

  // A number is determined by its bits.
  lemma {:induction false} SameBits(x: nat, y: nat, n: nat)
    requires x < Pow2(n) && y < Pow2(n)
    requires forall bit :: 0 <= bit < n ==> (Bit(x, bit) <==> Bit(y, bit))
    ensures x == y
    decreases n
  {
    if n > 0 {
      forall bit | 0 <= bit < n - 1
        ensures Bit(x / 2, bit) <==> Bit(y / 2, bit)
      {
        assert Bit(x, bit + 1) == Bit(y, bit + 1);
      }
      SameBits(x / 2, y / 2, n - 1);
      assert Bit(x, 0) == Bit(y, 0);
    }
  }

  // Positions in the bitmap and codes from 0x80 up correspond one to one.
  lemma CodeBijection(i: nat, bit: nat, e: byte)
    requires i < 16 && bit < 8 && 0x80 <= e
    ensures 0x80 <= Code(i, bit)
    ensures Code(i, bit) == e <==> i == e % 16 && bit == e / 16 - 8
  {
  }

  lemma DecodedMask(s: set<byte>)
    requires IsMappable(s)
    ensures MaskedCodes(Mask(s)) == s
  {
    hide MaskByte, Bit;
    forall e: byte
      ensures e in MaskedCodes(Mask(s)) <==> e in s
    {
      if e in s {
        var i, bit := e % 16, e / 16 - 8;
        CodeBijection(i, bit, e);
        MaskBits(s, i, bit);
        assert Bit(Mask(s)[i], bit) && Code(i, bit) == e;
      }
      if e in MaskedCodes(Mask(s)) {
        var i, bit :| 0 <= i < 16 && 0 <= bit < 8 && Bit(Mask(s)[i], bit) && Code(i, bit) == e;
        MaskBits(s, i, bit);
      }
    }
  }

  lemma EncodedMask(mask: seq<byte>)
    requires |mask| == 16
    ensures IsMappable(MaskedCodes(mask)) && Mask(MaskedCodes(mask)) == mask
  {
    hide MaskByte, Bit;
    var s := MaskedCodes(mask);
    forall i | 0 <= i < 16
      ensures Mask(s)[i] == mask[i]
    {
      forall bit | 0 <= bit < 8
        ensures Bit(MaskByte(s, i), bit) <==> Bit(mask[i], bit)
      {
        MaskBits(s, i, bit);
        MemberIsBit(mask, i, bit);
      }
      assert Pow2(8) == 256 by {
        assert Pow2(4) == 16;
      }
      SameBits(MaskByte(s, i), mask[i], 8);
    }
  }

  lemma MemberIsBit(mask: seq<byte>, i: nat, bit: nat)
    requires |mask| == 16 && i < 16 && bit < 8
    ensures Code(i, bit) in MaskedCodes(mask) <==> Bit(mask[i], bit)
  {
    hide Bit;
    if Code(i, bit) in MaskedCodes(mask) {
      var j, b :| 0 <= j < 16 && 0 <= b < 8 && Bit(mask[j], b) && Code(j, b) == Code(i, bit);
      CodeBijection(j, b, Code(i, bit));
      CodeBijection(i, bit, Code(i, bit));
    }
  }

  lemma {:induction false} AtMost(s: set<byte>, low: nat, high: nat)
    requires low <= high && forall e :: e in s ==> low <= e < high
    ensures |s| <= high - low
    decreases high - low
  {
    if low == high {
      if e :| e in s {
        assert false;
      }
      assert s == {};
    } else {
      var rest := s - {high - 1};
      AtMost(rest, low, high - 1);
      assert s == rest + if high - 1 in s then {high - 1} else {};
    }
  }

  // Main results. The long form gives back any set of more than 15 codes, whatever follows the mask.
  lemma LongFormRoundTrip(s: set<byte>, tail: seq<byte>)
    requires IsMappable(s) && |s| > 15
    ensures |s| <= 128
    ensures Decoded([|s|] + Mask(s) + tail) == Ok(s)
  {
    hide Mask, MaskedCodes;
    AtMost(s, 0x80, 0x100);
    DecodedMask(s);
    assert ([|s|] + Mask(s) + tail)[1..17] == Mask(s);
  }

  // The codes of the set, each once, in some order.
  ghost predicate Lists(codes: seq<byte>, s: set<byte>) {
    && (forall i, j :: 0 <= i < j < |codes| ==> codes[i] != codes[j])
    && (forall e :: e in codes <==> e in s)
  }

  lemma {:induction false} ListingExists(s: set<byte>) returns (codes: seq<byte>)
    ensures Lists(codes, s)
  {
    if s == {} {
      codes := [];
    } else {
      var e :| e in s;
      var rest := ListingExists(s - {e});
      codes := rest + [e];
    }
  }

  lemma {:induction false} ListingSize(codes: seq<byte>, s: set<byte>)
    requires Lists(codes, s)
    ensures |codes| == |s|
  {
    if codes == [] {
      assert s == {};
    } else {
      var e, rest := codes[|codes| - 1], codes[..|codes| - 1];
      assert codes == rest + [e];
      ListingSize(rest, s - {e});
    }
  }

  // The short form gives back any set of at most 15 codes, in whatever order they are listed, and whatever
  // follows the list.
  lemma ShortFormRoundTrip(s: set<byte>, tail: seq<byte>)
    requires |s| <= 15
    ensures exists codes :: Lists(codes, s)
    ensures forall codes :: Lists(codes, s) ==> Decoded([|s|] + codes + tail) == Ok(s)
  {
    hide Lists, ListedCodes;
    var some := ListingExists(s);
    forall codes | Lists(codes, s)
      ensures Decoded([|s|] + codes + tail) == Ok(s)
    {
      ListingSize(codes, s);
      assert ([|s|] + codes + tail)[1..1 + |codes|] == codes;
      ListedAll(codes, s);
    }
  }

  lemma ListedAll(codes: seq<byte>, s: set<byte>)
    requires Lists(codes, s)
    ensures ListedCodes(codes) == s
  {
    assert forall e :: e in s ==> e in codes;
  }

  // Conversely the long form accepts nothing ambiguous: the result determines the mask. The count
  // byte, in contrast, is not compared with the mask.
  lemma LongFormExact(edt: seq<byte>)
    requires |edt| >= 17 && edt[0] > 15
    ensures Decoded(edt).Ok? && IsMappable(Decoded(edt).value) && Mask(Decoded(edt).value) == edt[1..17]
    ensures forall n: byte :: n > 15 ==> Decoded([n] + edt[1..]) == Decoded(edt)
  {
    hide Mask, MaskedCodes, IsMappable;
    EncodedMask(edt[1..17]);
    forall n: byte | n > 15
      ensures Decoded([n] + edt[1..]) == Decoded(edt)
    {
      assert ([n] + edt[1..])[1..17] == edt[1..17];
    }
  }
}
