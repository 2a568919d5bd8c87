/**
  The pieces of Go's `fmt`, `strconv` and `strings` packages that the plugin
  relies on: `%d` / `strconv.FormatInt(n, 10)` for the date parts of a key,
  `%x` on a byte slice for the UUID groups, `strings.ToLower` for the `gzip`
  setting and `strings.TrimSpace` for `logString`. Only the ASCII behaviour
  of the last two is modelled.
*/
module Format {

  // ---------------------------------------------------------------------
  // Decimal rendering (`%d`, strconv.FormatInt(n, 10))
  // ---------------------------------------------------------------------

  predicate IsDigit(c: char) { '0' <= c <= '9' }

  predicate AllDigits(s: string) { forall k :: 0 <= k < |s| ==> IsDigit(s[k]) }

  function DigitChar(d: nat): (c: char)
    requires d < 10
    ensures IsDigit(c)
  {
    ('0' as int + d) as char
  }

  function DigitValue(c: char): (d: nat)
    requires IsDigit(c)
    ensures d < 10 && DigitChar(d) == c
  {
    c as int - '0' as int
  }

  /** Unpadded decimal digits of `n`, most significant first. */
  function NatToDecimal(n: nat): (s: string)
    decreases n
  {
    if n < 10 then [DigitChar(n)] else NatToDecimal(n / 10) + [DigitChar(n % 10)]
  }

  /** Go's `%d` of a signed integer: a minus sign, then the digits of the magnitude. */
  function IntToDecimal(i: int): (s: string)
  {
    if i < 0 then "-" + NatToDecimal(-i) else NatToDecimal(i)
  }

  /** The value of a string of decimal digits (an independent reading of NatToDecimal). */
  function ParseNat(s: string): (n: nat)
    requires AllDigits(s)
  {
    if s == [] then 0 else 10 * ParseNat(s[..|s| - 1]) + DigitValue(s[|s| - 1])
  }

  /** Digits without a superfluous leading zero: what `%d` produces for a natural number. */
  predicate CanonicalNat(s: string)
  {
    s != [] && AllDigits(s) && (s[0] == '0' ==> s == "0")
  }

  /** `%d` of any integer: a canonical natural, or a minus sign before a canonical non-zero one. */
  predicate CanonicalInt(s: string)
  {
    CanonicalNat(s) || (|s| >= 2 && s[0] == '-' && CanonicalNat(s[1..]) && s[1..] != "0")
  }

  function ParseInt(s: string): int
    requires CanonicalInt(s)
  {
    if s[0] == '-' then -(ParseNat(s[1..]) as int) else ParseNat(s)
  }

  lemma {:induction false} NatToDecimalCanonical(n: nat)
    ensures CanonicalNat(NatToDecimal(n))
    ensures ParseNat(NatToDecimal(n)) == n
    decreases n
  {
    if n >= 10 {
      var hi := NatToDecimal(n / 10);
      NatToDecimalCanonical(n / 10);
      var s := hi + [DigitChar(n % 10)];
      assert s[..|s| - 1] == hi;
    }
  }

  /** The date parts of an object key are unpadded decimals that read back as the number printed. */
  lemma IntToDecimalCanonical(i: int)
    ensures CanonicalInt(IntToDecimal(i))
    ensures ParseInt(IntToDecimal(i)) == i
  {
    if i < 0 {
      NatToDecimalCanonical(-i);
      var s := IntToDecimal(i);
      assert s[1..] == NatToDecimal(-i);
    } else {
      NatToDecimalCanonical(i);
    }
  }

  // ---------------------------------------------------------------------
  // Lower-case hexadecimal (`%x` of a byte slice)
  // ---------------------------------------------------------------------

  predicate IsLowerHex(c: char) { '0' <= c <= '9' || 'a' <= c <= 'f' }

  predicate AllLowerHex(s: string) { forall k :: 0 <= k < |s| ==> IsLowerHex(s[k]) }

  function HexDigit(v: bv8): (c: char)
    requires v < 16
    ensures IsLowerHex(c)
  {
    if v < 10 then ('0' as int + v as int) as char else ('a' as int + v as int - 10) as char
  }

  function HexValue(c: char): (v: bv8)
    requires IsLowerHex(c)
    ensures v < 16
  {
    if c <= '9' then (c as int - '0' as int) as bv8 else (c as int - 'a' as int + 10) as bv8
  }

  lemma HexValueOfDigit(v: bv8)
    requires v < 16
    ensures HexValue(HexDigit(v)) == v
  {
  }

  /** One byte as two lower-case hex digits, high nibble first. */
  function HexByte(b: bv8): (s: string)
    ensures |s| == 2 && AllLowerHex(s)
  {
    [HexDigit(b >> 4), HexDigit(b & 0x0F)]
  }

  function Hex(bs: seq<bv8>): (s: string)
    ensures |s| == 2 * |bs|
    ensures AllLowerHex(s)
  {
    if bs == [] then "" else HexByte(bs[0]) + Hex(bs[1..])
  }

  /** Reads pairs of hex digits back into bytes: the inverse of Hex. */
  function Unhex(s: string): (bs: seq<bv8>)
    requires |s| % 2 == 0 && AllLowerHex(s)
    ensures |bs| == |s| / 2
  {
    if s == [] then [] else [(HexValue(s[0]) << 4) | HexValue(s[1])] + Unhex(s[2..])
  }

  lemma {:induction false} HexConcat(a: seq<bv8>, b: seq<bv8>)
    ensures Hex(a + b) == Hex(a) + Hex(b)
  {
    if a == [] {
      assert a + b == b;
    } else {
      assert (a + b)[0] == a[0] && (a + b)[1..] == a[1..] + b;
      HexConcat(a[1..], b);
      calc {
        Hex(a + b);
        HexByte(a[0]) + Hex(a[1..] + b);
        HexByte(a[0]) + (Hex(a[1..]) + Hex(b));
        Hex(a) + Hex(b);
      }
    }
  }

  lemma UnhexHexByte(b: bv8)
    ensures (HexValue(HexByte(b)[0]) << 4) | HexValue(HexByte(b)[1]) == b
  {
    HexValueOfDigit(b >> 4);
    HexValueOfDigit(b & 0x0F);
  }

  lemma {:induction false} UnhexHex(bs: seq<bv8>)
    ensures Unhex(Hex(bs)) == bs
  {
    if bs != [] {
      var s := Hex(bs);
      assert s[..2] == HexByte(bs[0]) && s[2..] == Hex(bs[1..]);
      UnhexHexByte(bs[0]);
      UnhexHex(bs[1..]);
    }
  }

  // ---------------------------------------------------------------------
  // ASCII case folding (`strings.ToLower`, ASCII letters only)
  // ---------------------------------------------------------------------

  function LowerChar(c: char): (l: char)
    ensures 'A' <= c <= 'Z' ==> l as int == c as int + 32
    ensures !('A' <= c <= 'Z') ==> l == c
  {
    if 'A' <= c <= 'Z' then (c as int + 32) as char else c
  }

  function ToLower(s: string): (r: string)
    ensures |r| == |s|
    ensures forall k :: 0 <= k < |s| ==> r[k] == LowerChar(s[k])
  {
    if s == [] then "" else [LowerChar(s[0])] + ToLower(s[1..])
  }

  /** `a` and `b` spell the same word up to the case of ASCII letters. */
  predicate EqualFold(a: string, b: string)
  {
    |a| == |b| && forall k :: 0 <= k < |a| ==> LowerChar(a[k]) == LowerChar(b[k])
  }

  /** For a word already in lower case, lowering `s` yields it exactly when `s` is that word in any case. */
  lemma ToLowerMatches(s: string, word: string)
    requires ToLower(word) == word
    ensures ToLower(s) == word <==> EqualFold(s, word)
  {
    if EqualFold(s, word) {
      assert forall k :: 0 <= k < |word| ==> LowerChar(word[k]) == word[k] by {
        forall k | 0 <= k < |word| ensures LowerChar(word[k]) == word[k] {
          assert ToLower(word)[k] == LowerChar(word[k]);
        }
      }
      assert ToLower(s) == word;
    }
  }

  // ---------------------------------------------------------------------
  // ASCII white space trimming (`strings.TrimSpace` on ASCII input)
  // ---------------------------------------------------------------------

  /** The ASCII characters `unicode.IsSpace` accepts: tab, LF, VT, FF, CR and space. */
  predicate IsSpace(b: bv8) { b == 9 || b == 10 || b == 11 || b == 12 || b == 13 || b == 32 }

  predicate AllSpace(s: seq<bv8>) { forall k :: 0 <= k < |s| ==> IsSpace(s[k]) }

  /** Drops leading white space: the result is a suffix, and only white space was dropped. */
  function TrimLeft(s: seq<bv8>): (r: seq<bv8>)
    ensures |r| <= |s| && r == s[|s| - |r|..]
    ensures AllSpace(s[..|s| - |r|])
    ensures r == [] || !IsSpace(r[0])
  {
    if s != [] && IsSpace(s[0]) then TrimLeft(s[1..]) else s
  }

  /** Drops trailing white space: the result is a prefix, and only white space was dropped. */
  function TrimRight(s: seq<bv8>): (r: seq<bv8>)
    ensures |r| <= |s| && r == s[..|r|]
    ensures AllSpace(s[|r|..])
    ensures r == [] || !IsSpace(r[|r| - 1])
  {
    if s != [] && IsSpace(s[|s| - 1]) then TrimRight(s[..|s| - 1]) else s
  }

  /** Both ends trimmed: what remains starts and ends with a byte that is not white space. */
  function TrimSpace(s: seq<bv8>): (r: seq<bv8>)
    ensures r == [] || (!IsSpace(r[0]) && !IsSpace(r[|r| - 1]))
  {
    var left := TrimLeft(s);
    var both := TrimRight(left);
    assert both != [] ==> both[0] == left[0];
    both
  }

  /** TrimSpace keeps exactly the run of bytes between the leading and the trailing white space. */
  lemma TrimSpaceRun(s: seq<bv8>)
    ensures var r := TrimSpace(s);
      exists lead :: 0 <= lead <= |s| - |r| && r == s[lead..lead + |r|] &&
        AllSpace(s[..lead]) && AllSpace(s[lead + |r|..])
  {
    RunBetweenSpaces(s, TrimLeft(s), TrimSpace(s));
  }

  /** A prefix `r` of a suffix `left` of `s`, with only white space around each, is a run of `s` with only white space around it. */
  lemma RunBetweenSpaces(s: seq<bv8>, left: seq<bv8>, r: seq<bv8>)
    requires |left| <= |s| && left == s[|s| - |left|..] && AllSpace(s[..|s| - |left|])
    requires |r| <= |left| && r == left[..|r|] && AllSpace(left[|r|..])
    ensures var lead := |s| - |left|;
      lead + |r| <= |s| && r == s[lead..lead + |r|] && AllSpace(s[..lead]) && AllSpace(s[lead + |r|..])
  {
    var lead := |s| - |left|;
    assert s[lead..lead + |r|] == left[..|r|];
    assert s[lead + |r|..] == left[|r|..];
  }

  /** Trimming leaves nothing exactly when the input is all white space. */
  lemma TrimSpaceEmpty(s: seq<bv8>)
    ensures TrimSpace(s) == [] <==> AllSpace(s)
  {
    var left := TrimLeft(s);
    var lead := |s| - |left|;
    assert s[lead..] == left;
    if TrimSpace(s) == [] {
      assert left == [];
      assert s[..lead] == s;
    } else if left != [] {
      assert left[0] == s[lead];
    }
  }
}
