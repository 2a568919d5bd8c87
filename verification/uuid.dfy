/**
  `newUUID` of s3/s3.go: read 16 random bytes, set the RFC 4122 version
  (section 4.1.3) and variant (section 4.1.1) fields in place, and print the
  bytes as lower-case hex in 8-4-4-4-12 groups. The random source is an input:
  `None` when reading it fails, otherwise the bytes it yields before running out.
*/
module Uuid {
  import opened Wrappers
  import opened Format

  const UuidBytes := 16

  /** `io.ReadFull` could not fill the 16-byte buffer. */
  datatype RandomError = ShortRead

  /** The 16 bytes with the version nibble set to 4 and the variant bits set to `10`. */
  function Stamp(raw: seq<bv8>): (u: seq<bv8>)
    requires |raw| == UuidBytes
    ensures |u| == UuidBytes
    ensures u[6] >> 4 == 4 && u[6] & 0x0F == raw[6] & 0x0F
    ensures u[8] >> 6 == 2 && u[8] & 0x3F == raw[8] & 0x3F
    ensures forall k :: 0 <= k < UuidBytes && k != 6 && k != 8 ==> u[k] == raw[k]
  {
    raw[8 := (raw[8] & !0xC0) | 0x80][6 := (raw[6] & !0xF0) | 0x40]
  }

  /** `%x-%x-%x-%x-%x` of the slices [0:4], [4:6], [6:8], [8:10] and [10:]. */
  function Render(u: seq<bv8>): (s: string)
    requires |u| == UuidBytes
  {
    Hex(u[..4]) + "-" + Hex(u[4..6]) + "-" + Hex(u[6..8]) + "-" + Hex(u[8..10]) + "-" + Hex(u[10..])
  }

  /** What `newUUID` returns for a given reading of the random source. */
  function FromRandom(random: Option<seq<bv8>>): (r: Result<string, RandomError>)
    ensures r.Failure? <==> random.None? || |random.value| < UuidBytes
  {
    if random.None? || |random.value| < UuidBytes then Failure(ShortRead)
    else Success(Render(Stamp(random.value[..UuidBytes])))
  }

  method NewUuid(random: Option<seq<bv8>>) returns (r: Result<string, RandomError>)
    ensures r == FromRandom(random)
  {
    if random.None? || |random.value| < UuidBytes {
      return Failure(ShortRead);
    }
    var src := random.value[..UuidBytes];
    var uuid := new bv8[UuidBytes](i requires 0 <= i < UuidBytes => src[i]);
    assert uuid[..] == src;
    // top two bits of byte 8 become 10, the variant field (RFC 4122, section 4.1.1)
    uuid[8] := (uuid[8] & !0xC0) | 0x80;
    assert uuid[..] == src[8 := (src[8] & !0xC0) | 0x80];
    // high nibble of byte 6 becomes 4, the version of a random UUID (RFC 4122, section 4.1.3)
    uuid[6] := (uuid[6] & !0xF0) | 0x40;
    r := Success(Render(uuid[..]));
  }

  /** Reads the five hex groups of a rendered UUID back into its 16 bytes. */
  function Parse(s: string): (u: seq<bv8>)
    requires |s| == 36 && AllLowerHex(s[..8] + s[9..13] + s[14..18] + s[19..23] + s[24..])
  {
    Unhex(s[..8] + s[9..13] + s[14..18] + s[19..23] + s[24..])
  }

  /** The rendering is the five hex groups at fixed offsets, separated by dashes. */
  lemma RenderGroups(u: seq<bv8>)
    requires |u| == UuidBytes
    ensures var s := Render(u);
      |s| == 36 && s[8] == '-' && s[13] == '-' && s[18] == '-' && s[23] == '-'
      && s[..8] == Hex(u[..4]) && s[9..13] == Hex(u[4..6]) && s[14..18] == Hex(u[6..8])
      && s[19..23] == Hex(u[8..10]) && s[24..] == Hex(u[10..])
  {
    var s := Render(u);
    assert s[..8] == Hex(u[..4]);
    assert s[9..13] == Hex(u[4..6]);
    assert s[14..18] == Hex(u[6..8]);
    assert s[19..23] == Hex(u[8..10]);
  }

  /** The five groups put back together are the hex of all 16 bytes. */
  lemma GroupsJoin(u: seq<bv8>)
    requires |u| == UuidBytes
    ensures Hex(u[..4]) + Hex(u[4..6]) + Hex(u[6..8]) + Hex(u[8..10]) + Hex(u[10..]) == Hex(u)
  {
    var a, b, c, d, e := u[..4], u[4..6], u[6..8], u[8..10], u[10..];
    assert a + b + c + d + e == u;
    HexConcat(a, b);
    HexConcat(a + b, c);
    HexConcat(a + b + c, d);
    HexConcat(a + b + c + d, e);
  }

  /** The rendering is 36 characters: hex digits with dashes at 8, 13, 18 and 23, and it reads back as the bytes. */
  lemma RenderLayout(u: seq<bv8>)
    requires |u| == UuidBytes
    ensures |Render(u)| == 36
    ensures Render(u)[8] == '-' && Render(u)[13] == '-' && Render(u)[18] == '-' && Render(u)[23] == '-'
    ensures forall k :: 0 <= k < 36 && k != 8 && k != 13 && k != 18 && k != 23 ==> IsLowerHex(Render(u)[k])
    ensures Parse(Render(u)) == u
  {
    var s := Render(u);
    RenderGroups(u);
    forall k | 0 <= k < 36 && k != 8 && k != 13 && k != 18 && k != 23
      ensures IsLowerHex(s[k])
    {
      if k < 8 { assert s[k] == s[..8][k]; }
      else if k < 13 { assert s[k] == s[9..13][k - 9]; }
      else if k < 18 { assert s[k] == s[14..18][k - 14]; }
      else if k < 23 { assert s[k] == s[19..23][k - 19]; }
      else { assert s[k] == s[24..][k - 24]; }
    }
    GroupsJoin(u);
    UnhexHex(u);
  }

  /** Distinct random bytes (after stamping) give distinct identifiers. */
  lemma RenderInjective(u1: seq<bv8>, u2: seq<bv8>)
    requires |u1| == UuidBytes && |u2| == UuidBytes
    ensures Render(u1) == Render(u2) <==> u1 == u2
  {
    RenderLayout(u1);
    RenderLayout(u2);
  }

  /** A generated identifier shows version `4` at position 14 and a variant digit 8, 9, a or b at position 19. */
  lemma VersionAndVariantDigits(random: Option<seq<bv8>>)
    requires FromRandom(random).Success?
    ensures var s := FromRandom(random).value;
      |s| == 36 && s[14] == '4' && s[19] in {'8', '9', 'a', 'b'}
  {
    var u := Stamp(random.value[..UuidBytes]);
    var s := Render(u);
    assert s[14..18] == Hex(u[6..8]);
    assert s[19..23] == Hex(u[8..10]);
    assert Hex(u[6..8])[0] == HexDigit(u[6] >> 4);
    assert Hex(u[8..10])[0] == HexDigit(u[8] >> 4);
    assert u[8] >> 4 == 8 || u[8] >> 4 == 9 || u[8] >> 4 == 10 || u[8] >> 4 == 11;
  }
}
