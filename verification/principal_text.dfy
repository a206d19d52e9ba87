/** The textual form of a principal (`Principal::to_text`): the CRC-32 of the
    bytes (big-endian) followed by the bytes, in lower-case base 32 without
    padding (RFC 4648, section 6), split into groups of five characters joined
    by dashes. */
module PrincipalText {
  import opened IcTypes

  /** One byte folded into a (reflected, polynomial 0xEDB88320) CRC-32 register. */
  function Crc32Byte(crc: bv32, b: byte): bv32
  {
    Crc32Shift(crc ^ (b as int as bv32), 8)
  }

  function Crc32Shift(c: bv32, rounds: nat): bv32
    decreases rounds
  {
    if rounds == 0 then c
    else Crc32Shift(if c & 1 == 1 then (c >> 1) ^ 0xEDB8_8320 else c >> 1, rounds - 1)
  }

  function Crc32Register(crc: bv32, bytes: seq<byte>): bv32
    decreases |bytes|
  {
    if bytes == [] then crc else Crc32Register(Crc32Byte(crc, bytes[0]), bytes[1..])
  }

  function Crc32(bytes: seq<byte>): bv32
  {
    Crc32Register(0xFFFF_FFFF, bytes) ^ 0xFFFF_FFFF
  }

  /** A 32-bit value as four big-endian bytes. */
  function BigEndian(v: bv32): (r: seq<byte>)
    ensures |r| == 4
  {
    [((v >> 24) & 0xFF) as int as byte, ((v >> 16) & 0xFF) as int as byte,
     ((v >> 8) & 0xFF) as int as byte, (v & 0xFF) as int as byte]
  }

  /** The base-32 alphabet of RFC 4648, section 6, in lower case. */
  const Alphabet: string := "abcdefghijklmnopqrstuvwxyz234567"

  predicate IsBase32Digit(c: char)
  {
    'a' <= c <= 'z' || '2' <= c <= '7'
  }

  /** The character of a five-bit digit. */
  function DigitChar(d: nat): (c: char)
    requires d < 32
    ensures IsBase32Digit(c)
  {
    if d < 26 then ('a' as int + d) as char else ('2' as int + d - 26) as char
  }

  /** `DigitChar` is the alphabet's table. */
  lemma DigitCharIsAlphabet()
    ensures forall d :: 0 <= d < 32 ==> DigitChar(d) == Alphabet[d]
  {
    forall d | 0 <= d < 32
      ensures DigitChar(d) == Alphabet[d]
    {
      if d < 26 {
        assert Alphabet[..26] == "abcdefghijklmnopqrstuvwxyz";
        assert Alphabet[d] == Alphabet[..26][d];
      } else {
        assert Alphabet[26..] == "234567";
        assert Alphabet[d] == Alphabet[26..][d - 26];
      }
    }
  }

  /** The five-bit digit a base-32 character stands for. */
  function DigitValue(c: char): nat
  {
    if 'a' <= c <= 'z' then c as int - 'a' as int
    else if '2' <= c <= '7' then c as int - '2' as int + 26
    else 0
  }

  lemma DigitRoundTrip(d: nat)
    requires d < 32
    ensures DigitValue(DigitChar(d)) == d
  {
  }

  function Pow32(n: nat): (p: nat)
    ensures p > 0
  {
    if n == 0 then 1 else 32 * Pow32(n - 1)
  }

  /** The number a string of base-32 digits denotes, the first digit most significant. */
  function DigitsValue(s: string): nat
    decreases |s|
  {
    if s == [] then 0 else 32 * DigitsValue(s[..|s| - 1]) + DigitValue(s[|s| - 1])
  }

  /** The last `n` base-32 digits of `v`, most significant first. */
  function LowDigits(v: nat, n: nat): (s: string)
    ensures |s| == n
    ensures forall i :: 0 <= i < n ==> IsBase32Digit(s[i])
  {
    if n == 0 then "" else LowDigits(v / 32, n - 1) + [DigitChar(v % 32)]
  }

  /** The `n` digits read back give `v` modulo 32^n: nothing but the dropped
      high digits is lost. */
  lemma {:induction false} LowDigitsValue(v: nat, n: nat)
    ensures DigitsValue(LowDigits(v, n)) == v % Pow32(n)
  {
    if n > 0 {
      var s := LowDigits(v, n);
      assert s[..n - 1] == LowDigits(v / 32, n - 1);
      LowDigitsValue(v / 32, n - 1);
      DigitRoundTrip(v % 32);
      ModOfProduct(v, Pow32(n - 1));
    }
  }

  /** v mod 32p is made of (v / 32) mod p and v mod 32. */
  lemma ModOfProduct(v: nat, p: nat)
    requires p > 0
    ensures 32 * ((v / 32) % p) + v % 32 == v % (32 * p)
  {
    var q, r := v / 32, v % 32;
    var a, b := q / p, q % p;
    assert v == 32 * p * a + (32 * b + r) by {
      assert v == 32 * q + r;
      assert q == p * a + b;
    }
    ModUnique(v, 32 * p, a, 32 * b + r);
  }

  lemma ModUnique(v: int, m: int, k: int, t: int)
    requires m > 0 && 0 <= t < m && v == m * k + t
    ensures v % m == t
  {
    var q, r := v / m, v % m;
    assert v == m * q + r;
    if k > q {
      assert m * (k - q) == r - t;
      MulGrows(m, k - q);
    } else if k < q {
      assert m * (q - k) == t - r;
      MulGrows(m, q - k);
    }
  }

  lemma {:induction false} MulGrows(m: int, d: int)
    requires m > 0 && d >= 1
    ensures m * d >= m
    decreases d
  {
    if d > 1 {
      MulGrows(m, d - 1);
      assert m * d == m * (d - 1) + m;
    }
  }

  /** Five bytes as one 40-bit number, the first byte most significant. */
  function BlockValue(b: seq<byte>): nat
    requires |b| == 5
  {
    (((b[0] as nat * 256 + b[1] as nat) * 256 + b[2] as nat) * 256 + b[3] as nat) * 256 + b[4] as nat
  }

  /** The first `n` of the eight base-32 digits of a five-byte block. */
  function Block(b: seq<byte>, n: nat): (s: string)
    requires |b| == 5 && n <= 8
    ensures |s| == n
    ensures forall i :: 0 <= i < n ==> IsBase32Digit(s[i])
  {
    LowDigits(BlockValue(b), 8)[..n]
  }

  /** A block's eight digits spell its 40-bit value exactly. */
  lemma BlockDigitsValue(b: seq<byte>)
    requires |b| == 5
    ensures DigitsValue(Block(b, 8)) == BlockValue(b)
  {
    var v := BlockValue(b);
    LowDigitsValue(v, 8);
    BlockValueBound(b);
    ModOfSmaller(v, Pow32(8));
    assert Block(b, 8) == LowDigits(v, 8);
  }

  lemma ModOfSmaller(v: nat, m: nat)
    requires v < m
    ensures v % m == v
  {
  }

  /** Five bytes make a number below 2^40. */
  lemma BlockValueBound(b: seq<byte>)
    requires |b| == 5
    ensures BlockValue(b) < Pow32(8)
  {
    assert Pow32(8) == 1099511627776;
    var v2 := b[0] as nat * 256 + b[1] as nat;
    assert v2 < 65536;
    var v3 := v2 * 256 + b[2] as nat;
    assert v3 < 16777216;
    var v4 := v3 * 256 + b[3] as nat;
    assert v4 < 4294967296;
    assert BlockValue(b) == v4 * 256 + b[4] as nat;
  }

  function ZeroBytes(n: nat): (r: seq<byte>)
    ensures |r| == n && forall i :: 0 <= i < n ==> r[i] == 0
  {
    seq(n, _ => 0)
  }

  /** RFC 4648 base 32, lower case, without padding: each block of five bytes
      gives eight digits; a final block of k < 5 bytes is padded with zero
      bytes and gives its first (8 k + 4) / 5 digits. */
  function Base32(bytes: seq<byte>): (s: string)
    ensures |s| == (8 * |bytes| + 4) / 5
    ensures forall i :: 0 <= i < |s| ==> IsBase32Digit(s[i])
    decreases |bytes|
  {
    if bytes == [] then ""
    else if |bytes| >= 5 then Block(bytes[..5], 8) + Base32(bytes[5..])
    else Block(bytes + ZeroBytes(5 - |bytes|), (8 * |bytes| + 4) / 5)
  }

  /** Encoding works block by block: text cut after a whole number of blocks
      encodes as the two parts' encodings put together. */
  lemma {:induction false} Base32Append(x: seq<byte>, y: seq<byte>)
    requires |x| % 5 == 0
    ensures Base32(x + y) == Base32(x) + Base32(y)
    decreases |x|
  {
    if x != [] {
      assert |x| >= 5 && (|x| - 5) % 5 == 0;
      assert (x + y)[..5] == x[..5];
      assert (x + y)[5..] == x[5..] + y;
      var head := Block(x[..5], 8);
      calc {
        Base32(x + y);
        head + Base32(x[5..] + y);
        { Base32Append(x[5..], y); }
        head + (Base32(x[5..]) + Base32(y));
        (head + Base32(x[5..])) + Base32(y);
        Base32(x) + Base32(y);
      }
    } else {
      assert x + y == y;
    }
  }

  /** Groups of five characters joined by dashes. */
  function Dashed(s: string): (r: string)
    ensures |r| == if s == [] then 0 else |s| + (|s| - 1) / 5
    decreases |s|
  {
    if |s| <= 5 then s
    else
      ShiftDashes(|s|);
      s[..5] + "-" + Dashed(s[5..])
  }

  /** Every sixth character of `Dashed(s)` is a dash; the others are the
      characters of `s` in order. */
  lemma {:induction false} DashedCharAt(s: string, i: int)
    requires 0 <= i < |Dashed(s)|
    ensures if i % 6 == 5 then Dashed(s)[i] == '-'
            else 0 <= i - i / 6 < |s| && Dashed(s)[i] == s[i - i / 6]
    decreases |s|
  {
    if |s| > 5 {
      var head := s[..5] + "-";
      var rest := Dashed(s[5..]);
      assert |head| == 6 && Dashed(s) == head + rest;
      if i >= 6 {
        ShiftGroup(i);
        DashedCharAt(s[5..], i - 6);
        assert Dashed(s)[i] == rest[i - 6];
      }
    }
  }

  /** Moving one dashed group along changes the group number by one and keeps the position in it. */
  lemma ShiftGroup(i: int)
    requires i >= 6
    ensures (i - 6) % 6 == i % 6 && (i - 6) / 6 == i / 6 - 1
  {
  }

  /** Five more characters make one more dash. */
  lemma ShiftDashes(n: int)
    requires n >= 6
    ensures (n - 6) / 5 == (n - 1) / 5 - 1
  {
  }

  /** `Principal::to_text`: the CRC-32 and the bytes in base 32, in dashed groups
      of five; for a principal of n bytes that is (8 * (n + 4) + 4) / 5 base-32
      characters. */
  function ToText(p: Principal): (r: string)
    ensures var n := (8 * (|p.bytes| + 4) + 4) / 5;
            |r| == n + (n - 1) / 5
  {
    var payload := BigEndian(Crc32(p.bytes)) + p.bytes;
    assert |payload| == |p.bytes| + 4;
    var digits := Base32(payload);
    assert |digits| == (8 * (|p.bytes| + 4) + 4) / 5 > 0;
    Dashed(digits)
  }

  /** Every sixth character of a principal's text is a dash, and every other one
      is a lower-case base-32 digit. */
  lemma ToTextCharacters(p: Principal)
    ensures var r := ToText(p);
            forall i :: 0 <= i < |r| ==> if i % 6 == 5 then r[i] == '-' else IsBase32Digit(r[i])
  {
    var b := Base32(BigEndian(Crc32(p.bytes)) + p.bytes);
    var r := Dashed(b);
    assert r == ToText(p);
    forall i | 0 <= i < |r|
      ensures if i % 6 == 5 then r[i] == '-' else IsBase32Digit(r[i])
    {
      DashedCharAt(b, i);
    }
  }

  // Single computation steps, each taking the step's result as a literal, so
  // that the encoding of a given principal is evaluated one small fact at a time.

  lemma ShiftStep(c: bv32, rounds: nat, next: bv32)
    requires rounds > 0 && (if c & 1 == 1 then (c >> 1) ^ 0xEDB8_8320 else c >> 1) == next
    ensures Crc32Shift(c, rounds) == Crc32Shift(next, rounds - 1)
  {
  }

  lemma RegisterStep(crc: bv32, bytes: seq<byte>, next: bv32)
    requires bytes != [] && Crc32Byte(crc, bytes[0]) == next
    ensures Crc32Register(crc, bytes) == Crc32Register(next, bytes[1..])
  {
  }

  lemma LowDigitsStep(v: nat, n: nat, s: string, c: char)
    requires n > 0 && LowDigits(v / 32, n - 1) == s && DigitChar(v % 32) == c
    ensures LowDigits(v, n) == s + [c]
  {
  }

  lemma BlockStep(b: seq<byte>, v: nat, n: nat, s: string, t: string)
    requires |b| == 5 && n <= 8 && BlockValue(b) == v && LowDigits(v, 8) == s && s[..n] == t
    ensures Block(b, n) == t
  {
  }

  lemma Base32Front(bytes: seq<byte>, head: seq<byte>, rest: seq<byte>, d: string, t: string)
    requires |head| == 5 && bytes == head + rest && Base32(rest) == d && Block(head, 8) + d == t
    ensures Base32(bytes) == t
  {
    assert bytes[..5] == head && bytes[5..] == rest;
  }

  lemma Base32Last(bytes: seq<byte>, padded: seq<byte>, t: string)
    requires 0 < |bytes| < 5 && padded == bytes + ZeroBytes(5 - |bytes|)
    requires Block(padded, (8 * |bytes| + 4) / 5) == t
    ensures Base32(bytes) == t
  {
  }

  lemma DashedFront(s: string, head: string, rest: string, d: string, t: string)
    requires |head| == 5 && rest != [] && s == head + rest && Dashed(rest) == d && head + "-" + d == t
    ensures Dashed(s) == t
  {
    assert s[..5] == head && s[5..] == rest;
  }

  lemma ManagementCanisterBlock()
    ensures Block([0x00, 0x00, 0x00, 0x00, 0x00], 7) == "aaaaaaa"
  {
    LowDigitsStep(0, 1, "", 'a');
    LowDigitsStep(0, 2, "a", 'a');
    LowDigitsStep(0, 3, "aa", 'a');
    LowDigitsStep(0, 4, "aaa", 'a');
    LowDigitsStep(0, 5, "aaaa", 'a');
    LowDigitsStep(0, 6, "aaaaa", 'a');
    LowDigitsStep(0, 7, "aaaaaa", 'a');
    LowDigitsStep(0, 8, "aaaaaaa", 'a');
    BlockStep([0x00, 0x00, 0x00, 0x00, 0x00], 0, 7, "aaaaaaaa", "aaaaaaa");
  }

  lemma ManagementCanisterDigits()
    ensures Base32([0x00, 0x00, 0x00, 0x00]) == "aaaaaaa"
  {
    ManagementCanisterBlock();
    Base32Last([0x00, 0x00, 0x00, 0x00], [0x00, 0x00, 0x00, 0x00, 0x00], "aaaaaaa");
  }

  lemma ManagementCanisterPayload()
    ensures BigEndian(0x0000_0000) + [] == [0x00, 0x00, 0x00, 0x00]
  {
  }

  lemma ManagementCanisterGroups()
    ensures "aaaaaaa" == "aaaaa" + "aa"
    ensures "aaaaa" + "-" + "aa" == "aaaaa-aa"
  {
  }

  lemma ManagementCanisterDashes()
    ensures Dashed("aaaaa" + "aa") == "aaaaa" + "-" + "aa"
  {
    assert Dashed("aa") == "aa";
    DashedFront("aaaaa" + "aa", "aaaaa", "aa", "aa", "aaaaa" + "-" + "aa");
  }

  /** The management canister's principal (no bytes) reads "aaaaa-aa", the text `init` parses. */
  lemma ManagementCanisterText()
    ensures ToText(Principal([])) == "aaaaa-aa"
  {
    assert Crc32([]) == 0;
    ManagementCanisterPayload();
    ManagementCanisterGroups();
    ManagementCanisterDigits();
    ManagementCanisterDashes();
  }

  lemma AnonymousCrcBytes()
    ensures Crc32Byte(0xFFFF_FFFF, 0x04) == 0x2A90_D46B
  {
    assert 0xFFFF_FFFF ^ (0x04 as int as bv32) == 0xFFFF_FFFB;
    ShiftStep(0xFFFF_FFFB, 8, 0x9247_7CDD);
    ShiftStep(0x9247_7CDD, 7, 0xA49B_3D4E);
    ShiftStep(0xA49B_3D4E, 6, 0x524D_9EA7);
    ShiftStep(0x524D_9EA7, 5, 0xC49E_4C73);
    ShiftStep(0xC49E_4C73, 4, 0x8FF7_A519);
    ShiftStep(0x8FF7_A519, 3, 0xAA43_51AC);
    ShiftStep(0xAA43_51AC, 2, 0x5521_A8D6);
    ShiftStep(0x5521_A8D6, 1, 0x2A90_D46B);
  }

  lemma AnonymousRegister()
    ensures Crc32Register(0xFFFF_FFFF, [0x04]) == 0x2A90_D46B
  {
    AnonymousCrcBytes();
    RegisterStep(0xFFFF_FFFF, [0x04], 0x2A90_D46B);
  }

  lemma AnonymousCrc()
    ensures Crc32([0x04]) == 0xD56F_2B94
  {
    AnonymousRegister();
  }

  lemma AnonymousBlock()
    ensures Block([0xD5, 0x6F, 0x2B, 0x94, 0x04], 8) == "2vxsxfae"
  {
    LowDigitsStep(26, 1, "", '2');
    LowDigitsStep(853, 2, "2", 'v');
    LowDigitsStep(27319, 3, "2v", 'x');
    LowDigitsStep(874226, 4, "2vx", 's');
    LowDigitsStep(27975255, 5, "2vxs", 'x');
    LowDigitsStep(895208165, 6, "2vxsx", 'f');
    LowDigitsStep(28646661280, 7, "2vxsxf", 'a');
    LowDigitsStep(916693160964, 8, "2vxsxfa", 'e');
    BlockStep([0xD5, 0x6F, 0x2B, 0x94, 0x04], 916693160964, 8, "2vxsxfae", "2vxsxfae");
  }

  lemma AnonymousDigits()
    ensures Base32([0xD5, 0x6F, 0x2B, 0x94, 0x04]) == "2vxsxfae"
  {
    AnonymousBlock();
    Base32Front([0xD5, 0x6F, 0x2B, 0x94, 0x04], [0xD5, 0x6F, 0x2B, 0x94, 0x04], [], "", "2vxsxfae");
  }

  lemma AnonymousPayload()
    ensures BigEndian(0xD56F_2B94) + [0x04] == [0xD5, 0x6F, 0x2B, 0x94, 0x04]
  {
  }

  lemma AnonymousGroups()
    ensures "2vxsxfae" == "2vxsx" + "fae"
    ensures "2vxsx" + "-" + "fae" == "2vxsx-fae"
  {
  }

  lemma AnonymousDashes()
    ensures Dashed("2vxsx" + "fae") == "2vxsx" + "-" + "fae"
  {
    assert Dashed("fae") == "fae";
    DashedFront("2vxsx" + "fae", "2vxsx", "fae", "fae", "2vxsx" + "-" + "fae");
  }

  /** The anonymous principal (the single byte 0x04) reads "2vxsx-fae". */
  lemma AnonymousText()
    ensures ToText(Principal([0x04])) == "2vxsx-fae"
  {
    AnonymousCrc();
    AnonymousPayload();
    AnonymousGroups();
    AnonymousDigits();
    AnonymousDashes();
  }

  lemma CanisterIdCrcBytes1()
    ensures Crc32Byte(0xFFFF_FFFF, 0x00) == 0x2DFD_1072
    ensures Crc32Byte(0x2DFD_1072, 0x00) == 0xBE26_ED00
  {
    assert 0xFFFF_FFFF ^ (0x00 as int as bv32) == 0xFFFF_FFFF;
    ShiftStep(0xFFFF_FFFF, 8, 0x9247_7CDF);
    ShiftStep(0x9247_7CDF, 7, 0xA49B_3D4F);
    ShiftStep(0xA49B_3D4F, 6, 0xBFF5_1D87);
    ShiftStep(0xBFF5_1D87, 5, 0xB242_0DE3);
    ShiftStep(0xB242_0DE3, 4, 0xB499_85D1);
    ShiftStep(0xB499_85D1, 3, 0xB7F4_41C8);
    ShiftStep(0xB7F4_41C8, 2, 0x5BFA_20E4);
    ShiftStep(0x5BFA_20E4, 1, 0x2DFD_1072);
    assert 0x2DFD_1072 ^ (0x00 as int as bv32) == 0x2DFD_1072;
    ShiftStep(0x2DFD_1072, 8, 0x16FE_8839);
    ShiftStep(0x16FE_8839, 7, 0xE6C7_C73C);
    ShiftStep(0xE6C7_C73C, 6, 0x7363_E39E);
    ShiftStep(0x7363_E39E, 5, 0x39B1_F1CF);
    ShiftStep(0x39B1_F1CF, 4, 0xF160_7BC7);
    ShiftStep(0xF160_7BC7, 3, 0x9508_BEC3);
    ShiftStep(0x9508_BEC3, 2, 0xA73C_DC41);
    ShiftStep(0xA73C_DC41, 1, 0xBE26_ED00);
  }

  lemma CanisterIdRegister1()
    ensures Crc32Register(0xFFFF_FFFF, [0x00, 0x00, 0x00, 0x00, 0x00, 0x00, 0x00, 0x01, 0x01, 0x01]) == Crc32Register(0xBE26_ED00, [0x00, 0x00, 0x00, 0x00, 0x00, 0x01, 0x01, 0x01])
  {
    CanisterIdCrcBytes1();
    RegisterStep(0xFFFF_FFFF, [0x00, 0x00, 0x00, 0x00, 0x00, 0x00, 0x00, 0x01, 0x01, 0x01], 0x2DFD_1072);
    RegisterStep(0x2DFD_1072, [0x00, 0x00, 0x00, 0x00, 0x00, 0x00, 0x01, 0x01, 0x01], 0xBE26_ED00);
  }

  lemma CanisterIdCrcBytes2()
    ensures Crc32Byte(0xBE26_ED00, 0x00) == 0x00BE_26ED
    ensures Crc32Byte(0x00BE_26ED, 0x00) == 0xDEBB_20E3
  {
    assert 0xBE26_ED00 ^ (0x00 as int as bv32) == 0xBE26_ED00;
    ShiftStep(0xBE26_ED00, 8, 0x5F13_7680);
    ShiftStep(0x5F13_7680, 7, 0x2F89_BB40);
    ShiftStep(0x2F89_BB40, 6, 0x17C4_DDA0);
    ShiftStep(0x17C4_DDA0, 5, 0x0BE2_6ED0);
    ShiftStep(0x0BE2_6ED0, 4, 0x05F1_3768);
    ShiftStep(0x05F1_3768, 3, 0x02F8_9BB4);
    ShiftStep(0x02F8_9BB4, 2, 0x017C_4DDA);
    ShiftStep(0x017C_4DDA, 1, 0x00BE_26ED);
    assert 0x00BE_26ED ^ (0x00 as int as bv32) == 0x00BE_26ED;
    ShiftStep(0x00BE_26ED, 8, 0xEDE7_9056);
    ShiftStep(0xEDE7_9056, 7, 0x76F3_C82B);
    ShiftStep(0x76F3_C82B, 6, 0xD6C1_6735);
    ShiftStep(0xD6C1_6735, 5, 0x86D8_30BA);
    ShiftStep(0x86D8_30BA, 4, 0x436C_185D);
    ShiftStep(0x436C_185D, 3, 0xCC0E_8F0E);
    ShiftStep(0xCC0E_8F0E, 2, 0x6607_4787);
    ShiftStep(0x6607_4787, 1, 0xDEBB_20E3);
  }

  lemma CanisterIdRegister2()
    ensures Crc32Register(0xBE26_ED00, [0x00, 0x00, 0x00, 0x00, 0x00, 0x01, 0x01, 0x01]) == Crc32Register(0xDEBB_20E3, [0x00, 0x00, 0x00, 0x01, 0x01, 0x01])
  {
    CanisterIdCrcBytes2();
    RegisterStep(0xBE26_ED00, [0x00, 0x00, 0x00, 0x00, 0x00, 0x01, 0x01, 0x01], 0x00BE_26ED);
    RegisterStep(0x00BE_26ED, [0x00, 0x00, 0x00, 0x00, 0x01, 0x01, 0x01], 0xDEBB_20E3);
  }

  lemma CanisterIdCrcBytes3()
    ensures Crc32Byte(0xDEBB_20E3, 0x00) == 0x39DD_08E2
    ensures Crc32Byte(0x39DD_08E2, 0x00) == 0x4E3D_5E5C
  {
    assert 0xDEBB_20E3 ^ (0x00 as int as bv32) == 0xDEBB_20E3;
    ShiftStep(0xDEBB_20E3, 8, 0x82E5_1351);
    ShiftStep(0x82E5_1351, 7, 0xACCA_0A88);
    ShiftStep(0xACCA_0A88, 6, 0x5665_0544);
    ShiftStep(0x5665_0544, 5, 0x2B32_82A2);
    ShiftStep(0x2B32_82A2, 4, 0x1599_4151);
    ShiftStep(0x1599_4151, 3, 0xE774_2388);
    ShiftStep(0xE774_2388, 2, 0x73BA_11C4);
    ShiftStep(0x73BA_11C4, 1, 0x39DD_08E2);
    assert 0x39DD_08E2 ^ (0x00 as int as bv32) == 0x39DD_08E2;
    ShiftStep(0x39DD_08E2, 8, 0x1CEE_8471);
    ShiftStep(0x1CEE_8471, 7, 0xE3CF_C118);
    ShiftStep(0xE3CF_C118, 6, 0x71E7_E08C);
    ShiftStep(0x71E7_E08C, 5, 0x38F3_F046);
    ShiftStep(0x38F3_F046, 4, 0x1C79_F823);
    ShiftStep(0x1C79_F823, 3, 0xE384_7F31);
    ShiftStep(0xE384_7F31, 2, 0x9C7A_BCB8);
    ShiftStep(0x9C7A_BCB8, 1, 0x4E3D_5E5C);
  }

  lemma CanisterIdRegister3()
    ensures Crc32Register(0xDEBB_20E3, [0x00, 0x00, 0x00, 0x01, 0x01, 0x01]) == Crc32Register(0x4E3D_5E5C, [0x00, 0x01, 0x01, 0x01])
  {
    CanisterIdCrcBytes3();
    RegisterStep(0xDEBB_20E3, [0x00, 0x00, 0x00, 0x01, 0x01, 0x01], 0x39DD_08E2);
    RegisterStep(0x39DD_08E2, [0x00, 0x00, 0x01, 0x01, 0x01], 0x4E3D_5E5C);
  }

  lemma CanisterIdCrcBytes4()
    ensures Crc32Byte(0x4E3D_5E5C, 0x00) == 0x6293_2081
    ensures Crc32Byte(0x6293_2081, 0x01) == 0xEDDA_1000
  {
    assert 0x4E3D_5E5C ^ (0x00 as int as bv32) == 0x4E3D_5E5C;
    ShiftStep(0x4E3D_5E5C, 8, 0x271E_AF2E);
    ShiftStep(0x271E_AF2E, 7, 0x138F_5797);
    ShiftStep(0x138F_5797, 6, 0xE47F_28EB);
    ShiftStep(0xE47F_28EB, 5, 0x9F87_1755);
    ShiftStep(0x9F87_1755, 4, 0xA27B_088A);
    ShiftStep(0xA27B_088A, 3, 0x513D_8445);
    ShiftStep(0x513D_8445, 2, 0xC526_4102);
    ShiftStep(0xC526_4102, 1, 0x6293_2081);
    assert 0x6293_2081 ^ (0x01 as int as bv32) == 0x6293_2080;
    ShiftStep(0x6293_2080, 8, 0x3149_9040);
    ShiftStep(0x3149_9040, 7, 0x18A4_C820);
    ShiftStep(0x18A4_C820, 6, 0x0C52_6410);
    ShiftStep(0x0C52_6410, 5, 0x0629_3208);
    ShiftStep(0x0629_3208, 4, 0x0314_9904);
    ShiftStep(0x0314_9904, 3, 0x018A_4C82);
    ShiftStep(0x018A_4C82, 2, 0x00C5_2641);
    ShiftStep(0x00C5_2641, 1, 0xEDDA_1000);
  }

  lemma CanisterIdRegister4()
    ensures Crc32Register(0x4E3D_5E5C, [0x00, 0x01, 0x01, 0x01]) == Crc32Register(0xEDDA_1000, [0x01, 0x01])
  {
    CanisterIdCrcBytes4();
    RegisterStep(0x4E3D_5E5C, [0x00, 0x01, 0x01, 0x01], 0x6293_2081);
    RegisterStep(0x6293_2081, [0x01, 0x01, 0x01], 0xEDDA_1000);
  }

  lemma CanisterIdCrcBytes5()
    ensures Crc32Byte(0xEDDA_1000, 0x01) == 0x77EA_EA86
    ensures Crc32Byte(0x77EA_EA86, 0x01) == 0x73AB_FC69
  {
    assert 0xEDDA_1000 ^ (0x01 as int as bv32) == 0xEDDA_1001;
    ShiftStep(0xEDDA_1001, 8, 0x9B55_8B20);
    ShiftStep(0x9B55_8B20, 7, 0x4DAA_C590);
    ShiftStep(0x4DAA_C590, 6, 0x26D5_62C8);
    ShiftStep(0x26D5_62C8, 5, 0x136A_B164);
    ShiftStep(0x136A_B164, 4, 0x09B5_58B2);
    ShiftStep(0x09B5_58B2, 3, 0x04DA_AC59);
    ShiftStep(0x04DA_AC59, 2, 0xEFD5_D50C);
    ShiftStep(0xEFD5_D50C, 1, 0x77EA_EA86);
    assert 0x77EA_EA86 ^ (0x01 as int as bv32) == 0x77EA_EA87;
    ShiftStep(0x77EA_EA87, 8, 0xD64D_F663);
    ShiftStep(0xD64D_F663, 7, 0x869E_7811);
    ShiftStep(0x869E_7811, 6, 0xAEF7_BF28);
    ShiftStep(0xAEF7_BF28, 5, 0x577B_DF94);
    ShiftStep(0x577B_DF94, 4, 0x2BBD_EFCA);
    ShiftStep(0x2BBD_EFCA, 3, 0x15DE_F7E5);
    ShiftStep(0x15DE_F7E5, 2, 0xE757_F8D2);
    ShiftStep(0xE757_F8D2, 1, 0x73AB_FC69);
  }

  lemma CanisterIdRegister5()
    ensures Crc32Register(0xEDDA_1000, [0x01, 0x01]) == 0x73AB_FC69
  {
    CanisterIdCrcBytes5();
    RegisterStep(0xEDDA_1000, [0x01, 0x01], 0x77EA_EA86);
    RegisterStep(0x77EA_EA86, [0x01], 0x73AB_FC69);
  }

  lemma CanisterIdCrc()
    ensures Crc32([0x00, 0x00, 0x00, 0x00, 0x00, 0x00, 0x00, 0x01, 0x01, 0x01]) == 0x8C54_0396
  {
    CanisterIdRegister1();
    CanisterIdRegister2();
    CanisterIdRegister3();
    CanisterIdRegister4();
    CanisterIdRegister5();
  }

  lemma CanisterIdBlock1()
    ensures Block([0x8C, 0x54, 0x03, 0x96, 0x00], 8) == "rrkahfqa"
  {
    LowDigitsStep(17, 1, "", 'r');
    LowDigitsStep(561, 2, "r", 'r');
    LowDigitsStep(17962, 3, "rr", 'k');
    LowDigitsStep(574784, 4, "rrk", 'a');
    LowDigitsStep(18393095, 5, "rrka", 'h');
    LowDigitsStep(588579045, 6, "rrkah", 'f');
    LowDigitsStep(18834529456, 7, "rrkahf", 'q');
    LowDigitsStep(602704942592, 8, "rrkahfq", 'a');
    BlockStep([0x8C, 0x54, 0x03, 0x96, 0x00], 602704942592, 8, "rrkahfqa", "rrkahfqa");
  }

  lemma CanisterIdBlock2()
    ensures Block([0x00, 0x00, 0x00, 0x00, 0x00], 8) == "aaaaaaaa"
  {
    LowDigitsStep(0, 1, "", 'a');
    LowDigitsStep(0, 2, "a", 'a');
    LowDigitsStep(0, 3, "aa", 'a');
    LowDigitsStep(0, 4, "aaa", 'a');
    LowDigitsStep(0, 5, "aaaa", 'a');
    LowDigitsStep(0, 6, "aaaaa", 'a');
    LowDigitsStep(0, 7, "aaaaaa", 'a');
    LowDigitsStep(0, 8, "aaaaaaa", 'a');
    BlockStep([0x00, 0x00, 0x00, 0x00, 0x00], 0, 8, "aaaaaaaa", "aaaaaaaa");
  }

  lemma CanisterIdBlock3()
    ensures Block([0x00, 0x01, 0x01, 0x01, 0x00], 7) == "aaaqcai"
  {
    LowDigitsStep(0, 1, "", 'a');
    LowDigitsStep(0, 2, "a", 'a');
    LowDigitsStep(0, 3, "aa", 'a');
    LowDigitsStep(16, 4, "aaa", 'q');
    LowDigitsStep(514, 5, "aaaq", 'c');
    LowDigitsStep(16448, 6, "aaaqc", 'a');
    LowDigitsStep(526344, 7, "aaaqca", 'i');
    LowDigitsStep(16843008, 8, "aaaqcai", 'a');
    BlockStep([0x00, 0x01, 0x01, 0x01, 0x00], 16843008, 7, "aaaqcaia", "aaaqcai");
  }

  lemma CanisterIdDigits()
    ensures Base32([0x8C, 0x54, 0x03, 0x96, 0x00] + ([0x00, 0x00, 0x00, 0x00, 0x00] + [0x00, 0x01, 0x01, 0x01])) == "rrkahfqa" + ("aaaaaaaa" + "aaaqcai")
  {
    CanisterIdBlock1();
    CanisterIdBlock2();
    CanisterIdBlock3();
    Base32Last([0x00, 0x01, 0x01, 0x01], [0x00, 0x01, 0x01, 0x01, 0x00], "aaaqcai");
    Base32Front([0x00, 0x00, 0x00, 0x00, 0x00] + [0x00, 0x01, 0x01, 0x01], [0x00, 0x00, 0x00, 0x00, 0x00], [0x00, 0x01, 0x01, 0x01], "aaaqcai", "aaaaaaaa" + "aaaqcai");
    Base32Front([0x8C, 0x54, 0x03, 0x96, 0x00] + ([0x00, 0x00, 0x00, 0x00, 0x00] + [0x00, 0x01, 0x01, 0x01]), [0x8C, 0x54, 0x03, 0x96, 0x00], [0x00, 0x00, 0x00, 0x00, 0x00] + [0x00, 0x01, 0x01, 0x01], "aaaaaaaa" + "aaaqcai", "rrkahfqa" + ("aaaaaaaa" + "aaaqcai"));
  }

  lemma CanisterIdPayload()
    ensures BigEndian(0x8C54_0396) + [0x00, 0x00, 0x00, 0x00, 0x00, 0x00, 0x00, 0x01, 0x01, 0x01] == [0x8C, 0x54, 0x03, 0x96, 0x00] + ([0x00, 0x00, 0x00, 0x00, 0x00] + [0x00, 0x01, 0x01, 0x01])
  {
  }

  lemma CanisterIdGroups()
    ensures "rrkahfqa" + ("aaaaaaaa" + "aaaqcai") == "rrkah" + ("fqaaa" + ("aaaaa" + ("aaaaq" + "cai")))
    ensures "rrkah" + "-" + ("fqaaa" + "-" + ("aaaaa" + "-" + ("aaaaq" + "-" + "cai"))) == "rrkah-fqaaa-aaaaa-aaaaq-cai"
  {
  }

  lemma CanisterIdDashes()
    ensures Dashed("rrkah" + ("fqaaa" + ("aaaaa" + ("aaaaq" + "cai")))) == "rrkah" + "-" + ("fqaaa" + "-" + ("aaaaa" + "-" + ("aaaaq" + "-" + "cai")))
  {
    assert Dashed("cai") == "cai";
    DashedFront("aaaaq" + "cai", "aaaaq", "cai", "cai", "aaaaq" + "-" + "cai");
    DashedFront("aaaaa" + ("aaaaq" + "cai"), "aaaaa", "aaaaq" + "cai", "aaaaq" + "-" + "cai", "aaaaa" + "-" + ("aaaaq" + "-" + "cai"));
    DashedFront("fqaaa" + ("aaaaa" + ("aaaaq" + "cai")), "fqaaa", "aaaaa" + ("aaaaq" + "cai"), "aaaaa" + "-" + ("aaaaq" + "-" + "cai"), "fqaaa" + "-" + ("aaaaa" + "-" + ("aaaaq" + "-" + "cai")));
    DashedFront("rrkah" + ("fqaaa" + ("aaaaa" + ("aaaaq" + "cai"))), "rrkah", "fqaaa" + ("aaaaa" + ("aaaaq" + "cai")), "fqaaa" + "-" + ("aaaaa" + "-" + ("aaaaq" + "-" + "cai")), "rrkah" + "-" + ("fqaaa" + "-" + ("aaaaa" + "-" + ("aaaaq" + "-" + "cai"))));
  }

  /** A canister id (eight bytes of index, then 0x01 0x01) ends in a short block: "rrkah-fqaaa-aaaaa-aaaaq-cai". */
  lemma CanisterIdText()
    ensures ToText(Principal([0x00, 0x00, 0x00, 0x00, 0x00, 0x00, 0x00, 0x01, 0x01, 0x01])) == "rrkah-fqaaa-aaaaa-aaaaq-cai"
  {
    CanisterIdCrc();
    CanisterIdPayload();
    CanisterIdGroups();
    CanisterIdDigits();
    CanisterIdDashes();
  }

  lemma Foobar1Block()
    ensures Block([0x66, 0x00, 0x00, 0x00, 0x00], 2) == "my"
  {
    LowDigitsStep(12, 1, "", 'm');
    LowDigitsStep(408, 2, "m", 'y');
    LowDigitsStep(13056, 3, "my", 'a');
    LowDigitsStep(417792, 4, "mya", 'a');
    LowDigitsStep(13369344, 5, "myaa", 'a');
    LowDigitsStep(427819008, 6, "myaaa", 'a');
    LowDigitsStep(13690208256, 7, "myaaaa", 'a');
    LowDigitsStep(438086664192, 8, "myaaaaa", 'a');
    BlockStep([0x66, 0x00, 0x00, 0x00, 0x00], 438086664192, 2, "myaaaaaa", "my");
  }

  lemma Foobar1Digits()
    ensures Base32([0x66]) == "my"
  {
    Foobar1Block();
    Base32Last([0x66], [0x66, 0x00, 0x00, 0x00, 0x00], "my");
  }

  lemma Foobar2Block()
    ensures Block([0x66, 0x6F, 0x00, 0x00, 0x00], 4) == "mzxq"
  {
    LowDigitsStep(12, 1, "", 'm');
    LowDigitsStep(409, 2, "m", 'z');
    LowDigitsStep(13111, 3, "mz", 'x');
    LowDigitsStep(419568, 4, "mzx", 'q');
    LowDigitsStep(13426176, 5, "mzxq", 'a');
    LowDigitsStep(429637632, 6, "mzxqa", 'a');
    LowDigitsStep(13748404224, 7, "mzxqaa", 'a');
    LowDigitsStep(439948935168, 8, "mzxqaaa", 'a');
    BlockStep([0x66, 0x6F, 0x00, 0x00, 0x00], 439948935168, 4, "mzxqaaaa", "mzxq");
  }

  lemma Foobar2Digits()
    ensures Base32([0x66, 0x6F]) == "mzxq"
  {
    Foobar2Block();
    Base32Last([0x66, 0x6F], [0x66, 0x6F, 0x00, 0x00, 0x00], "mzxq");
  }

  lemma Foobar3Block()
    ensures Block([0x66, 0x6F, 0x6F, 0x00, 0x00], 5) == "mzxw6"
  {
    LowDigitsStep(12, 1, "", 'm');
    LowDigitsStep(409, 2, "m", 'z');
    LowDigitsStep(13111, 3, "mz", 'x');
    LowDigitsStep(419574, 4, "mzx", 'w');
    LowDigitsStep(13426398, 5, "mzxw", '6');
    LowDigitsStep(429644736, 6, "mzxw6", 'a');
    LowDigitsStep(13748631552, 7, "mzxw6a", 'a');
    LowDigitsStep(439956209664, 8, "mzxw6aa", 'a');
    BlockStep([0x66, 0x6F, 0x6F, 0x00, 0x00], 439956209664, 5, "mzxw6aaa", "mzxw6");
  }

  lemma Foobar3Digits()
    ensures Base32([0x66, 0x6F, 0x6F]) == "mzxw6"
  {
    Foobar3Block();
    Base32Last([0x66, 0x6F, 0x6F], [0x66, 0x6F, 0x6F, 0x00, 0x00], "mzxw6");
  }

  lemma Foobar4Block()
    ensures Block([0x66, 0x6F, 0x6F, 0x62, 0x00], 7) == "mzxw6yq"
  {
    LowDigitsStep(12, 1, "", 'm');
    LowDigitsStep(409, 2, "m", 'z');
    LowDigitsStep(13111, 3, "mz", 'x');
    LowDigitsStep(419574, 4, "mzx", 'w');
    LowDigitsStep(13426398, 5, "mzxw", '6');
    LowDigitsStep(429644760, 6, "mzxw6", 'y');
    LowDigitsStep(13748632336, 7, "mzxw6y", 'q');
    LowDigitsStep(439956234752, 8, "mzxw6yq", 'a');
    BlockStep([0x66, 0x6F, 0x6F, 0x62, 0x00], 439956234752, 7, "mzxw6yqa", "mzxw6yq");
  }

  lemma Foobar4Digits()
    ensures Base32([0x66, 0x6F, 0x6F, 0x62]) == "mzxw6yq"
  {
    Foobar4Block();
    Base32Last([0x66, 0x6F, 0x6F, 0x62], [0x66, 0x6F, 0x6F, 0x62, 0x00], "mzxw6yq");
  }

  lemma Foobar5Block()
    ensures Block([0x66, 0x6F, 0x6F, 0x62, 0x61], 8) == "mzxw6ytb"
  {
    LowDigitsStep(12, 1, "", 'm');
    LowDigitsStep(409, 2, "m", 'z');
    LowDigitsStep(13111, 3, "mz", 'x');
    LowDigitsStep(419574, 4, "mzx", 'w');
    LowDigitsStep(13426398, 5, "mzxw", '6');
    LowDigitsStep(429644760, 6, "mzxw6", 'y');
    LowDigitsStep(13748632339, 7, "mzxw6y", 't');
    LowDigitsStep(439956234849, 8, "mzxw6yt", 'b');
    BlockStep([0x66, 0x6F, 0x6F, 0x62, 0x61], 439956234849, 8, "mzxw6ytb", "mzxw6ytb");
  }

  lemma Foobar5Digits()
    ensures Base32([0x66, 0x6F, 0x6F, 0x62, 0x61]) == "mzxw6ytb"
  {
    Foobar5Block();
    Base32Front([0x66, 0x6F, 0x6F, 0x62, 0x61], [0x66, 0x6F, 0x6F, 0x62, 0x61], [], "", "mzxw6ytb");
  }

  lemma Foobar6Block2()
    ensures Block([0x72, 0x00, 0x00, 0x00, 0x00], 2) == "oi"
  {
    LowDigitsStep(14, 1, "", 'o');
    LowDigitsStep(456, 2, "o", 'i');
    LowDigitsStep(14592, 3, "oi", 'a');
    LowDigitsStep(466944, 4, "oia", 'a');
    LowDigitsStep(14942208, 5, "oiaa", 'a');
    LowDigitsStep(478150656, 6, "oiaaa", 'a');
    LowDigitsStep(15300820992, 7, "oiaaaa", 'a');
    LowDigitsStep(489626271744, 8, "oiaaaaa", 'a');
    BlockStep([0x72, 0x00, 0x00, 0x00, 0x00], 489626271744, 2, "oiaaaaaa", "oi");
  }

  lemma Foobar6Blocks()
    ensures [0x66, 0x6F, 0x6F, 0x62, 0x61, 0x72] == [0x66, 0x6F, 0x6F, 0x62, 0x61] + [0x72]
    ensures "mzxw6ytb" + "oi" == "mzxw6ytboi"
  {
  }

  lemma Foobar6Digits()
    ensures Base32([0x66, 0x6F, 0x6F, 0x62, 0x61, 0x72]) == "mzxw6ytboi"
  {
    Foobar5Block();
    Foobar6Block2();
    Foobar6Blocks();
    Base32Last([0x72], [0x72, 0x00, 0x00, 0x00, 0x00], "oi");
    Base32Front([0x66, 0x6F, 0x6F, 0x62, 0x61] + [0x72], [0x66, 0x6F, 0x6F, 0x62, 0x61], [0x72], "oi", "mzxw6ytb" + "oi");
  }

  /** The test vectors of section 10 of RFC 4648 ("f", "fo", ..., "foobar"),
      in lower case and without the padding `=` signs. */
  lemma Rfc4648Vectors()
    ensures Base32([0x66]) == "my"
    ensures Base32([0x66, 0x6F]) == "mzxq"
    ensures Base32([0x66, 0x6F, 0x6F]) == "mzxw6"
    ensures Base32([0x66, 0x6F, 0x6F, 0x62]) == "mzxw6yq"
    ensures Base32([0x66, 0x6F, 0x6F, 0x62, 0x61]) == "mzxw6ytb"
    ensures Base32([0x66, 0x6F, 0x6F, 0x62, 0x61, 0x72]) == "mzxw6ytboi"
  {
    Foobar1Digits();
    Foobar2Digits();
    Foobar3Digits();
    Foobar4Digits();
    Foobar5Digits();
    Foobar6Digits();
  }

  lemma AllOnesBlock()
    ensures Block([0xFF, 0x00, 0x00, 0x00, 0x00], 2) == "74"
  {
    LowDigitsStep(31, 1, "", '7');
    LowDigitsStep(1020, 2, "7", '4');
    LowDigitsStep(32640, 3, "74", 'a');
    LowDigitsStep(1044480, 4, "74a", 'a');
    LowDigitsStep(33423360, 5, "74aa", 'a');
    LowDigitsStep(1069547520, 6, "74aaa", 'a');
    LowDigitsStep(34225520640, 7, "74aaaa", 'a');
    LowDigitsStep(1095216660480, 8, "74aaaaa", 'a');
    BlockStep([0xFF, 0x00, 0x00, 0x00, 0x00], 1095216660480, 2, "74aaaaaa", "74");
  }

  /** A final block of one byte keeps its last bits: 0xFF gives "74" (11111 111 padded to 11100). */
  lemma AllOnesDigits()
    ensures Base32([0xFF]) == "74"
  {
    AllOnesBlock();
    Base32Last([0xFF], [0xFF, 0x00, 0x00, 0x00, 0x00], "74");
  }
}
