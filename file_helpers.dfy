/**
 * The pure helpers of src/dp_file.c: Base64 encoding (section 4 of
 * RFC 4648), the check a FILE_DATA part must pass, MIME type detection by
 * file extension and the file name of a path. C strings are modelled
 * without their terminating NUL.
 */
module FileHelpers {
  import opened Wrappers
  import opened Text

  newtype byte = x: int | 0 <= x < 256

  /** encoding_table: the 64 characters of the Base64 alphabet. */
  const Alphabet := "ABCDEFGHIJKLMNOPQRSTUVWXYZ" + "abcdefghijklmnopqrstuvwxyz" + "0123456789+/"

  /** The character of the alphabet for a 6-bit value. */
  function Base64Char(v: nat): char
    requires v < 64
  {
    if v < 26 then ('A' as nat + v) as char
    else if v < 52 then ('a' as nat + v - 26) as char
    else if v < 62 then ('0' as nat + v - 52) as char
    else if v == 62 then '+'
    else '/'
  }

  /** The value a Base64 character stands for, or None for any other character. */
  function CharValue(c: char): (r: Option<nat>)
    ensures r.Some? ==> r.value < 64 && Base64Char(r.value) == c
  {
    if 'A' <= c <= 'Z' then Some(c as nat - 'A' as nat)
    else if 'a' <= c <= 'z' then Some(c as nat - 'a' as nat + 26)
    else if '0' <= c <= '9' then Some(c as nat - '0' as nat + 52)
    else if c == '+' then Some(62)
    else if c == '/' then Some(63)
    else None
  }

  /** Every value reads back from its character. */
  lemma CharValueInverse(v: nat)
    requires v < 64
    ensures CharValue(Base64Char(v)) == Some(v)
  {
  }

  /** encoding_table holds the alphabet in value order. */
  lemma AlphabetTable(k: nat)
    requires k < 64
    ensures |Alphabet| == 64 && Alphabet[k] == Base64Char(k)
  {
    var upper, lower, digits := "ABCDEFGHIJKLMNOPQRSTUVWXYZ", "abcdefghijklmnopqrstuvwxyz", "0123456789+/";
    assert Alphabet == upper + lower + digits;
    if k < 26 {
      assert Alphabet[k] == upper[k];
    } else if k < 52 {
      assert Alphabet[k] == lower[k - 26];
    } else {
      assert Alphabet[k] == digits[k - 52];
    }
  }

  /** mod_table: how many '=' end the encoding of `n` bytes. */
  function PadCount(n: nat): nat {
    [0, 2, 1][n % 3]
  }

  /** output_length: four characters for every started group of three bytes. */
  function EncodedLength(n: nat): nat {
    4 * ((n + 2) / 3)
  }

  /** The 24-bit group of three bytes, most significant first. */
  function Triple(a: byte, b: byte, c: byte): nat {
    a as nat * 0x10000 + b as nat * 0x100 + c as nat
  }

  /** The `k`-th 6-bit slice (0 is the most significant) of a 24-bit group. */
  function Slice(triple: nat, k: nat): nat
    requires k < 4
  {
    if k == 0 then triple / 0x40000 % 64
    else if k == 1 then triple / 0x1000 % 64
    else if k == 2 then triple / 0x40 % 64
    else triple % 64
  }

  /** The four characters of a complete group. */
  function EncodeGroup(a: byte, b: byte, c: byte): (r: string)
    ensures |r| == 4
  {
    seq(4, k requires 0 <= k < 4 => Base64Char(Slice(Triple(a, b, c), k)))
  }

  /**
   * The Base64 encoding of section 4 of RFC 4648: each group of three
   * bytes becomes four characters; a final group of one or two bytes is
   * filled with zero bits to two or three characters and padded with '='.
   */
  function Encode(data: seq<byte>): (r: string)
    decreases |data|
  {
    if |data| == 0 then ""
    else if |data| == 1 then EncodeGroup(data[0], 0, 0)[..2] + "=="
    else if |data| == 2 then EncodeGroup(data[0], data[1], 0)[..3] + "="
    else EncodeGroup(data[0], data[1], data[2]) + Encode(data[3..])
  }

  /** The decoding of section 4 of RFC 4648, for text made of whole groups. */
  function Decode(s: string): Option<seq<byte>>
    decreases |s|
  {
    if |s| == 0 then Some([])
    else if |s| < 4 then None
    else
      var v0, v1 := CharValue(s[0]), CharValue(s[1]);
      var v2, v3 := CharValue(s[2]), CharValue(s[3]);
      if v0.None? || v1.None? then None
      else if |s| == 4 && s[2] == '=' && s[3] == '=' then
        Some([((v0.value * 0x40000 + v1.value * 0x1000) / 0x10000) as byte])
      else if v2.None? then None
      else if |s| == 4 && s[3] == '=' then
        var t := v0.value * 0x40000 + v1.value * 0x1000 + v2.value * 0x40;
        Some([(t / 0x10000) as byte, (t / 0x100 % 0x100) as byte])
      else if v3.None? then None
      else
        var t := v0.value * 0x40000 + v1.value * 0x1000 + v2.value * 0x40 + v3.value;
        match Decode(s[4..])
        case None => None
        case Some(rest) => Some([(t / 0x10000) as byte, (t / 0x100 % 0x100) as byte, (t % 0x100) as byte] + rest)
  }

  /** A product of a non-zero factor is at least the other factor in size. */
  lemma {:induction false} MulAway(k: int, d: int)
    requires d > 0 && k != 0
    ensures k * d >= d || k * d <= -d
    decreases if k < 0 then -k else k
  {
    if k > 1 {
      MulAway(k - 1, d);
      assert k * d == (k - 1) * d + d;
    } else if k < -1 {
      MulAway(k + 1, d);
      assert k * d == (k + 1) * d - d;
    }
  }

  /** Quotient and remainder are the only such pair. */
  lemma DivBy(x: int, d: int, q: int, r: int)
    requires 0 < d && 0 <= r < d && x == q * d + r
    ensures x / d == q && x % d == r
  {
    var q', r' := x / d, x % d;
    assert (q - q') * d == r' - r;
    if q != q' {
      MulAway(q - q', d);
    }
  }

  /** The slices of a group, read off its bytes: six, two and four, four and two, six bits. */
  lemma SliceValues(a: byte, b: byte, c: byte)
    ensures var t := Triple(a, b, c);
      && Slice(t, 0) == a as nat / 4 && Slice(t, 1) == a as nat % 4 * 16 + b as nat / 16
      && Slice(t, 2) == b as nat % 16 * 4 + c as nat / 64 && Slice(t, 3) == c as nat % 64
  {
    var t := Triple(a, b, c);
    var x, y, z := a as nat, b as nat, c as nat;
    DivBy(x, 4, x / 4, x % 4);
    DivBy(y, 16, y / 16, y % 16);
    DivBy(z, 64, z / 64, z % 64);
    var s0, s1 := x / 4, x % 4 * 16 + y / 16;
    var s2, s3 := y % 16 * 4 + z / 64, z % 64;
    assert t == s0 * 0x40000 + s1 * 0x1000 + s2 * 0x40 + s3;
    DivBy(t, 0x40000, s0, s1 * 0x1000 + s2 * 0x40 + s3);
    DivBy(s0, 64, 0, s0);
    DivBy(t, 0x1000, s0 * 64 + s1, s2 * 0x40 + s3);
    DivBy(s0 * 64 + s1, 64, s0, s1);
    DivBy(t, 0x40, s0 * 0x1000 + s1 * 64 + s2, s3);
    DivBy(s0 * 0x1000 + s1 * 64 + s2, 64, s0 * 64 + s1, s2);
    DivBy(t, 64, s0 * 0x1000 + s1 * 0x40 + s2, s3);
  }

  /** The slices of a group put back together give the group, and its bytes come back out of it. */
  lemma SlicesRecompose(a: byte, b: byte, c: byte)
    ensures var t := Triple(a, b, c);
      && Slice(t, 0) * 0x40000 + Slice(t, 1) * 0x1000 + Slice(t, 2) * 0x40 + Slice(t, 3) == t
      && t / 0x10000 == a as nat && t / 0x100 % 0x100 == b as nat && t % 0x100 == c as nat
  {
    var t := Triple(a, b, c);
    var x, y, z := a as nat, b as nat, c as nat;
    SliceValues(a, b, c);
    DivBy(x, 4, x / 4, x % 4);
    DivBy(y, 16, y / 16, y % 16);
    DivBy(z, 64, z / 64, z % 64);
    DivBy(t, 0x10000, x, y * 0x100 + z);
    DivBy(t, 0x100, x * 0x100 + y, z);
    DivBy(x * 0x100 + y, 0x100, x, y);
  }

  /** A final group of one byte decodes to that byte. */
  lemma DecodeOne(a: byte)
    ensures Decode(EncodeGroup(a, 0, 0)[..2] + "==") == Some([a])
  {
    var t := Triple(a, 0, 0);
    SlicesRecompose(a, 0, 0);
    SliceValues(a, 0, 0);
    CharValueInverse(Slice(t, 0));
    CharValueInverse(Slice(t, 1));
    var s := EncodeGroup(a, 0, 0)[..2] + "==";
    assert s == [Base64Char(Slice(t, 0)), Base64Char(Slice(t, 1)), '=', '='];
  }

  /** A final group of two bytes decodes to those bytes. */
  lemma DecodeTwo(a: byte, b: byte)
    ensures Decode(EncodeGroup(a, b, 0)[..3] + "=") == Some([a, b])
  {
    var t := Triple(a, b, 0);
    SlicesRecompose(a, b, 0);
    SliceValues(a, b, 0);
    CharValueInverse(Slice(t, 0));
    CharValueInverse(Slice(t, 1));
    CharValueInverse(Slice(t, 2));
    var s := EncodeGroup(a, b, 0)[..3] + "=";
    assert s == [Base64Char(Slice(t, 0)), Base64Char(Slice(t, 1)), Base64Char(Slice(t, 2)), '='];
  }

  /** A complete group decodes to its three bytes, ahead of what the rest decodes to. */
  lemma DecodeThree(a: byte, b: byte, c: byte, rest: string, r: seq<byte>)
    requires Decode(rest) == Some(r)
    ensures Decode(EncodeGroup(a, b, c) + rest) == Some([a, b, c] + r)
  {
    var t := Triple(a, b, c);
    SlicesRecompose(a, b, c);
    CharValueInverse(Slice(t, 0));
    CharValueInverse(Slice(t, 1));
    CharValueInverse(Slice(t, 2));
    CharValueInverse(Slice(t, 3));
    var s := EncodeGroup(a, b, c) + rest;
    assert s[4..] == rest;
  }

  /** One, two, or three and more bytes: the first group of the encoding. */
  lemma EncodeFirstGroup(data: seq<byte>)
    ensures |data| == 1 ==> Encode(data) == EncodeGroup(data[0], 0, 0)[..2] + "=="
    ensures |data| == 2 ==> Encode(data) == EncodeGroup(data[0], data[1], 0)[..3] + "="
    ensures |data| >= 3 ==> Encode(data) == EncodeGroup(data[0], data[1], data[2]) + Encode(data[3..])
  {
  }

  /** Decoding undoes encoding: every byte string reads back as itself. */
  lemma {:induction false} DecodeEncode(data: seq<byte>)
    ensures Decode(Encode(data)) == Some(data)
    decreases |data|
  {
    EncodeFirstGroup(data);
    if |data| == 1 {
      DecodeOne(data[0]);
      assert data == [data[0]];
    } else if |data| == 2 {
      DecodeTwo(data[0], data[1]);
      assert data == [data[0], data[1]];
    } else if |data| >= 3 {
      DecodeEncode(data[3..]);
      DecodeThree(data[0], data[1], data[2], Encode(data[3..]), data[3..]);
      assert data == [data[0], data[1], data[2]] + data[3..];
    }
  }

  /** The encoding of `n` bytes is `EncodedLength(n)` characters long. */
  lemma {:induction false} EncodeLength(data: seq<byte>)
    ensures |Encode(data)| == EncodedLength(|data|)
    decreases |data|
  {
    EncodeFirstGroup(data);
    if |data| >= 3 {
      EncodeLength(data[3..]);
      LengthAfterGroup(|data|);
    }
  }

  /** Three more bytes add one group of four characters and leave the padding as it was. */
  lemma LengthAfterGroup(n: nat)
    requires n >= 3
    ensures EncodedLength(n) == EncodedLength(n - 3) + 4 && PadCount(n) == PadCount(n - 3)
  {
    DivBy(n + 2, 3, (n - 1) / 3 + 1, (n - 1) % 3);
    DivBy(n, 3, (n - 3) / 3 + 1, (n - 3) % 3);
  }

  /** The byte at `i`, or the zero the encoder substitutes past the end. */
  function Octet(data: seq<byte>, i: nat): byte {
    if i < |data| then data[i] else 0
  }

  /**
   * What the encoder's group loop writes: every started group of three,
   * filled up with zero bytes, as four characters, before any padding.
   */
  function Groups(data: seq<byte>): string
    decreases |data|
  {
    if |data| == 0 then ""
    else EncodeGroup(Octet(data, 0), Octet(data, 1), Octet(data, 2)) + Groups(if |data| <= 3 then [] else data[3..])
  }

  /** There are `EncodedLength(n)` characters of groups for `n` bytes. */
  lemma {:induction false} GroupsLength(data: seq<byte>)
    ensures |Groups(data)| == EncodedLength(|data|)
    decreases |data|
  {
    if |data| > 3 {
      GroupsLength(data[3..]);
      LengthAfterGroup(|data|);
    }
  }

  /** Group `g` of the text is the encoding of bytes `3g`, `3g + 1` and `3g + 2`. */
  lemma {:induction false} GroupsAt(data: seq<byte>, g: nat)
    requires 4 * g + 4 <= |Groups(data)|
    ensures Groups(data)[4 * g..4 * g + 4] == EncodeGroup(Octet(data, 3 * g), Octet(data, 3 * g + 1), Octet(data, 3 * g + 2))
    decreases g
  {
    var first := EncodeGroup(Octet(data, 0), Octet(data, 1), Octet(data, 2));
    var rest := if |data| <= 3 then [] else data[3..];
    assert Groups(data) == first + Groups(rest);
    if g > 0 {
      GroupsAt(rest, g - 1);
      assert Groups(data)[4 * g..4 * g + 4] == Groups(rest)[4 * (g - 1)..4 * (g - 1) + 4];
      assert Octet(rest, 3 * (g - 1)) == Octet(data, 3 * g);
      assert Octet(rest, 3 * (g - 1) + 1) == Octet(data, 3 * g + 1);
      assert Octet(rest, 3 * (g - 1) + 2) == Octet(data, 3 * g + 2);
    }
  }

  /** A run of `n` padding characters. */
  function Padding(n: nat): string
    ensures |Padding(n)| == n
  {
    seq(n, _ => '=')
  }

  /**
   * The encoding is the groups with their last `PadCount` characters
   * replaced by '=': the encoder's loops and the RFC's definition agree.
   */
  lemma {:induction false} EncodeIsPaddedGroups(data: seq<byte>)
    ensures |Groups(data)| == EncodedLength(|data|) && PadCount(|data|) <= EncodedLength(|data|)
    ensures Encode(data) == Groups(data)[..EncodedLength(|data|) - PadCount(|data|)] + Padding(PadCount(|data|))
    decreases |data|
  {
    GroupsLength(data);
    EncodeFirstGroup(data);
    var first := EncodeGroup(Octet(data, 0), Octet(data, 1), Octet(data, 2));
    if |data| == 1 {
      assert Groups(data) == first + Groups([]);
    } else if |data| == 2 {
      assert Groups(data) == first + Groups([]);
    } else if |data| == 3 {
      assert Groups(data) == first + Groups([]);
      assert Encode(data[3..]) == "";
    } else if |data| > 3 {
      var rest := data[3..];
      EncodeIsPaddedGroups(rest);
      LengthAfterGroup(|data|);
      assert Groups(data) == first + Groups(rest);
      var cut := EncodedLength(|rest|) - PadCount(|rest|);
      assert Groups(data)[..EncodedLength(|data|) - PadCount(|data|)] == first + Groups(rest)[..cut];
    }
  }

  /** Every character of the groups is a Base64 character. */
  lemma {:induction false} GroupsInAlphabet(data: seq<byte>)
    ensures forall k :: 0 <= k < |Groups(data)| ==> CharValue(Groups(data)[k]).Some?
    decreases |data|
  {
    if |data| > 0 {
      var first := EncodeGroup(Octet(data, 0), Octet(data, 1), Octet(data, 2));
      var rest := if |data| <= 3 then [] else data[3..];
      GroupsInAlphabet(rest);
      forall v | 0 <= v < 64 ensures CharValue(Base64Char(v)).Some? {
        CharValueInverse(v);
      }
      assert Groups(data) == first + Groups(rest);
    }
  }

  /**
   * The encoded text is made of alphabet characters and ends in exactly
   * PadCount(n) '=' characters ({0, 2, 1} for n mod 3 = 0, 1, 2).
   */
  lemma EncodePadding(data: seq<byte>)
    ensures var r := Encode(data);
      && |r| == EncodedLength(|data|) && PadCount(|data|) <= |r|
      && (forall k :: 0 <= k < |r| - PadCount(|data|) ==> CharValue(r[k]).Some?)
      && (forall k :: |r| - PadCount(|data|) <= k < |r| ==> r[k] == '=')
  {
    EncodeIsPaddedGroups(data);
    GroupsInAlphabet(data);
  }

  /** "Hello World!", as bytes. */
  const HelloWorld: seq<byte> := [72, 101, 108, 108, 111, 32, 87, 111, 114, 108, 100, 33]

  /** The four characters of a group, read off its bytes. */
  lemma GroupChars(a: byte, b: byte, c: byte)
    ensures EncodeGroup(a, b, c) == [Base64Char(a as nat / 4), Base64Char(a as nat % 4 * 16 + b as nat / 16),
      Base64Char(b as nat % 16 * 4 + c as nat / 64), Base64Char(c as nat % 64)]
  {
    SliceValues(a, b, c);
  }

  /** "World!" encodes as "V29ybGQh". */
  lemma WorldEncoding()
    ensures Encode([87, 111, 114, 108, 100, 33]) == "V29ybGQh"
  {
    EncodeFirstGroup([108, 100, 33]);
    GroupChars(108, 100, 33);
    assert Encode([108, 100, 33]) == "bGQh";
    EncodeFirstGroup([87, 111, 114, 108, 100, 33]);
    GroupChars(87, 111, 114);
  }

  /** "lo World!" encodes as "bG8gV29ybGQh". */
  lemma LoWorldEncoding()
    ensures Encode([108, 111, 32, 87, 111, 114, 108, 100, 33]) == "bG8gV29ybGQh"
  {
    var tail: seq<byte> := [108, 111, 32, 87, 111, 114, 108, 100, 33];
    WorldEncoding();
    assert tail[3..] == [87, 111, 114, 108, 100, 33];
    EncodeFirstGroup(tail);
    GroupChars(108, 111, 32);
  }

  /** "Hello World!" encodes, group by group, as "SGVs", "bG8g", "V29y" and "bGQh". */
  lemma HelloWorldEncoding()
    ensures Encode(HelloWorld) == "SGVsbG8gV29ybGQh"
  {
    LoWorldEncoding();
    assert HelloWorld[3..] == [108, 111, 32, 87, 111, 114, 108, 100, 33];
    EncodeFirstGroup(HelloWorld);
    GroupChars(72, 101, 108);
  }

  /**
   * dpinternal_base64_encode: one pass over the input in groups of three
   * (bytes past the end read as 0) writing four characters each, then the
   * padding written over the last characters, then the terminating NUL.
   */
  method Base64Encode(data: seq<byte>) returns (encoded: array<char>)
    ensures encoded.Length == EncodedLength(|data|) + 1
    ensures encoded[..EncodedLength(|data|)] == Encode(data) && encoded[EncodedLength(|data|)] == '\0'
  {
    var outputLength := 4 * ((|data| + 2) / 3);
    encoded := new char[outputLength + 1];
    WriteGroups(encoded, data);
    WritePadding(encoded, |data|);
    encoded[outputLength] := '\0';
    EncodeIsPaddedGroups(data);
    assert encoded[..outputLength] == Encode(data);
  }

  /**
   * The loop over the groups of three, bytes past the end read as zero,
   * each written as four characters.
   */
  method WriteGroups(encoded: array<char>, data: seq<byte>)
    requires encoded.Length == EncodedLength(|data|) + 1
    modifies encoded
    ensures encoded[..EncodedLength(|data|)] == Groups(data)
  {
    GroupsLength(data);
    ghost var groups := (|data| + 2) / 3;
    assert 3 * groups <= |data| + 2 < 3 * groups + 3 && encoded.Length == 4 * groups + 1;
    var i, j := 0, 0;
    ghost var g := 0;
    while i < |data|
      invariant j == 4 * g && 3 * g < |data| + 3 && i == (if 3 * g <= |data| then 3 * g else |data|)
      invariant g <= groups
      invariant encoded[..j] == Groups(data)[..j]
    {
      var a, b, c;
      a, b, c, i := ReadGroup(data, i);
      WriteGroup(encoded, j, a, b, c);
      GroupStep(data, g, encoded[..]);
      j, g := j + 4, g + 1;
    }
  }

  /** Text agreeing with the groups before group `g`, and holding group `g`, agrees with them through it. */
  lemma GroupStep(data: seq<byte>, g: nat, s: seq<char>)
    requires 4 * g + 4 <= |Groups(data)| && 4 * g + 4 <= |s|
    requires s[..4 * g] == Groups(data)[..4 * g]
    requires s[4 * g..4 * g + 4] == EncodeGroup(Octet(data, 3 * g), Octet(data, 3 * g + 1), Octet(data, 3 * g + 2))
    ensures s[..4 * g + 4] == Groups(data)[..4 * g + 4]
  {
    GroupsAt(data, g);
    PrefixGrows(s, Groups(data), 4 * g, 4);
  }

  /** Two sequences agreeing up to `j` and on the next `n` elements agree up to `j + n`. */
  lemma PrefixGrows(s: seq<char>, t: seq<char>, j: nat, n: nat)
    requires j + n <= |s| && j + n <= |t|
    requires s[..j] == t[..j] && s[j..j + n] == t[j..j + n]
    ensures s[..j + n] == t[..j + n]
  {
    assert s[..j + n] == s[..j] + s[j..j + n];
    assert t[..j + n] == t[..j] + t[j..j + n];
  }

  /** The three bytes of the group starting at `i`, zero past the end, and the index after them. */
  method ReadGroup(data: seq<byte>, i: nat) returns (a: byte, b: byte, c: byte, next: nat)
    requires i < |data|
    ensures a == Octet(data, i) && b == Octet(data, i + 1) && c == Octet(data, i + 2)
    ensures next == if i + 3 <= |data| then i + 3 else |data|
  {
    a, b, c := data[i], 0, 0;
    next := i + 1;
    if next < |data| {
      b := data[next];
      next := next + 1;
    }
    if next < |data| {
      c := data[next];
      next := next + 1;
    }
  }

  /** The '=' written over the last `PadCount(n)` positions, counted back from the end. */
  method WritePadding(encoded: array<char>, n: nat)
    requires encoded.Length == EncodedLength(n) + 1
    modifies encoded
    ensures forall k :: 0 <= k < encoded.Length ==>
      encoded[k] == if EncodedLength(n) - PadCount(n) <= k < EncodedLength(n) then '=' else old(encoded[k])
  {
    var outputLength := 4 * ((n + 2) / 3);
    var padding := [0, 2, 1][n % 3];
    var p := 0;
    while p < padding
      invariant p <= padding && padding <= outputLength
      invariant forall k :: 0 <= k < encoded.Length ==>
        encoded[k] == if outputLength - p <= k < outputLength then '=' else old(encoded[k])
    {
      encoded[outputLength - 1 - p] := '=';
      p := p + 1;
    }
  }

  /** The four characters of one group, written from position `j` on. */
  method WriteGroup(encoded: array<char>, j: nat, a: byte, b: byte, c: byte)
    requires j + 4 <= encoded.Length
    modifies encoded
    ensures encoded[j..j + 4] == EncodeGroup(a, b, c)
    ensures encoded[..j] == old(encoded[..j]) && encoded[j + 4..] == old(encoded[j + 4..])
  {
    var triple := a as nat * 0x10000 + b as nat * 0x100 + c as nat;
    AlphabetTable(triple / 0x40000 % 0x40);
    AlphabetTable(triple / 0x1000 % 0x40);
    AlphabetTable(triple / 0x40 % 0x40);
    AlphabetTable(triple % 0x40);
    encoded[j] := Alphabet[triple / 0x40000 % 0x40];
    encoded[j + 1] := Alphabet[triple / 0x1000 % 0x40];
    encoded[j + 2] := Alphabet[triple / 0x40 % 0x40];
    encoded[j + 3] := Alphabet[triple % 0x40];
  }

  /**
   * dpinternal_validate_file_data_part: a MIME type and data are both
   * given and non-empty, and the data length is a multiple of 4; the
   * filename plays no part.
   */
  predicate ValidFileDataPart(mimeType: Option<string>, data: Option<string>, filename: Option<string>) {
    if mimeType.None? || data.None? then false
    else if |mimeType.value| == 0 || |data.value| == 0 then false
    else |data.value| % 4 == 0
  }

  /**
   * The check accepts exactly a given, non-empty MIME type with given,
   * non-empty data whose length is a multiple of 4, for every filename.
   */
  lemma ValidFileDataPartIff(mimeType: Option<string>, data: Option<string>, filename: Option<string>)
    ensures ValidFileDataPart(mimeType, data, filename) <==>
      mimeType.Some? && |mimeType.value| > 0 && data.Some? && |data.value| > 0 && |data.value| % 4 == 0
    ensures ValidFileDataPart(mimeType, data, filename) == ValidFileDataPart(mimeType, data, None)
  {
  }

  /** What the encoder produces for a non-empty input passes the check, whatever the filename. */
  lemma EncodedDataValidates(mimeType: string, data: seq<byte>, filename: Option<string>)
    requires |mimeType| > 0 && |data| >= 1
    ensures ValidFileDataPart(Some(mimeType), Some(Encode(data)), filename)
    ensures ValidFileDataPart(Some(mimeType), Some(Encode(data)), None)
  {
    EncodeLength(data);
    WholeGroups(|data|);
  }

  /** The output length counts whole groups of four, at least one for any input. */
  lemma WholeGroups(n: nat)
    ensures EncodedLength(n) % 4 == 0 && (n > 0 ==> EncodedLength(n) >= 4)
  {
    DivBy(EncodedLength(n), 4, (n + 2) / 3, 0);
  }

  const OctetStream := "application/octet-stream"

  /** The extension table, searched in order as the strcmp chain is. */
  const MimeTable: seq<(string, string)> := [
    (".txt", "text/plain"), (".html", "text/html"), (".htm", "text/html"), (".css", "text/css"),
    (".js", "application/javascript"), (".json", "application/json"), (".xml", "application/xml"),
    (".pdf", "application/pdf"), (".doc", "application/msword"),
    (".docx", "application/vnd.openxmlformats-" + "officedocument.wordprocessingml.document"),
    (".xls", "application/vnd.ms-excel"),
    (".xlsx", "application/vnd.openxmlformats-" + "officedocument.spreadsheetml.sheet"),
    (".ppt", "application/vnd.ms-powerpoint"),
    (".pptx", "application/vnd.openxmlformats-" + "officedocument.presentationml.presentation"),
    (".zip", "application/zip"), (".tar", "application/x-tar"), (".gz", "application/gzip"),
    (".jpg", "image/jpeg"), (".jpeg", "image/jpeg"), (".png", "image/png"), (".gif", "image/gif"),
    (".bmp", "image/bmp"), (".svg", "image/svg+xml"), (".mp3", "audio/mpeg"), (".wav", "audio/wav"),
    (".mp4", "video/mp4"), (".avi", "video/x-msvideo"), (".mov", "video/quicktime"),
    (".csv", "text/csv"), (".md", "text/markdown"), (".c", "text/x-c"), (".h", "text/x-c"),
    (".cpp", "text/x-c++"), (".cc", "text/x-c++"), (".cxx", "text/x-c++"), (".py", "text/x-python"),
    (".java", "text/x-java"), (".sh", "application/x-sh")]

  /** The MIME type of the first table entry with this extension. */
  function TableLookup(table: seq<(string, string)>, ext: string): Option<string> {
    if |table| == 0 then None
    else if table[0].0 == ext then Some(table[0].1)
    else TableLookup(table[1..], ext)
  }

  /** The lookup finds the first entry with the extension, and nothing when there is none. */
  lemma {:induction false} TableLookupFirst(table: seq<(string, string)>, ext: string, i: nat)
    requires i < |table| && table[i].0 == ext && forall j :: 0 <= j < i ==> table[j].0 != ext
    ensures TableLookup(table, ext) == Some(table[i].1)
    decreases i
  {
    if i > 0 {
      TableLookupFirst(table[1..], ext, i - 1);
    }
  }

  /** An entry of the extension table is what the lookup finds for its extension, when no earlier entry has it. */
  lemma TableEntry(ext: string, i: nat)
    requires i < |MimeTable| && MimeTable[i].0 == ext && forall j :: 0 <= j < i ==> MimeTable[j].0 != ext
    ensures TableLookup(MimeTable, ext) == Some(MimeTable[i].1)
  {
    TableLookupFirst(MimeTable, ext, i);
  }

  /** An extension no entry has is not found. */
  lemma {:induction false} TableLookupMissing(table: seq<(string, string)>, ext: string)
    requires forall j :: 0 <= j < |table| ==> table[j].0 != ext
    ensures TableLookup(table, ext) == None
    decreases |table|
  {
    if |table| > 0 {
      TableLookupMissing(table[1..], ext);
    }
  }

  /**
   * dpinternal_detect_mime_type: the extension runs from the last '.'; no
   * name, no '.', or an extension of 32 characters or more gives
   * application/octet-stream; otherwise the lower-cased extension is
   * looked up, and an unlisted one gives application/octet-stream too.
   */
  function DetectMime(filename: Option<string>): string {
    if filename.None? then OctetStream
    else match LastIndexOf(filename.value, '.')
      case None => OctetStream
      case Some(k) =>
        var ext := filename.value[k..];
        if |ext| >= 32 then OctetStream
        else TableLookup(MimeTable, LowerAll(ext)).GetOr(OctetStream)
  }

  /** Lower-casing commutes with taking a suffix. */
  lemma LowerAllSuffix(s: string, k: nat)
    requires k <= |s|
    ensures LowerAll(s)[k..] == LowerAll(s[k..])
  {
  }

  /** Lower-casing twice is lower-casing once. */
  lemma LowerAllTwice(s: string)
    ensures LowerAll(LowerAll(s)) == LowerAll(s)
  {
  }

  /** Lower-casing the name first changes nothing: the lookup ignores case. */
  lemma MimeIgnoresCase(filename: string)
    ensures DetectMime(Some(LowerAll(filename))) == DetectMime(Some(filename))
  {
    LastIndexOfLower(filename);
    match LastIndexOf(filename, '.')
    case None =>
    case Some(k) =>
      LowerAllSuffix(filename, k);
      LowerAllTwice(filename[k..]);
  }

  lemma {:induction false} LastIndexOfLower(s: string)
    ensures LastIndexOf(LowerAll(s), '.') == LastIndexOf(s, '.')
    decreases |s|
  {
    if |s| > 0 {
      var init := s[..|s| - 1];
      assert LowerAll(s)[..|s| - 1] == LowerAll(init);
      LastIndexOfLower(init);
    }
  }

  /** The last '.' of a name is the one with no '.' after it. */
  lemma LastDotAt(s: string, k: nat)
    requires k < |s| && s[k] == '.' && forall j :: k < j < |s| ==> s[j] != '.'
    ensures LastIndexOf(s, '.') == Some(k)
  {
  }

  /** An upper-case extension is found in lower case. */
  lemma MimeUpperCase()
    ensures DetectMime(Some("photo.JPG")) == "image/jpeg"
  {
    LastDotAt("photo.JPG", 5);
    assert "photo.JPG"[5..] == ".JPG";
    assert LowerAll(".JPG") == ".jpg";
    TableEntry(".jpg", 17);
  }

  /** Both spellings of the HTML extension. */
  lemma MimeShortHtml()
    ensures DetectMime(Some("index.htm")) == "text/html"
  {
    LastDotAt("index.htm", 5);
    assert "index.htm"[5..] == ".htm";
    assert LowerAll(".htm") == ".htm";
    TableEntry(".htm", 2);
  }

  /** Only what follows the last '.' counts. */
  lemma MimeLastDot()
    ensures DetectMime(Some("backup.tar.gz")) == "application/gzip"
  {
    LastDotAt("backup.tar.gz", 10);
    assert "backup.tar.gz"[10..] == ".gz";
    assert LowerAll(".gz") == ".gz";
    TableEntry(".gz", 16);
  }

  /** No '.' and no name at all both give application/octet-stream. */
  lemma MimeNoExtension()
    ensures DetectMime(Some("README")) == OctetStream
    ensures DetectMime(None) == OctetStream
  {
  }

  /** An extension of 32 characters or more, dot included, is not looked up. */
  lemma MimeLongExtension(filename: string, k: nat)
    requires k < |filename| && filename[k] == '.' && forall j :: k < j < |filename| ==> filename[j] != '.'
    requires |filename| - k >= 32
    ensures DetectMime(Some(filename)) == OctetStream
  {
    LastDotAt(filename, k);
  }

  /**
   * The function as written, with its lower-casing loop into the local
   * 32-character array.
   */
  method DetectMimeType(filename: Option<string>) returns (mime: string)
    ensures mime == DetectMime(filename)
  {
    if filename.None? {
      return OctetStream;
    }
    var dot := LastIndexOf(filename.value, '.');
    if dot.None? {
      return OctetStream;
    }
    var ext := filename.value[dot.value..];
    if |ext| >= 32 {
      return OctetStream;
    }
    var lowerExt := new char[32];
    var i := 0;
    while i < |ext|
      invariant i <= |ext|
      invariant forall k :: 0 <= k < i ==> lowerExt[k] == ToLower(ext[k])
    {
      lowerExt[i] := ToLower(ext[i]);
      i := i + 1;
    }
    lowerExt[|ext|] := '\0';
    assert lowerExt[..|ext|] == LowerAll(ext);
    mime := TableLookup(MimeTable, lowerExt[..|ext|]).GetOr(OctetStream);
  }

  /**
   * dpinternal_get_filename_from_path: what follows the last '/', or the
   * whole path when it has none.
   */
  function FilenameFromPath(path: string): (r: string)
    ensures |r| <= |path| && path[|path| - |r|..] == r && '/' !in r
    ensures |r| < |path| ==> path[|path| - |r| - 1] == '/'
  {
    match LastIndexOf(path, '/')
    case Some(k) => path[k + 1..]
    case None => path
  }
}
