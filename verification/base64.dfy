/**
 * Standard base64 encoding with padding, as defined in section 4 of RFC 4648
 * (Go's `base64.StdEncoding.EncodeToString`), with a decoder proved to invert it.
 */
module Base64 {
  import opened Wrappers

  type byte = bv8

  /** The character for a 6-bit value, from the alphabet of section 4 of RFC 4648. */
  function CharOf(v: bv8): (c: char)
    requires v < 64
  {
    if v < 26 then ('A' as int + v as int) as char
    else if v < 52 then ('a' as int + (v as int - 26)) as char
    else if v < 62 then ('0' as int + (v as int - 52)) as char
    else if v == 62 then '+'
    else '/'
  }

  /** The 6-bit value of an alphabet character; None for padding and anything else. */
  function ValueOf(c: char): (r: Option<bv8>)
    ensures r.Some? ==> r.value < 64
  {
    if 'A' <= c <= 'Z' then Some((c as int - 'A' as int) as bv8)
    else if 'a' <= c <= 'z' then Some((c as int - 'a' as int + 26) as bv8)
    else if '0' <= c <= '9' then Some((c as int - '0' as int + 52) as bv8)
    else if c == '+' then Some(62)
    else if c == '/' then Some(63)
    else None
  }

  /** Characters that may appear in an encoding: the alphabet and the pad `=`. */
  predicate IsEncodingChar(c: char) {
    ValueOf(c).Some? || c == '='
  }

  /** ValueOf inverts CharOf on each range of the alphabet: upper case, lower case, digits, `+` and `/`. */
  lemma ValueOfUpper(v: bv8)
    requires v < 26
    ensures ValueOf(CharOf(v)) == Some(v)
  {
  }

  lemma ValueOfLower(v: bv8)
    requires 26 <= v < 52
    ensures ValueOf(CharOf(v)) == Some(v)
  {
  }

  lemma ValueOfDigit(v: bv8)
    requires 52 <= v < 62
    ensures ValueOf(CharOf(v)) == Some(v)
  {
  }

  lemma ValueOfSymbol(v: bv8)
    requires 62 <= v < 64
    ensures ValueOf(CharOf(v)) == Some(v)
  {
  }

  lemma ValueOfCharOf(v: bv8)
    requires v < 64
    ensures ValueOf(CharOf(v)) == Some(v)
    ensures CharOf(v) != '='
  {
    if v < 26 {
      ValueOfUpper(v);
    } else if v < 52 {
      ValueOfLower(v);
    } else if v < 62 {
      ValueOfDigit(v);
    } else {
      ValueOfSymbol(v);
    }
  }

  /** Four characters for three bytes: 24 bits split into four sextets, high bits first. */
  function EncodeGroup(a: byte, b: byte, c: byte): (s: string)
    ensures |s| == 4
  {
    [CharOf(a >> 2), CharOf(((a & 3) << 4) | (b >> 4)), CharOf(((b & 15) << 2) | (c >> 6)), CharOf(c & 63)]
  }

  /** The final group for two remaining bytes: three characters and one pad. */
  function EncodePair(a: byte, b: byte): (s: string)
    ensures |s| == 4
  {
    [CharOf(a >> 2), CharOf(((a & 3) << 4) | (b >> 4)), CharOf((b & 15) << 2), '=']
  }

  /** The final group for one remaining byte: two characters and two pads. */
  function EncodeSingle(a: byte): (s: string)
    ensures |s| == 4
  {
    [CharOf(a >> 2), CharOf((a & 3) << 4), '=', '=']
  }

  /** Standard base64 of `data`, padded to a multiple of four characters. */
  function Encode(data: seq<byte>): (s: string)
    ensures |s| == 4 * ((|data| + 2) / 3)
    ensures forall i :: 0 <= i < |s| ==> IsEncodingChar(s[i])
    decreases |data|
  {
    if |data| == 0 then ""
    else if |data| == 1 then
      ValueOfCharOf(data[0] >> 2);
      ValueOfCharOf((data[0] & 3) << 4);
      EncodeSingle(data[0])
    else if |data| == 2 then
      ValueOfCharOf(data[0] >> 2);
      ValueOfCharOf(((data[0] & 3) << 4) | (data[1] >> 4));
      ValueOfCharOf((data[1] & 15) << 2);
      EncodePair(data[0], data[1])
    else
      ValueOfCharOf(data[0] >> 2);
      ValueOfCharOf(((data[0] & 3) << 4) | (data[1] >> 4));
      ValueOfCharOf(((data[1] & 15) << 2) | (data[2] >> 6));
      ValueOfCharOf(data[2] & 63);
      EncodeGroup(data[0], data[1], data[2]) + Encode(data[3..])
  }

  /** Three bytes from four sextets (the inverse of the split in EncodeGroup). */
  function JoinSextets(w: bv8, x: bv8, y: bv8, z: bv8): (bs: seq<byte>)
    ensures |bs| == 3
  {
    [(w << 2) | (x >> 4), (x << 4) | (y >> 2), (y << 6) | z]
  }

  /**
   * Decodes one group of four characters; padding is accepted only in the final
   * group, and there only when the bits the padding leaves unused are zero
   * (section 3.5 of RFC 4648), so every byte string has one encoding.
   */
  function DecodeGroup(q: string, final: bool): Option<seq<byte>>
    requires |q| == 4
  {
    var w := ValueOf(q[0]);
    var x := ValueOf(q[1]);
    if w.None? || x.None? then None
    else if final && q[2] == '=' && q[3] == '=' then
      if x.value & 15 != 0 then None
      else Some(JoinSextets(w.value, x.value, 0, 0)[..1])
    else
      var y := ValueOf(q[2]);
      if y.None? then None
      else if final && q[3] == '=' then
        if y.value & 3 != 0 then None
        else Some(JoinSextets(w.value, x.value, y.value, 0)[..2])
      else
        var z := ValueOf(q[3]);
        if z.None? then None
        else Some(JoinSextets(w.value, x.value, y.value, z.value))
  }

  /** Decodes a padded standard base64 string; None when it is not one. */
  function Decode(s: string): Option<seq<byte>>
    decreases |s|
  {
    if |s| == 0 then Some([])
    else if |s| < 4 then None
    else
      match DecodeGroup(s[..4], |s| == 4)
      case None => None
      case Some(head) =>
        match Decode(s[4..])
        case None => None
        case Some(tail) => Some(head + tail)
  }

  /** Joining the four sextets EncodeGroup splits three bytes into gives the bytes back. */
  lemma JoinSplit(a: byte, b: byte, c: byte)
    ensures JoinSextets(a >> 2, ((a & 3) << 4) | (b >> 4), ((b & 15) << 2) | (c >> 6), c & 63) == [a, b, c]
  {
    var bs := JoinSextets(a >> 2, ((a & 3) << 4) | (b >> 4), ((b & 15) << 2) | (c >> 6), c & 63);
    assert bs[0] == a && bs[1] == b && bs[2] == c;
  }

  /** The same for the one-byte and two-byte final groups, whose missing sextets are zero. */
  lemma JoinSplitShort(a: byte, b: byte)
    ensures JoinSextets(a >> 2, (a & 3) << 4, 0, 0)[..1] == [a]
    ensures JoinSextets(a >> 2, ((a & 3) << 4) | (b >> 4), (b & 15) << 2, 0)[..2] == [a, b]
  {
    var one := JoinSextets(a >> 2, (a & 3) << 4, 0, 0);
    assert one[0] == a;
    var two := JoinSextets(a >> 2, ((a & 3) << 4) | (b >> 4), (b & 15) << 2, 0);
    assert two[0] == a && two[1] == b;
  }

  lemma DecodeEncodeGroup(a: byte, b: byte, c: byte, final: bool)
    ensures DecodeGroup(EncodeGroup(a, b, c), final) == Some([a, b, c])
  {
    ValueOfCharOf(a >> 2);
    ValueOfCharOf(((a & 3) << 4) | (b >> 4));
    ValueOfCharOf(((b & 15) << 2) | (c >> 6));
    ValueOfCharOf(c & 63);
    JoinSplit(a, b, c);
  }

  /** The final group of one byte decodes to that byte. */
  lemma DecodeSingleGroup(a: byte)
    ensures DecodeGroup(EncodeSingle(a), true) == Some([a])
  {
    ValueOfCharOf(a >> 2);
    ValueOfCharOf((a & 3) << 4);
    JoinSplitShort(a, 0);
  }

  /** The final group of two bytes decodes to those bytes. */
  lemma DecodePairGroup(a: byte, b: byte)
    ensures DecodeGroup(EncodePair(a, b), true) == Some([a, b])
  {
    ValueOfCharOf(a >> 2);
    ValueOfCharOf(((a & 3) << 4) | (b >> 4));
    ValueOfCharOf((b & 15) << 2);
    JoinSplitShort(a, b);
  }

  /** A string of exactly one group decodes as that group in final position. */
  lemma DecodeLastGroup(s: string)
    requires |s| == 4
    ensures Decode(s) == match DecodeGroup(s, true) case None => None case Some(head) => Some(head + [])
  {
    assert s[..4] == s;
    assert s[4..] == [];
  }

  lemma DecodeEncodeSingle(data: seq<byte>)
    requires |data| == 1
    ensures Decode(Encode(data)) == Some(data)
  {
    DecodeSingleGroup(data[0]);
    DecodeLastGroup(EncodeSingle(data[0]));
    assert [data[0]] + [] == data;
  }

  lemma DecodeEncodePair(data: seq<byte>)
    requires |data| == 2
    ensures Decode(Encode(data)) == Some(data)
  {
    DecodePairGroup(data[0], data[1]);
    DecodeLastGroup(EncodePair(data[0], data[1]));
    assert [data[0], data[1]] + [] == data;
  }

  /** Decoding a group followed by more text: the group's bytes, then the rest's. */
  lemma DecodeConcat(g: string, rest: string, head: seq<byte>, tail: seq<byte>)
    requires |g| == 4
    requires DecodeGroup(g, |rest| == 0) == Some(head)
    requires Decode(rest) == Some(tail)
    ensures Decode(g + rest) == Some(head + tail)
  {
    var s := g + rest;
    assert s[..4] == g;
    assert s[4..] == rest;
  }

  /** Decoding the encoding of any byte string gives back exactly those bytes. */
  lemma {:induction false} DecodeEncode(data: seq<byte>)
    ensures Decode(Encode(data)) == Some(data)
    decreases |data|
  {
    if |data| == 0 {
    } else if |data| == 1 {
      DecodeEncodeSingle(data);
    } else if |data| == 2 {
      DecodeEncodePair(data);
    } else {
      var g := EncodeGroup(data[0], data[1], data[2]);
      var rest := Encode(data[3..]);
      DecodeEncodeGroup(data[0], data[1], data[2], |rest| == 0);
      DecodeEncode(data[3..]);
      DecodeConcat(g, rest, [data[0], data[1], data[2]], data[3..]);
      assert [data[0], data[1], data[2]] + data[3..] == data;
    }
  }

  /** Encoding is injective: distinct byte strings never share an encoding. */
  lemma EncodeInjective(d1: seq<byte>, d2: seq<byte>)
    ensures Encode(d1) == Encode(d2) ==> d1 == d2
  {
    DecodeEncode(d1);
    DecodeEncode(d2);
  }

  /** CharOf inverts ValueOf on each range of the alphabet. */
  lemma CharOfUpper(c: char)
    requires 'A' <= c <= 'Z'
    ensures CharOf((c as int - 'A' as int) as bv8) == c
  {
    var k := c as int - 'A' as int;
    assert (k as bv8) as int == k;
  }

  lemma CharOfLower(c: char)
    requires 'a' <= c <= 'z'
    ensures CharOf((c as int - 'a' as int + 26) as bv8) == c
  {
    var k := c as int - 'a' as int + 26;
    assert (k as bv8) as int == k;
  }

  lemma CharOfDigit(c: char)
    requires '0' <= c <= '9'
    ensures CharOf((c as int - '0' as int + 52) as bv8) == c
  {
    var k := c as int - '0' as int + 52;
    assert (k as bv8) as int == k;
  }

  /** An alphabet character is the character of its own value. */
  lemma CharOfValueOf(c: char)
    requires ValueOf(c).Some?
    ensures CharOf(ValueOf(c).value) == c
  {
    if 'A' <= c <= 'Z' {
      CharOfUpper(c);
    } else if 'a' <= c <= 'z' {
      CharOfLower(c);
    } else if '0' <= c <= '9' {
      CharOfDigit(c);
    }
  }

  /** Splitting three joined sextet groups gives the sextets back. */
  lemma SplitJoin(w: bv8, x: bv8, y: bv8, z: bv8)
    requires w < 64 && x < 64 && y < 64 && z < 64
    ensures var bs := JoinSextets(w, x, y, z);
      && bs[0] >> 2 == w
      && ((bs[0] & 3) << 4) | (bs[1] >> 4) == x
      && ((bs[1] & 15) << 2) | (bs[2] >> 6) == y
      && bs[2] & 63 == z
  {
  }

  /** The same for the short final groups, given that their unused bits are zero. */
  lemma SplitJoinShort(w: bv8, x: bv8, y: bv8)
    requires w < 64 && x < 64 && y < 64
    ensures x & 15 == 0 ==> var bs := JoinSextets(w, x, 0, 0);
      bs[0] >> 2 == w && (bs[0] & 3) << 4 == x
    ensures y & 3 == 0 ==> var bs := JoinSextets(w, x, y, 0);
      && bs[0] >> 2 == w
      && ((bs[0] & 3) << 4) | (bs[1] >> 4) == x
      && (bs[1] & 15) << 2 == y
  {
  }

  /** A group that decodes is the encoding of the bytes it decodes to. */
  lemma EncodeDecodeGroup(q: string, final: bool, bs: seq<byte>)
    requires |q| == 4 && DecodeGroup(q, final) == Some(bs)
    ensures 1 <= |bs| <= 3 && (!final ==> |bs| == 3)
    ensures |bs| == 3 ==> EncodeGroup(bs[0], bs[1], bs[2]) == q
    ensures |bs| == 2 ==> EncodePair(bs[0], bs[1]) == q
    ensures |bs| == 1 ==> EncodeSingle(bs[0]) == q
  {
    if final && q[2] == '=' && q[3] == '=' {
      EncodeDecodeSingle(q, bs);
    } else if final && q[3] == '=' {
      EncodeDecodePair(q, bs);
    } else {
      EncodeDecodeFull(q, final, bs);
    }
  }

  lemma EncodeDecodeSingle(q: string, bs: seq<byte>)
    requires |q| == 4 && q[2] == '=' && q[3] == '='
    requires DecodeGroup(q, true) == Some(bs)
    ensures |bs| == 1 && EncodeSingle(bs[0]) == q
  {
    var w := ValueOf(q[0]).value;
    var x := ValueOf(q[1]).value;
    assert x & 15 == 0;
    assert bs == JoinSextets(w, x, 0, 0)[..1];
    CharOfValueOf(q[0]);
    CharOfValueOf(q[1]);
    SplitJoinShort(w, x, 0);
    assert EncodeSingle(bs[0]) == [CharOf(w), CharOf(x), '=', '='];
    assert q == [q[0], q[1], q[2], q[3]];
  }

  lemma EncodeDecodePair(q: string, bs: seq<byte>)
    requires |q| == 4 && q[3] == '=' && q[2] != '='
    requires DecodeGroup(q, true) == Some(bs)
    ensures |bs| == 2 && EncodePair(bs[0], bs[1]) == q
  {
    var w := ValueOf(q[0]).value;
    var x := ValueOf(q[1]).value;
    var y := ValueOf(q[2]).value;
    assert y & 3 == 0 && bs == JoinSextets(w, x, y, 0)[..2];
    CharOfValueOf(q[0]);
    CharOfValueOf(q[1]);
    CharOfValueOf(q[2]);
    EncodePairOfSextets(w, x, y, q);
  }

  /** Re-encoding the two bytes joined from three sextets whose unused bits are zero. */
  lemma EncodePairOfSextets(w: bv8, x: bv8, y: bv8, q: string)
    requires w < 64 && x < 64 && y < 64 && y & 3 == 0
    requires |q| == 4 && q[0] == CharOf(w) && q[1] == CharOf(x) && q[2] == CharOf(y) && q[3] == '='
    ensures var bs := JoinSextets(w, x, y, 0); EncodePair(bs[0], bs[1]) == q
  {
    var bs := JoinSextets(w, x, y, 0);
    SplitJoinShort(w, x, y);
    assert EncodePair(bs[0], bs[1]) == [CharOf(w), CharOf(x), CharOf(y), '='];
    assert q == [q[0], q[1], q[2], q[3]];
  }

  lemma EncodeDecodeFull(q: string, final: bool, bs: seq<byte>)
    requires |q| == 4 && !(final && q[3] == '=')
    requires DecodeGroup(q, final) == Some(bs)
    ensures |bs| == 3 && EncodeGroup(bs[0], bs[1], bs[2]) == q
  {
    var w := ValueOf(q[0]).value;
    var x := ValueOf(q[1]).value;
    var y := ValueOf(q[2]).value;
    var z := ValueOf(q[3]).value;
    assert bs == JoinSextets(w, x, y, z);
    CharOfValueOf(q[0]);
    CharOfValueOf(q[1]);
    CharOfValueOf(q[2]);
    CharOfValueOf(q[3]);
    EncodeGroupOfSextets(w, x, y, z, q);
  }

  /** Re-encoding the three bytes joined from four sextets. */
  lemma EncodeGroupOfSextets(w: bv8, x: bv8, y: bv8, z: bv8, q: string)
    requires w < 64 && x < 64 && y < 64 && z < 64
    requires |q| == 4 && q[0] == CharOf(w) && q[1] == CharOf(x) && q[2] == CharOf(y) && q[3] == CharOf(z)
    ensures var bs := JoinSextets(w, x, y, z); EncodeGroup(bs[0], bs[1], bs[2]) == q
  {
    var bs := JoinSextets(w, x, y, z);
    SplitJoin(w, x, y, z);
    assert EncodeGroup(bs[0], bs[1], bs[2]) == [CharOf(w), CharOf(x), CharOf(y), CharOf(z)];
    assert q == [q[0], q[1], q[2], q[3]];
  }

  /**
   * The converse of DecodeEncode: any text that decodes to `data` is exactly
   * Encode(data), pad characters and unused bits included.
   */
  lemma {:induction false} EncodeDecode(s: string, data: seq<byte>)
    requires Decode(s) == Some(data)
    ensures Encode(data) == s
    decreases |s|
  {
    if |s| > 0 {
      var g := s[..4];
      var rest := s[4..];
      var head := DecodeGroup(g, |s| == 4).value;
      var tail := Decode(rest).value;
      EncodeDecodeGroup(g, |s| == 4, head);
      EncodeDecode(rest, tail);
      assert data == head + tail;
      assert s == g + rest;
      if |s| == 4 {
        assert rest == [] && tail == [] && data == head;
      } else {
        assert data[..3] == head && data[3..] == tail;
      }
    }
  }

  /** Hence decoding is injective too: one byte string has one encoding. */
  lemma DecodeInjective(s1: string, s2: string)
    requires Decode(s1).Some? && Decode(s1) == Decode(s2)
    ensures s1 == s2
  {
    EncodeDecode(s1, Decode(s1).value);
    EncodeDecode(s2, Decode(s2).value);
  }

  /** A set unused bit is refused: Go writes "AA==" for the zero byte, and "AB==" is not its encoding. */
  lemma PadBitsMustBeZero()
    ensures Encode([0]) == "AA=="
    ensures Decode("AB==") == None
    ensures Decode("AAB=") == None
  {
    assert Decode("AB==") == match DecodeGroup("AB==", true) case None => None case Some(head) => Some(head + []) by {
      DecodeLastGroup("AB==");
    }
    assert Decode("AAB=") == match DecodeGroup("AAB=", true) case None => None case Some(head) => Some(head + []) by {
      DecodeLastGroup("AAB=");
    }
  }

  /** The test vectors of section 10 of RFC 4648, and the bytes of "string". */
  lemma TestVectors()
    ensures Encode([]) == ""
    ensures Encode([0x66]) == "Zg=="
    ensures Encode([0x66, 0x6f]) == "Zm8="
    ensures Encode([0x66, 0x6f, 0x6f]) == "Zm9v"
    ensures Encode([0x66, 0x6f, 0x6f, 0x62, 0x61, 0x72]) == "Zm9vYmFy"
    ensures Encode([0x73, 0x74, 0x72, 0x69, 0x6e, 0x67]) == "c3RyaW5n"
  {
    var foobar: seq<byte> := [0x66, 0x6f, 0x6f, 0x62, 0x61, 0x72];
    var bar: seq<byte> := [0x62, 0x61, 0x72];
    assert foobar[3..] == bar;
    var str: seq<byte> := [0x73, 0x74, 0x72, 0x69, 0x6e, 0x67];
    var ing: seq<byte> := [0x69, 0x6e, 0x67];
    assert str[3..] == ing;
  }
}
