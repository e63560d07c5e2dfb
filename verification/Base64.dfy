/** Base64 as used by the nonce codec: the block codec of section 4 of RFC 4648, and the two
    wrappers that size the buffers and correct for padding. */
module Base64 {
  import opened Common

  // ---------------------------------------------------------------- the alphabet

  function SextetChar(v: int): char
    requires 0 <= v < 64
  {
    if v < 26 then 'A' + v as char
    else if v < 52 then 'a' + (v - 26) as char
    else if v < 62 then '0' + (v - 52) as char
    else if v == 62 then '+' else '/'
  }

  // The value of a character; padding counts as zero, anything else is rejected.
  function CharSextet(c: char): (v: Option<int>)
    ensures v.Some? ==> 0 <= v.value < 64
  {
    if 'A' <= c <= 'Z' then Some(c as int - 'A' as int)
    else if 'a' <= c <= 'z' then Some(c as int - 'a' as int + 26)
    else if '0' <= c <= '9' then Some(c as int - '0' as int + 52)
    else if c == '+' then Some(62)
    else if c == '/' then Some(63)
    else if c == '=' then Some(0)
    else None
  }

  lemma CharRoundTrip(v: int)
    requires 0 <= v < 64
    ensures CharSextet(SextetChar(v)) == Some(v) && SextetChar(v) != '='
  {
  }

  const UPPER := "ABCDEFGHIJKLMNOPQRSTUVWXYZ"
  const LOWER := "abcdefghijklmnopqrstuvwxyz"
  const ALPHABET := UPPER + LOWER + "0123456789" + "+/"

  lemma UpperInOrder(v: int)
    requires 0 <= v < 26
    ensures UPPER[v] == 'A' + v as char
  {
  }

  lemma LowerInOrder(v: int)
    requires 0 <= v < 26
    ensures LOWER[v] == 'a' + v as char
  {
  }

  lemma DigitsInOrder(v: int)
    requires 0 <= v < 10
    ensures "0123456789"[v] == '0' + v as char
  {
  }

  /** The characters are those of Table 1 of RFC 4648, in its order. */
  lemma AlphabetInOrder(v: int)
    requires 0 <= v < 64
    ensures SextetChar(v) == ALPHABET[v]
  {
    if v < 26 {
      UpperInOrder(v);
    } else if v < 52 {
      LowerInOrder(v - 26);
    } else if v < 62 {
      DigitsInOrder(v - 52);
    }
  }

  lemma CharRead(c: char)
    requires CharSextet(c).Some? && c != '='
    ensures SextetChar(CharSextet(c).value) == c
  {
  }

  /** Nothing but the alphabet and padding is read. */
  lemma CharIsKnown(c: char)
    ensures CharSextet(c).Some? <==> c in ALPHABET || c == '='
  {
    if CharSextet(c).Some? && c != '=' {
      CharRead(c);
      AlphabetInOrder(CharSextet(c).value);
    }
    if c in ALPHABET {
      var v :| 0 <= v < |ALPHABET| && ALPHABET[v] == c;
      AlphabetInOrder(v);
      CharRoundTrip(v);
    }
  }

  // ---------------------------------------------------------------- the block codec

  function EncodeGroup(a: Byte, b: Byte, c: Byte): string {
    [SextetChar(a / 4), SextetChar(a % 4 * 16 + b / 16), SextetChar(b % 16 * 4 + c / 64), SextetChar(c % 64)]
  }

  function EncodeBlock(data: seq<Byte>): string {
    if data == [] then ""
    else if |data| == 1 then EncodeGroup(data[0], 0, 0)[..2] + "=="
    else if |data| == 2 then EncodeGroup(data[0], data[1], 0)[..3] + "="
    else EncodeGroup(data[0], data[1], data[2]) + EncodeBlock(data[3..])
  }

  function DecodeGroup(s: string): Option<seq<Byte>>
    requires |s| == 4
  {
    var p, q, r, t := CharSextet(s[0]), CharSextet(s[1]), CharSextet(s[2]), CharSextet(s[3]);
    if p.None? || q.None? || r.None? || t.None? then None
    else Some([p.value * 4 + q.value / 16, q.value % 16 * 16 + r.value / 4, r.value % 4 * 64 + t.value])
  }

  // Three bytes for every four characters, padding included; None is the error return.
  function DecodeBlock(s: string): (r: Option<seq<Byte>>)
    ensures r.Some? ==> |s| % 4 == 0 && |r.value| == |s| / 4 * 3
  {
    if s == "" then Some([])
    else if |s| < 4 then None
    else
      match (DecodeGroup(s[..4]), DecodeBlock(s[4..]))
      case (Some(first), Some(rest)) => Some(first + rest)
      case _ => None
  }

  // ---------------------------------------------------------------- the wrappers

  function Encode(data: seq<Byte>): string {
    EncodeBlock(data)
  }

  function Padding(s: string): nat {
    if |s| >= 2 then
      (if s[|s|-1] == '=' then 1 else 0) + (if s[|s|-2] == '=' then 1 else 0)
    else 0
  }

  function Decode(s: string): seq<Byte> {
    if s == "" then []
    else
      match DecodeBlock(s)
      case None => []
      case Some(out) =>
        if |out| > |s| * 3 / 4 then [] else out[..|out| - Padding(s)]
  }

  // ---------------------------------------------------------------- properties

  function PadCount(n: nat): nat {
    if n % 3 == 0 then 0 else 3 - n % 3
  }

  // Six-bit regrouping loses nothing.
  lemma Regroup(a: Byte, b: Byte, c: Byte)
    ensures a / 4 * 4 + (a % 4 * 16 + b / 16) / 16 == a
    ensures (a % 4 * 16 + b / 16) % 16 * 16 + (b % 16 * 4 + c / 64) / 4 == b
    ensures (b % 16 * 4 + c / 64) % 4 * 64 + c % 64 == c
  {
    assert (a % 4 * 16 + b / 16) / 16 == a % 4 && (a % 4 * 16 + b / 16) % 16 == b / 16;
    assert (b % 16 * 4 + c / 64) / 4 == b % 16 && (b % 16 * 4 + c / 64) % 4 == c / 64;
  }

  lemma DecodeSextets(p: int, q: int, r: int, t: int)
    requires 0 <= p < 64 && 0 <= q < 64 && 0 <= r < 64 && 0 <= t < 64
    ensures DecodeGroup([SextetChar(p), SextetChar(q), SextetChar(r), SextetChar(t)]) ==
              Some([p * 4 + q / 16, q % 16 * 16 + r / 4, r % 4 * 64 + t])
  {
    CharRoundTrip(p);
    CharRoundTrip(q);
    CharRoundTrip(r);
    CharRoundTrip(t);
  }

  lemma GroupRoundTrip(a: Byte, b: Byte, c: Byte)
    ensures DecodeGroup(EncodeGroup(a, b, c)) == Some([a, b, c])
  {
    DecodeSextets(a / 4, a % 4 * 16 + b / 16, b % 16 * 4 + c / 64, c % 64);
    Regroup(a, b, c);
  }

  // Padding decodes as the character of zero does.
  lemma PaddingIsZero(p: char, q: char, r: char)
    ensures DecodeGroup([p, q, r, '=']) == DecodeGroup([p, q, r, SextetChar(0)])
    ensures DecodeGroup([p, q, '=', '=']) == DecodeGroup([p, q, SextetChar(0), SextetChar(0)])
  {
  }

  lemma PaddedRoundTrip(a: Byte, b: Byte)
    ensures DecodeGroup(EncodeGroup(a, b, 0)[..3] + "=") == Some([a, b, 0])
    ensures b == 0 ==> DecodeGroup(EncodeGroup(a, 0, 0)[..2] + "==") == Some([a, 0, 0])
  {
    var s := EncodeGroup(a, b, 0);
    GroupRoundTrip(a, b, 0);
    PaddingIsZero(s[0], s[1], s[2]);
    assert s[..3] + "=" == [s[0], s[1], s[2], '='];
    assert s == [s[0], s[1], s[2], SextetChar(0)];
    assert s[..2] + "==" == [s[0], s[1], '=', '='];
  }

  ghost predicate Encodes(s: string, data: seq<Byte>) {
    && |s| == (|data| + 2) / 3 * 4
    && DecodeBlock(s).Some?
    && data <= DecodeBlock(s).value
    && |DecodeBlock(s).value| == |data| + PadCount(|data|)
    && Padding(s) == PadCount(|data|)
  }

  lemma DecodeOneGroup(s: string)
    requires |s| == 4 && DecodeGroup(s).Some?
    ensures DecodeBlock(s) == DecodeGroup(s)
  {
    assert s[..4] == s && DecodeBlock(s[4..]) == Some([]);
    assert DecodeGroup(s).value + [] == DecodeGroup(s).value;
  }

  lemma OneByte(a: Byte)
    ensures Encodes(EncodeBlock([a]), [a])
  {
    var s := EncodeBlock([a]);
    PaddedRoundTrip(a, 0);
    CharRoundTrip(a % 4 * 16);
    DecodeOneGroup(s);
  }

  lemma TwoBytes(a: Byte, b: Byte)
    ensures Encodes(EncodeBlock([a, b]), [a, b])
  {
    var s := EncodeBlock([a, b]);
    PaddedRoundTrip(a, b);
    CharRoundTrip(b % 16 * 4);
    DecodeOneGroup(s);
  }

  lemma DecodeMore(group: string, rest: string)
    requires |group| == 4 && DecodeGroup(group).Some? && DecodeBlock(rest).Some?
    ensures DecodeBlock(group + rest) == Some(DecodeGroup(group).value + DecodeBlock(rest).value)
    ensures group[2] != '=' && group[3] != '=' && |rest| != 1 ==> Padding(group + rest) == Padding(rest)
  {
    assert (group + rest)[..4] == group && (group + rest)[4..] == rest;
  }

  // A full group of three, with the arithmetic of its characters left behind.
  lemma FullGroup(data: seq<Byte>) returns (group: string)
    requires |data| >= 3
    ensures |group| == 4 && DecodeGroup(group) == Some(data[..3]) && group[2] != '=' && group[3] != '='
    ensures EncodeBlock(data) == group + EncodeBlock(data[3..])
  {
    group := EncodeGroup(data[0], data[1], data[2]);
    GroupRoundTrip(data[0], data[1], data[2]);
    CharRoundTrip(data[2] % 64);
    CharRoundTrip(data[1] % 16 * 4 + data[2] / 64);
    assert data[..3] == [data[0], data[1], data[2]];
  }

  lemma ThreeMore(n: nat)
    ensures PadCount(3 + n) == PadCount(n) && (3 + n + 2) / 3 == (n + 2) / 3 + 1
  {
  }

  lemma OneMoreGroup(head: seq<Byte>, tail: seq<Byte>, group: string, rest: string)
    requires |head| == 3 && |group| == 4
    requires DecodeGroup(group) == Some(head) && group[2] != '=' && group[3] != '='
    requires Encodes(rest, tail)
    ensures Encodes(group + rest, head + tail)
  {
    DecodeMore(group, rest);
    ThreeMore(|tail|);
  }

  lemma {:induction false} AllBlocks(data: seq<Byte>)
    ensures Encodes(EncodeBlock(data), data)
    decreases |data|, 1
  {
    if data == [] {
      assert DecodeBlock("") == Some([]) && Padding("") == 0;
    } else if |data| == 1 {
      OneByte(data[0]);
      assert data == [data[0]];
    } else if |data| == 2 {
      TwoBytes(data[0], data[1]);
      assert data == [data[0], data[1]];
    } else {
      ManyBytes(data);
    }
  }

  lemma {:induction false} ManyBytes(data: seq<Byte>)
    requires |data| >= 3
    ensures Encodes(EncodeBlock(data), data)
    decreases |data|, 0
  {
    AllBlocks(data[3..]);
    var group := FullGroup(data);
    OneMoreGroup(data[..3], data[3..], group, EncodeBlock(data[3..]));
    assert data == data[..3] + data[3..];
  }

  /** Block lengths and contents: the encoding has ceil(n/3)*4 characters and decodes to the data
      followed by one more byte per padding character. */
  lemma BlockRoundTrip(data: seq<Byte>)
    ensures |EncodeBlock(data)| == (|data| + 2) / 3 * 4
    ensures DecodeBlock(EncodeBlock(data)).Some? && data <= DecodeBlock(EncodeBlock(data)).value
    ensures |DecodeBlock(EncodeBlock(data)).value| == |data| + PadCount(|data|)
    ensures Padding(EncodeBlock(data)) == PadCount(|data|)
  {
    AllBlocks(data);
  }

  /** Decoding an encoding gives the bytes back, for every byte string. */
  lemma RoundTrip(data: seq<Byte>)
    ensures Decode(Encode(data)) == data
  {
    BlockRoundTrip(data);
    var s := EncodeBlock(data);
    if s == "" {
      assert data == [];
    }
  }

  lemma {:induction false} BlocksAreKnown(s: string)
    ensures DecodeBlock(s).Some? ==> |s| % 4 == 0 && forall i :: 0 <= i < |s| ==> CharSextet(s[i]).Some?
  {
    if |s| >= 4 {
      BlocksAreKnown(s[4..]);
      assert forall i :: 4 <= i < |s| ==> s[i] == s[4..][i - 4];
      assert s[..4][0] == s[0] && s[..4][1] == s[1] && s[..4][2] == s[2] && s[..4][3] == s[3];
    }
  }

  /** A string with a character outside the alphabet, or of a length that is no multiple of four,
      decodes to nothing. */
  lemma StrangersAreRejected(s: string, i: nat)
    requires |s| % 4 != 0 || (i < |s| && s[i] !in ALPHABET && s[i] != '=')
    ensures Decode(s) == []
  {
    BlocksAreKnown(s);
    if i < |s| {
      CharIsKnown(s[i]);
    }
  }

  /** The encoding is the one of RFC 4648: its test vectors, section 10. */
  lemma KnownVectors()
    ensures Encode([]) == ""
    ensures Encode([0x66]) == "Zg=="
    ensures Encode([0x66, 0x6f]) == "Zm8="
    ensures Encode([0x66, 0x6f, 0x6f]) == "Zm9v"
    ensures Encode([0x66, 0x6f, 0x6f, 0x62]) == "Zm9vYg=="
    ensures Encode([0x66, 0x6f, 0x6f, 0x62, 0x61]) == "Zm9vYmE="
    ensures Encode([0x66, 0x6f, 0x6f, 0x62, 0x61, 0x72]) == "Zm9vYmFy"
  {
    var foo: seq<Byte> := [0x66, 0x6f, 0x6f];
    assert EncodeGroup(0x66, 0x6f, 0x6f) == "Zm9v";
    assert foo[3..] == [];
    assert (foo + [0x62])[3..] == [0x62] && (foo + [0x62, 0x61])[3..] == [0x62, 0x61];
    assert (foo + [0x62, 0x61, 0x72])[3..] == [0x62, 0x61, 0x72];
  }
}
