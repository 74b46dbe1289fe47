/** Text as the bytes it is hashed and measured in. */
module Encoding {
  import opened Text
  import Bytes
  import Fnv

  function Utf8(s: string): Fnv.Bytes {
    if s == "" then [] else Encode(s[0] as int) + Utf8(s[1..])
  }

  function Encode(c: nat): Fnv.Bytes
    requires c < 0x11_0000
  {
    if c < 0x80 then [c as bv8]
    else if c < 0x800 then [(0xC0 + c / 64) as bv8, (0x80 + c % 64) as bv8]
    else if c < 0x1_0000 then [(0xE0 + c / 4096) as bv8, (0x80 + c / 64 % 64) as bv8, (0x80 + c % 64) as bv8]
    else [(0xF0 + c / 262144) as bv8, (0x80 + c / 4096 % 64) as bv8, (0x80 + c / 64 % 64) as bv8, (0x80 + c % 64) as bv8]
  }

  lemma {:induction false} Utf8Append(a: string, b: string)
    ensures Utf8(a + b) == Utf8(a) + Utf8(b)
  {
    if a == "" {
      assert a + b == b;
    } else {
      assert (a + b)[1..] == a[1..] + b;
      Utf8Append(a[1..], b);
      Regroup(Encode(a[0] as int), Utf8(a[1..]), Utf8(b));
    }
  }

  /** How many bytes the first one announces, by section 3 of RFC 3629. */
  function Announced(lead: int): nat {
    if lead < 0x80 then 1 else if lead < 0xE0 then 2 else if lead < 0xF0 then 3 else 4
  }

  /** The bytes as numbers. */
  function Numbers(bytes: Fnv.Bytes): seq<int> {
    seq(|bytes|, i requires 0 <= i < |bytes| => bytes[i] as int)
  }

  /** What a sequence of that length stands for, by the same section. */
  function Decoded(n: seq<int>): int {
    if |n| == 1 then n[0]
    else if |n| == 2 then (n[0] - 0xC0) * 64 + (n[1] - 0x80)
    else if |n| == 3 then (n[0] - 0xE0) * 4096 + (n[1] - 0x80) * 64 + (n[2] - 0x80)
    else if |n| == 4 then (n[0] - 0xF0) * 262144 + (n[1] - 0x80) * 4096 + (n[2] - 0x80) * 64 + (n[3] - 0x80)
    else 0
  }

  /** The numbers of an encoding announce their count, stand for `c`, and continue as they should. */
  predicate Encodes(n: seq<int>, c: nat) {
    n != [] && |n| == Announced(n[0]) && Decoded(n) == c && forall i :: 1 <= i < |n| ==> 0x80 <= n[i] < 0xC0
  }

  /** Every character is encoded as its number, in as many bytes as the first one announces. */
  lemma EncodingDecodes(c: nat)
    requires c < 0x11_0000
    ensures Encodes(Numbers(Encode(c)), c)
  {
    if c < 0x80 {
      OneByte(c);
    } else if c < 0x800 {
      TwoBytes(c);
    } else if c < 0x1_0000 {
      ThreeBytes(c);
    } else {
      FourBytes(c);
    }
  }

  lemma OneByte(c: nat)
    requires c < 0x80
    ensures Encodes(Numbers(Encode(c)), c)
  {
    Bytes.ByteValue(c);
    assert Numbers(Encode(c)) == [c];
  }

  lemma TwoBytes(c: nat)
    requires 0x80 <= c < 0x800
    ensures Encodes(Numbers(Encode(c)), c)
  {
    Bytes.ByteValue(0xC0 + c / 64);
    Bytes.ByteValue(0x80 + c % 64);
    assert Numbers(Encode(c)) == [0xC0 + c / 64, 0x80 + c % 64];
  }

  lemma ThreeBytes(c: nat)
    requires 0x800 <= c < 0x1_0000
    ensures Encodes(Numbers(Encode(c)), c)
  {
    ThreeNumbers(c);
    Sextets(c);
    ThreeDecode(c / 4096, c / 64 % 64, c % 64);
  }

  lemma ThreeNumbers(c: nat)
    requires 0x800 <= c < 0x1_0000
    ensures Numbers(Encode(c)) == [0xE0 + c / 4096, 0x80 + c / 64 % 64, 0x80 + c % 64]
  {
    Bytes.ByteValue(0xE0 + c / 4096);
    Bytes.ByteValue(0x80 + c / 64 % 64);
    Bytes.ByteValue(0x80 + c % 64);
  }

  lemma ThreeDecode(x: nat, y: nat, z: nat)
    requires x < 16 && y < 64 && z < 64
    ensures Encodes([0xE0 + x, 0x80 + y, 0x80 + z], x * 4096 + y * 64 + z)
  {
  }

  lemma FourBytes(c: nat)
    requires 0x1_0000 <= c < 0x11_0000
    ensures Encodes(Numbers(Encode(c)), c)
  {
    FourNumbers(c);
    Sextets(c);
    FourDecode(c / 262144, c / 4096 % 64, c / 64 % 64, c % 64);
  }

  lemma FourNumbers(c: nat)
    requires 0x1_0000 <= c < 0x11_0000
    ensures Numbers(Encode(c)) == [0xF0 + c / 262144, 0x80 + c / 4096 % 64, 0x80 + c / 64 % 64, 0x80 + c % 64]
  {
    Bytes.ByteValue(0xF0 + c / 262144);
    Bytes.ByteValue(0x80 + c / 4096 % 64);
    Bytes.ByteValue(0x80 + c / 64 % 64);
    Bytes.ByteValue(0x80 + c % 64);
  }

  lemma FourDecode(w: nat, x: nat, y: nat, z: nat)
    requires w < 8 && x < 64 && y < 64 && z < 64
    ensures Encodes([0xF0 + w, 0x80 + x, 0x80 + y, 0x80 + z], w * 262144 + x * 4096 + y * 64 + z)
  {
  }

  lemma Sextets(c: nat)
    ensures c == c / 4096 * 4096 + c / 64 % 64 * 64 + c % 64
    ensures c / 4096 == c / 262144 * 64 + c / 4096 % 64
  {
  }

  /** No two texts have the same bytes. */
  lemma {:induction false} BytesTellTexts(s: string, t: string)
    requires Utf8(s) == Utf8(t)
    ensures s == t
  {
    if s == "" || t == "" {
      NothingEncodesAsNothing(s);
      NothingEncodesAsNothing(t);
    } else {
      var a, b := Encode(s[0] as int), Encode(t[0] as int);
      SameFirst(s[0] as int, t[0] as int, Utf8(s[1..]), Utf8(t[1..]));
      assert Utf8(s)[|a|..] == Utf8(s[1..]) && Utf8(t)[|b|..] == Utf8(t[1..]);
      BytesTellTexts(s[1..], t[1..]);
      assert s == [s[0]] + s[1..] && t == [t[0]] + t[1..];
    }
  }

  lemma NothingEncodesAsNothing(s: string)
    ensures Utf8(s) == [] <==> s == ""
  {
    if s != "" {
      EncodingDecodes(s[0] as int);
      assert |Numbers(Encode(s[0] as int))| > 0;
    }
  }

  lemma SameFirst(c: nat, d: nat, behindC: Fnv.Bytes, behindD: Fnv.Bytes)
    requires c < 0x11_0000 && d < 0x11_0000 && Encode(c) + behindC == Encode(d) + behindD
    ensures c == d
  {
    EncodingDecodes(c);
    EncodingDecodes(d);
    var a, b := Encode(c), Encode(d);
    assert |Numbers(a)| == |a| && |Numbers(b)| == |b|;
    assert (a + behindC)[0] == a[0] && (b + behindD)[0] == b[0];
    assert Numbers(a)[0] == a[0] as int && Numbers(b)[0] == b[0] as int;
    assert a == (a + behindC)[..|a|] && b == (b + behindD)[..|b|];
  }
}
