/** The binary streams of the program: big-endian integers and length-prefixed UTF-8 strings. */
module Codec {
  import opened Wrappers

  function Pow256(k: nat): nat
    ensures Pow256(k) >= 1
  {
    if k == 0 then 1 else 256 * Pow256(k - 1)
  }

  /** The k low bytes of n, most significant first: a cast to the width, then the bytes. */
  function WriteUInt(n: nat, k: nat): (r: seq<byte>)
    ensures |r| == k
  {
    if k == 0 then [] else WriteUInt(n / 256, k - 1) + [n % 256]
  }

  function ReadUInt(s: seq<byte>): nat {
    if s == [] then 0 else ReadUInt(s[..|s| - 1]) * 256 + s[|s| - 1]
  }

  lemma {:induction false} UIntRoundTrip(n: nat, k: nat)
    requires n < Pow256(k)
    ensures ReadUInt(WriteUInt(n, k)) == n
  {
    if k > 0 {
      assert n / 256 < Pow256(k - 1);
      UIntRoundTrip(n / 256, k - 1);
      var w := WriteUInt(n, k);
      assert w[..|w| - 1] == WriteUInt(n / 256, k - 1);
    }
  }

  lemma {:induction false} UIntOfBytes(s: seq<byte>)
    ensures ReadUInt(s) < Pow256(|s|) && WriteUInt(ReadUInt(s), |s|) == s
  {
    if s != [] {
      UIntOfBytes(s[..|s| - 1]);
      var high := ReadUInt(s[..|s| - 1]);
      assert (high * 256 + s[|s| - 1]) / 256 == high;
      assert s == s[..|s| - 1] + [s[|s| - 1]];
    }
  }

  /** The first byte is the most significant one. */
  lemma {:induction false} MostSignificantFirst(s: seq<byte>)
    requires s != []
    ensures ReadUInt(s) == s[0] * Pow256(|s| - 1) + ReadUInt(s[1..])
  {
    if |s| > 1 {
      var init, n := s[..|s| - 1], |s| - 1;
      MostSignificantFirst(init);
      assert s[1..][..n - 1] == init[1..];
      OneByteFurther(s[0], Pow256(n - 1));
    }
  }

  lemma OneByteFurther(b: byte, p: nat)
    ensures b * (256 * p) == b * p * 256
  {
  }

  lemma Widths()
    ensures Pow256(1) == 0x100 && Pow256(2) == 0x1_0000
    ensures Pow256(4) == 0x1_0000_0000 && Pow256(8) == 0x1_0000_0000_0000_0000
  {
    assert Pow256(1) == 256 * Pow256(0);
    assert Pow256(3) == 256 * Pow256(2);
    assert Pow256(5) == 256 * Pow256(4) && Pow256(6) == 256 * Pow256(5) && Pow256(7) == 256 * Pow256(6);
  }

  /** One field of a message. */
  datatype Field =
    | U8(n: u8)
    | U16(n16: u16)
    | U32(n32: u32)
    | U64(n64: u64)
    | Str(s: Utf8)
    | Raw(bytes: seq<byte>)   // as many bytes as an earlier field says

  function Encode(f: Field): seq<byte> {
    match f
    case U8(n) => WriteUInt(n, 1)
    case U16(n) => WriteUInt(n, 2)
    case U32(n) => WriteUInt(n, 4)
    case U64(n) => WriteUInt(n, 8)
    case Str(s) => WriteUInt(|s|, 4) + s
    case Raw(s) => s
  }

  /** The fields in order, in front of the bytes that follow. */
  function EncodeOnto(fs: seq<Field>, rest: seq<byte>): seq<byte> {
    if fs == [] then rest else Encode(fs[0]) + EncodeOnto(fs[1..], rest)
  }

  /** A read takes bytes off the front of the stream, or finds too few of them. */
  datatype Read<+T> = Short | Got(value: T, rest: seq<byte>) {
    predicate IsFailure() { Short? }
    function PropagateFailure<U>(): Read<U> requires Short? { Short }
    function Extract(): (T, seq<byte>) requires Got? { (value, rest) }
  }

  function TakeBytes(s: seq<byte>, n: nat): Read<seq<byte>> {
    if |s| < n then Short else Got(s[..n], s[n..])
  }

  function TakeUInt(s: seq<byte>, k: nat): (r: Read<nat>)
    ensures r.Got? ==> r.value < Pow256(k)
  {
    if |s| < k then Short
    else
      UIntOfBytes(s[..k]);
      Got(ReadUInt(s[..k]), s[k..])
  }

  function TakeU8(s: seq<byte>): Read<u8> { Widths(); var (n, t) :- TakeUInt(s, 1); Got(n, t) }
  function TakeU16(s: seq<byte>): Read<u16> { Widths(); var (n, t) :- TakeUInt(s, 2); Got(n, t) }
  function TakeU32(s: seq<byte>): Read<u32> { Widths(); var (n, t) :- TakeUInt(s, 4); Got(n, t) }
  function TakeU64(s: seq<byte>): Read<u64> { Widths(); var (n, t) :- TakeUInt(s, 8); Got(n, t) }

  function TakeStr(s: seq<byte>): Read<Utf8> {
    var (n, t) :- TakeU32(s);
    var (b, u) :- TakeBytes(t, n);
    Got(b, u)
  }

  lemma UIntThenRest(n: nat, k: nat, rest: seq<byte>)
    requires n < Pow256(k)
    ensures TakeUInt(WriteUInt(n, k) + rest, k) == Got(n, rest)
  {
    UIntRoundTrip(n, k);
    var s := WriteUInt(n, k) + rest;
    assert s[..k] == WriteUInt(n, k) && s[k..] == rest;
  }

  // A field that was written is read back, and nothing after it is touched.

  lemma U8ThenRest(n: u8, rest: seq<byte>)
    ensures TakeU8(Encode(U8(n)) + rest) == Got(n, rest)
  {
    Widths();
    UIntThenRest(n, 1, rest);
  }

  lemma U16ThenRest(n: u16, rest: seq<byte>)
    ensures TakeU16(Encode(U16(n)) + rest) == Got(n, rest)
  {
    Widths();
    UIntThenRest(n, 2, rest);
  }

  lemma U32ThenRest(n: u32, rest: seq<byte>)
    ensures TakeU32(Encode(U32(n)) + rest) == Got(n, rest)
  {
    Widths();
    UIntThenRest(n, 4, rest);
  }

  lemma U64ThenRest(n: u64, rest: seq<byte>)
    ensures TakeU64(Encode(U64(n)) + rest) == Got(n, rest)
  {
    Widths();
    UIntThenRest(n, 8, rest);
  }

  lemma StrThenRest(s: Utf8, rest: seq<byte>)
    ensures TakeStr(Encode(Str(s)) + rest) == Got(s, rest)
  {
    hide TakeU32;
    U32ThenRest(|s|, s + rest);
    assert Encode(Str(s)) + rest == Encode(U32(|s|)) + (s + rest);
    assert (s + rest)[..|s|] == s && (s + rest)[|s|..] == rest;
  }

  lemma RawThenRest(s: seq<byte>, rest: seq<byte>)
    ensures TakeBytes(Encode(Raw(s)) + rest, |s|) == Got(s, rest)
  {
  }
}
