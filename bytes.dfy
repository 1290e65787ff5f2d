/** Byte strings as they cross the C ABI: NUL-terminated C strings, UTF-8
    validity of Rust strings, and little-endian fixed-width integers. */
module Bytes {

  newtype byte = b: int | 0 <= b < 256

  /** Rust `i32` / C `int`. */
  type int32 = x: int | -0x8000_0000 <= x < 0x8000_0000

  /** Rust `u16`. */
  type u16 = x: int | 0 <= x < 0x1_0000

  /** The bytes of an ASCII literal: every constant text of the plugin is
      ASCII, and for those the low seven bits of a character are its byte.
      Only ASCII string literals are passed to it; the `% 0x80` would fold a
      non-ASCII character, and no caller has one. */
  function Ascii(s: string): (r: seq<byte>)
    ensures |r| == |s| && IsAscii(r)
  {
    seq(|s|, i requires 0 <= i < |s| => (s[i] as int % 0x80) as byte)
  }

  predicate IsAscii(s: seq<byte>)
  {
    forall i :: 0 <= i < |s| ==> s[i] < 0x80
  }

  /** A literal without NUL characters has no NUL byte. */
  lemma AsciiNoNul(s: string)
    requires forall i :: 0 <= i < |s| ==> 0 < s[i] as int < 0x80
    ensures 0 !in Ascii(s)
  {
    forall i | 0 <= i < |s|
      ensures Ascii(s)[i] != 0
    {
      assert Ascii(s)[i] as int == s[i] as int;
    }
  }

  // ---------------------------------------------------------------------------
  // C strings

  /** Index of the first NUL: `strlen`. A buffer without a NUL is not a C
      string, and reading it as one is undefined behaviour. */
  function StrLen(buf: seq<byte>): (k: nat)
    requires 0 in buf
    ensures k < |buf| && buf[k] == 0 && 0 !in buf[..k]
  {
    if buf[0] == 0 then 0
    else
      var k := StrLen(buf[1..]);
      assert buf[..k + 1] == [buf[0]] + buf[1..][..k];
      k + 1
  }

  /** `CStr::from_ptr(p).to_bytes()`: the bytes before the first NUL. */
  function CStr(buf: seq<byte>): (r: seq<byte>)
    requires 0 in buf
    ensures 0 !in r && r + [0] <= buf
  {
    buf[..StrLen(buf)]
  }

  /** A NUL-free text followed by a NUL reads back as that text, whatever follows. */
  lemma {:induction false} CStrOfTerminated(s: seq<byte>, rest: seq<byte>)
    requires 0 !in s
    ensures 0 in s + [0] + rest && CStr(s + [0] + rest) == s
  {
    var buf := s + [0] + rest;
    assert buf[..|s|] == s && buf[|s|] == 0;
    assert buf[..StrLen(buf)] == s;
  }

  /** A text with an interior NUL reads back only up to that NUL. */
  lemma {:induction false} CStrTruncates(s: seq<byte>, rest: seq<byte>)
    requires 0 in s
    ensures CStr(s + rest) == CStr(s)
  {
    var k := StrLen(s);
    assert s + rest == s[..k] + [0] + (s[k + 1..] + rest);
    CStrOfTerminated(s[..k], s[k + 1..] + rest);
  }

  // ---------------------------------------------------------------------------
  // UTF-8 (well-formed byte sequences, Table 3-7 of the Unicode Standard)

  predicate IsCont(b: byte) { 0x80 <= b <= 0xBF }

  /** Length of the well-formed UTF-8 sequence at the head of `s`, 0 if there is none. */
  function CharLen(s: seq<byte>): (n: nat)
    ensures n <= |s| && (n == 0 || n == 1 || n == 2 || n == 3 || n == 4)
  {
    if s == [] then 0
    else if s[0] < 0x80 then 1
    else if 0xC2 <= s[0] <= 0xDF then
      if |s| >= 2 && IsCont(s[1]) then 2 else 0
    else if 0xE0 <= s[0] <= 0xEF then
      var lo: byte := if s[0] == 0xE0 then 0xA0 else 0x80;
      var hi: byte := if s[0] == 0xED then 0x9F else 0xBF;
      if |s| >= 3 && lo <= s[1] <= hi && IsCont(s[2]) then 3 else 0
    else if 0xF0 <= s[0] <= 0xF4 then
      var lo: byte := if s[0] == 0xF0 then 0x90 else 0x80;
      var hi: byte := if s[0] == 0xF4 then 0x8F else 0xBF;
      if |s| >= 4 && lo <= s[1] <= hi && IsCont(s[2]) && IsCont(s[3]) then 4 else 0
    else 0
  }

  /** `String::from_utf8` succeeds exactly on these byte sequences. */
  predicate ValidUtf8(s: seq<byte>)
    decreases |s|
  {
    s == [] || (CharLen(s) > 0 && ValidUtf8(s[CharLen(s)..]))
  }

  lemma {:induction false} AsciiValidUtf8(s: seq<byte>)
    requires IsAscii(s)
    ensures ValidUtf8(s)
  {
    if s != [] {
      assert IsAscii(s[1..]) by {
        forall i | 0 <= i < |s[1..]| ensures s[1..][i] < 0x80 {
          assert s[1..][i] == s[i + 1];
        }
      }
      AsciiValidUtf8(s[1..]);
    }
  }

  /** The head sequence is decided by the bytes it covers. */
  lemma CharLenTake(s: seq<byte>, k: nat)
    requires 0 < CharLen(s) <= k <= |s|
    ensures CharLen(s[..k]) == CharLen(s)
  {
    assert forall i :: 0 <= i < k ==> s[..k][i] == s[i];
  }

  /** Bytes after a complete head sequence do not change it. */
  lemma CharLenExtend(s: seq<byte>, t: seq<byte>)
    requires CharLen(s) > 0
    ensures CharLen(s + t) == CharLen(s)
  {
    assert forall i :: 0 <= i < |s| ==> (s + t)[i] == s[i];
  }

  lemma {:induction false} ValidUtf8Concat(s: seq<byte>, t: seq<byte>)
    requires ValidUtf8(s) && ValidUtf8(t)
    ensures ValidUtf8(s + t)
    decreases |s|
  {
    if s == [] {
      assert s + t == t;
    } else {
      var n := CharLen(s);
      CharLenExtend(s, t);
      ValidUtf8Concat(s[n..], t);
      assert (s + t)[n..] == s[n..] + t;
    }
  }

  /** Cutting valid UTF-8 at a NUL leaves valid UTF-8: a NUL byte never sits
      inside a multi-byte sequence. */
  lemma {:induction false} ValidUtf8CutAtNul(s: seq<byte>, k: nat)
    requires ValidUtf8(s) && k < |s| && s[k] == 0
    ensures ValidUtf8(s[..k])
    decreases |s|
  {
    if k > 0 {
      var n := CharLen(s);
      assert n <= k;
      ValidUtf8CutAtNul(s[n..], k - n);
      CharLenTake(s, k);
      assert s[..k][n..] == s[n..][..k - n];
    }
  }

  /** Text that a C string can carry unchanged and `String::from_utf8` accepts. */
  predicate Clean(t: seq<byte>)
  {
    0 !in t && ValidUtf8(t)
  }

  lemma CleanConcat(a: seq<byte>, b: seq<byte>)
    requires Clean(a) && Clean(b)
    ensures Clean(a + b)
  {
    ValidUtf8Concat(a, b);
  }

  lemma CleanAscii(t: seq<byte>)
    requires IsAscii(t) && 0 !in t
    ensures Clean(t)
  {
    AsciiValidUtf8(t);
  }

  // ---------------------------------------------------------------------------
  // Little-endian integers

  /** `u16::to_le_bytes`. */
  function U16Le(x: u16): (r: seq<byte>)
    ensures |r| == 2 && r[0] as int + 256 * r[1] as int == x
  {
    [(x % 256) as byte, (x / 256) as byte]
  }

  /** `i32::to_le_bytes`: two's complement, least significant byte first. */
  function I32Le(x: int32): (r: seq<byte>)
    ensures |r| == 4
  {
    var u := if x < 0 then x + 0x1_0000_0000 else x;
    [(u % 0x100) as byte, (u / 0x100 % 0x100) as byte, (u / 0x1_0000 % 0x100) as byte, (u / 0x100_0000) as byte]
  }

  /** `i32::from_le_bytes` of the first four bytes. */
  function I32FromLe(b: seq<byte>): int32
    requires |b| >= 4
  {
    var u := b[0] as int + 0x100 * b[1] as int + 0x1_0000 * b[2] as int + 0x100_0000 * b[3] as int;
    if u >= 0x8000_0000 then u - 0x1_0000_0000 else u
  }

  /** Decoding the little-endian bytes of any `i32` gives it back. */
  lemma I32LeRoundTrip(x: int32, rest: seq<byte>)
    ensures I32FromLe(I32Le(x) + rest) == x
  {
    var u := if x < 0 then x + 0x1_0000_0000 else x;
    assert 0 <= u < 0x1_0000_0000;
    var b := I32Le(x) + rest;
    assert b[0] as int == u % 0x100;
    assert b[1] as int == u / 0x100 % 0x100;
    assert b[2] as int == u / 0x1_0000 % 0x100;
    assert b[3] as int == u / 0x100_0000;
    assert u / 0x100 == (u / 0x1_0000) * 0x100 + u / 0x100 % 0x100;
    assert u / 0x1_0000 == (u / 0x100_0000) * 0x100 + u / 0x1_0000 % 0x100;
    assert u == (u / 0x100) * 0x100 + u % 0x100;
  }
}
