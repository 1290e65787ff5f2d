/** JSON documents as values, the compact text `serde_json::to_string`
    writes for them, and a reader for the flat string records the plugin
    receives (`serde_json::from_str` into a struct whose fields are all
    `String`). The reader accepts the compact text the writer produces, with
    the members in any order; it is not a general JSON parser. */
module Json {
  import opened Bytes
  import opened Wrappers

  datatype Value = Str(s: seq<byte>) | Num(n: nat) | Arr(items: seq<Value>) | Obj(fields: seq<Field>)
  datatype Field = Field(key: seq<byte>, value: Value)

  const QUOTE: byte := 0x22
  const BACKSLASH: byte := 0x5C
  const COLON: byte := 0x3A
  const COMMA: byte := 0x2C
  const LBRACE: byte := 0x7B
  const RBRACE: byte := 0x7D
  const LBRACKET: byte := 0x5B
  const RBRACKET: byte := 0x5D

  // ---------------------------------------------------------------------------
  // Writing

  function HexDigit(d: nat): byte
    requires d < 16
  {
    if d < 10 then (0x30 + d) as byte else (0x61 + d - 10) as byte
  }

  /** serde_json's escape of one byte of a string: the two-character forms
      for quote, backslash, \b \f \n \r \t, `\u00XX` for the other control
      bytes, and every other byte (including 0x7F and non-ASCII) as it is. */
  function EscapeByte(b: byte): seq<byte>
  {
    if b == QUOTE then [BACKSLASH, QUOTE]
    else if b == BACKSLASH then [BACKSLASH, BACKSLASH]
    else if b == 0x08 then [BACKSLASH, 0x62]
    else if b == 0x0C then [BACKSLASH, 0x66]
    else if b == 0x0A then [BACKSLASH, 0x6E]
    else if b == 0x0D then [BACKSLASH, 0x72]
    else if b == 0x09 then [BACKSLASH, 0x74]
    else if b < 0x20 then [BACKSLASH, 0x75, 0x30, 0x30, HexDigit(b as int / 16), HexDigit(b as int % 16)]
    else [b]
  }

  function Escape(s: seq<byte>): seq<byte>
  {
    if s == [] then [] else EscapeByte(s[0]) + Escape(s[1..])
  }

  function Quote(s: seq<byte>): seq<byte>
  {
    [QUOTE] + Escape(s) + [QUOTE]
  }

  function Digits(n: nat): seq<byte>
  {
    if n < 10 then [(0x30 + n) as byte] else Digits(n / 10) + [(0x30 + n % 10) as byte]
  }

  /** `serde_json::to_string`: compact, no whitespace, members in order. */
  function Serialize(v: Value): seq<byte>
    decreases v
  {
    match v
    case Str(s) => Quote(s)
    case Num(n) => Digits(n)
    case Arr(items) => [LBRACKET] + SerializeItems(items) + [RBRACKET]
    case Obj(fields) => [LBRACE] + SerializeFields(fields) + [RBRACE]
  }

  function SerializeItems(vs: seq<Value>): seq<byte>
    decreases vs
  {
    if vs == [] then []
    else if |vs| == 1 then Serialize(vs[0])
    else Serialize(vs[0]) + [COMMA] + SerializeItems(vs[1..])
  }

  function SerializeFields(fs: seq<Field>): seq<byte>
    decreases fs
  {
    if fs == [] then []
    else if |fs| == 1 then Quote(fs[0].key) + [COLON] + Serialize(fs[0].value)
    else Quote(fs[0].key) + [COLON] + Serialize(fs[0].value) + [COMMA] + SerializeFields(fs[1..])
  }

  function Keys(fs: seq<Field>): seq<seq<byte>>
  {
    seq(|fs|, i requires 0 <= i < |fs| => fs[i].key)
  }

  // ---------------------------------------------------------------------------
  // Reading flat records

  /** A flat record as read: its members' keys and string values, in order. */
  type Pairs = seq<(seq<byte>, seq<byte>)>

  function HexValue(c: byte): Option<nat>
  {
    if 0x30 <= c <= 0x39 then Some(c as int - 0x30)
    else if 0x61 <= c <= 0x66 then Some(c as int - 0x61 + 10)
    else if 0x41 <= c <= 0x46 then Some(c as int - 0x41 + 10)
    else None
  }

  /** The escape after a backslash: the byte it stands for and how many bytes
      it spans. `\u` escapes are read for code points below 0x80 only. */
  function Unescape(t: seq<byte>): (r: Option<(byte, nat)>)
    ensures r.Some? ==> 1 <= r.value.1 <= |t|
  {
    if t == [] then None
    else if t[0] == QUOTE || t[0] == BACKSLASH || t[0] == 0x2F then Some((t[0], 1))
    else if t[0] == 0x62 then Some((0x08, 1))
    else if t[0] == 0x66 then Some((0x0C, 1))
    else if t[0] == 0x6E then Some((0x0A, 1))
    else if t[0] == 0x72 then Some((0x0D, 1))
    else if t[0] == 0x74 then Some((0x09, 1))
    else if t[0] == 0x75 && |t| >= 5 then
      match (HexValue(t[1]), HexValue(t[2]), HexValue(t[3]), HexValue(t[4]))
      case (Some(a), Some(b), Some(c), Some(d)) =>
        var cp := ((a * 16 + b) * 16 + c) * 16 + d;
        if cp < 0x80 then Some((cp as byte, 5)) else None
      case _ => None
    else None
  }

  /** The text of a string after its opening quote, up to its closing quote,
      and what follows the closing quote. */
  function ParseStrBody(t: seq<byte>): (r: Option<(seq<byte>, seq<byte>)>)
    ensures r.Some? ==> |r.value.1| < |t|
    decreases |t|
  {
    if t == [] then None
    else if t[0] == QUOTE then Some(([], t[1..]))
    else if t[0] < 0x20 then None
    else if t[0] == BACKSLASH then
      match Unescape(t[1..])
      case None => None
      case Some(e) =>
        match ParseStrBody(t[1 + e.1..])
        case None => None
        case Some(r) => Some(([e.0] + r.0, r.1))
    else
      match ParseStrBody(t[1..])
      case None => None
      case Some(r) => Some(([t[0]] + r.0, r.1))
  }

  /** One `"key":"value"` member, and the text after it. */
  function ParseMember(t: seq<byte>): (r: Option<((seq<byte>, seq<byte>), seq<byte>)>)
    ensures r.Some? ==> |r.value.1| < |t|
  {
    if t == [] || t[0] != QUOTE then None
    else
      match ParseStrBody(t[1..])
      case None => None
      case Some(k) =>
        if |k.1| < 2 || k.1[0] != COLON || k.1[1] != QUOTE then None
        else
          match ParseStrBody(k.1[2..])
          case None => None
          case Some(v) => Some(((k.0, v.0), v.1))
  }

  /** Members separated by `,`, up to the `}` that ends the text. */
  function ParseMembers(t: seq<byte>): Option<Pairs>
    decreases |t|
  {
    match ParseMember(t)
    case None => None
    case Some(m) =>
      if m.1 == [RBRACE] then Some([m.0])
      else if m.1 != [] && m.1[0] == COMMA then
        match ParseMembers(m.1[1..])
        case None => None
        case Some(ms) => Some([m.0] + ms)
      else None
  }

  /** A whole text holding one object whose members are all strings. */
  function ParseFlat(t: seq<byte>): Option<Pairs>
  {
    if t == [LBRACE, RBRACE] then Some([])
    else if t != [] && t[0] == LBRACE then ParseMembers(t[1..])
    else None
  }

  function Count(ps: Pairs, key: seq<byte>): nat
  {
    if ps == [] then 0 else (if ps[0].0 == key then 1 else 0) + Count(ps[1..], key)
  }

  function First(ps: Pairs, key: seq<byte>): seq<byte>
    requires Count(ps, key) > 0
  {
    if ps[0].0 == key then ps[0].1 else First(ps[1..], key)
  }

  /** The struct field `key`: present exactly once (serde rejects a missing
      field and a duplicated one; members it does not know are skipped). */
  function Lookup(ps: Pairs, key: seq<byte>): Option<seq<byte>>
  {
    if Count(ps, key) == 1 then Some(First(ps, key)) else None
  }

  // ---------------------------------------------------------------------------
  // Flat records as values

  predicate IsFlat(fs: seq<Field>)
  {
    forall i :: 0 <= i < |fs| ==> fs[i].value.Str?
  }

  function AsPairs(fs: seq<Field>): Pairs
    requires IsFlat(fs)
  {
    seq(|fs|, i requires 0 <= i < |fs| => (fs[i].key, fs[i].value.s))
  }

  // ---------------------------------------------------------------------------
  // Properties of the writer and the reader

  lemma {:induction false} EscapeAppend(a: seq<byte>, b: seq<byte>)
    ensures Escape(a + b) == Escape(a) + Escape(b)
  {
    if a == [] {
      assert a + b == b;
    } else {
      var e := EscapeByte(a[0]);
      assert (a + b)[0] == a[0] && (a + b)[1..] == a[1..] + b;
      assert Escape(a + b) == e + Escape(a[1..] + b);
      EscapeAppend(a[1..], b);
      assert e + (Escape(a[1..]) + Escape(b)) == (e + Escape(a[1..])) + Escape(b);
    }
  }

  /** What reading a string does after the escape of one byte. */
  function Prepend(b: byte, r: Option<(seq<byte>, seq<byte>)>): Option<(seq<byte>, seq<byte>)>
  {
    match r
    case None => None
    case Some(p) => Some(([b] + p.0, p.1))
  }

  lemma ParseControlEscape(b: byte, tail: seq<byte>)
    requires b < 0x20 && b != 0x08 && b != 0x0C && b != 0x0A && b != 0x0D && b != 0x09
    ensures ParseStrBody(EscapeByte(b) + tail) == Prepend(b, ParseStrBody(tail))
  {
    var hi := b as int / 16;
    var lo := b as int % 16;
    var e := [BACKSLASH, 0x75, 0x30, 0x30, HexDigit(hi), HexDigit(lo)];
    assert EscapeByte(b) == e;
    var t := e + tail;
    var u := t[1..];
    assert |u| >= 5 && u[0] == 0x75 && u[1] == 0x30 && u[2] == 0x30;
    assert u[3] == HexDigit(hi) && u[4] == HexDigit(lo);
    assert HexValue(u[1]) == Some(0) && HexValue(u[2]) == Some(0);
    assert HexValue(HexDigit(hi)) == Some(hi);
    assert HexValue(HexDigit(lo)) == Some(lo);
    assert ((0 * 16 + 0) * 16 + hi) * 16 + lo == b as int;
    assert Unescape(u) == Some((b, 5));
    assert t[6..] == tail;
  }

  /** Reading the escape of one byte yields that byte. */
  lemma ParseOneEscape(b: byte, tail: seq<byte>)
    ensures ParseStrBody(EscapeByte(b) + tail) == Prepend(b, ParseStrBody(tail))
  {
    var e := EscapeByte(b);
    var t := e + tail;
    if |e| == 1 {
      assert t[0] == b && t[1..] == tail;
    } else if b < 0x20 && b != 0x08 && b != 0x0C && b != 0x0A && b != 0x0D && b != 0x09 {
      ParseControlEscape(b, tail);
    } else {
      assert |e| == 2 && t[2..] == tail;
      assert Unescape(t[1..]) == Some((b, 1));
    }
  }

  /** Reading back an escaped text stops at the quote that closes it. */
  lemma {:induction false} ParseEscaped(s: seq<byte>, rest: seq<byte>)
    ensures ParseStrBody(Escape(s) + [QUOTE] + rest) == Some((s, rest))
  {
    if s == [] {
      assert Escape(s) + [QUOTE] + rest == [QUOTE] + rest;
    } else {
      var tail := Escape(s[1..]) + [QUOTE] + rest;
      ParseEscaped(s[1..], rest);
      ParseOneEscape(s[0], tail);
      assert Escape(s) + [QUOTE] + rest == EscapeByte(s[0]) + tail;
      assert [s[0]] + s[1..] == s;
    }
  }

  lemma {:induction false} ParseQuoted(s: seq<byte>, rest: seq<byte>)
    ensures |Quote(s) + rest| > 0 && (Quote(s) + rest)[0] == QUOTE
    ensures ParseStrBody((Quote(s) + rest)[1..]) == Some((s, rest))
  {
    assert (Quote(s) + rest)[1..] == Escape(s) + [QUOTE] + rest;
    ParseEscaped(s, rest);
  }

  /** Reading one `"key":"value"` member the writer wrote. */
  lemma ParseOneMember(k: seq<byte>, v: seq<byte>, more: seq<byte>)
    ensures ParseMember(Quote(k) + [COLON] + Quote(v) + more) == Some(((k, v), more))
  {
    var afterKey := [COLON] + Quote(v) + more;
    var t := Quote(k) + [COLON] + Quote(v) + more;
    assert t == Quote(k) + afterKey;
    ParseQuoted(k, afterKey);
    assert afterKey[2..] == Escape(v) + [QUOTE] + more;
    ParseEscaped(v, more);
  }

  lemma FlatTail(fs: seq<Field>)
    requires fs != [] && IsFlat(fs)
    ensures IsFlat(fs[1..]) && AsPairs(fs) == [(fs[0].key, fs[0].value.s)] + AsPairs(fs[1..])
  {
    assert forall i :: 0 <= i < |fs[1..]| ==> fs[1..][i] == fs[i + 1];
  }

  lemma SerializeFieldsHead(fs: seq<Field>)
    requires fs != [] && fs[0].value.Str?
    ensures |fs| == 1 ==> SerializeFields(fs) == Quote(fs[0].key) + [COLON] + Quote(fs[0].value.s)
    ensures |fs| > 1 ==> (SerializeFields(fs) ==
      Quote(fs[0].key) + [COLON] + Quote(fs[0].value.s) + ([COMMA] + SerializeFields(fs[1..])))
  {
    assert Serialize(fs[0].value) == Quote(fs[0].value.s);
    if |fs| > 1 {
      assert SerializeFields(fs) ==
        Quote(fs[0].key) + [COLON] + Quote(fs[0].value.s) + [COMMA] + SerializeFields(fs[1..]);
    }
  }

  /** The reader gives back the members of any flat record the writer wrote. */
  lemma ParseLastMember(k: seq<byte>, v: seq<byte>)
    ensures ParseMembers(Quote(k) + [COLON] + Quote(v) + [RBRACE]) == Some([(k, v)])
  {
    ParseOneMember(k, v, [RBRACE]);
  }

  lemma ParseNextMember(k: seq<byte>, v: seq<byte>, t: seq<byte>)
    ensures ParseMembers(Quote(k) + [COLON] + Quote(v) + ([COMMA] + t)) ==
      match ParseMembers(t)
      case None => None
      case Some(ms) => Some([(k, v)] + ms)
  {
    var more := [COMMA] + t;
    ParseOneMember(k, v, more);
    assert more[1..] == t;
    assert more[0] == COMMA != RBRACE;
  }

  lemma {:induction false} ParseMembersRoundTrip(fs: seq<Field>)
    requires fs != [] && IsFlat(fs)
    ensures ParseMembers(SerializeFields(fs) + [RBRACE]) == Some(AsPairs(fs))
  {
    var k := fs[0].key;
    var v := fs[0].value.s;
    SerializeFieldsHead(fs);
    FlatTail(fs);
    if |fs| == 1 {
      ParseLastMember(k, v);
      assert SerializeFields(fs) + [RBRACE] == Quote(k) + [COLON] + Quote(v) + [RBRACE];
      assert AsPairs(fs[1..]) == [];
      assert AsPairs(fs) == [(k, v)];
    } else {
      var t := SerializeFields(fs[1..]) + [RBRACE];
      assert SerializeFields(fs) + [RBRACE] == Quote(k) + [COLON] + Quote(v) + ([COMMA] + t);
      ParseNextMember(k, v, t);
      ParseMembersRoundTrip(fs[1..]);
    }
  }

  /** `from_str(to_string(record))` reads the record's members back. */
  lemma ParseFlatRoundTrip(fs: seq<Field>)
    requires IsFlat(fs)
    ensures ParseFlat(Serialize(Obj(fs))) == Some(AsPairs(fs))
  {
    if fs == [] {
      assert Serialize(Obj(fs)) == [LBRACE, RBRACE];
      assert AsPairs(fs) == [];
    } else {
      ParseMembersRoundTrip(fs);
      var t := Serialize(Obj(fs));
      assert t[1..] == SerializeFields(fs) + [RBRACE];
      assert SerializeFields(fs) != [] by {
        assert Quote(fs[0].key)[0] == QUOTE;
      }
      assert t != [LBRACE, RBRACE];
    }
  }

  predicate DistinctKeys(fs: seq<Field>)
  {
    forall i, j :: 0 <= i < j < |fs| ==> fs[i].key != fs[j].key
  }

  lemma {:induction false} CountAbsent(ps: Pairs, key: seq<byte>)
    requires forall j :: 0 <= j < |ps| ==> ps[j].0 != key
    ensures Count(ps, key) == 0
  {
    if ps != [] {
      CountAbsent(ps[1..], key);
    }
  }

  /** In a record with distinct keys every member is found by its key. */
  lemma {:induction false} LookupDistinct(fs: seq<Field>, i: nat)
    requires IsFlat(fs) && DistinctKeys(fs) && i < |fs|
    ensures Lookup(AsPairs(fs), fs[i].key) == Some(fs[i].value.s)
  {
    var ps := AsPairs(fs);
    var key := fs[i].key;
    assert IsFlat(fs[1..]) && DistinctKeys(fs[1..]) by {
      assert forall j :: 0 <= j < |fs[1..]| ==> fs[1..][j] == fs[j + 1];
    }
    assert ps[1..] == AsPairs(fs[1..]);
    if i == 0 {
      CountAbsent(ps[1..], key);
    } else {
      LookupDistinct(fs[1..], i - 1);
      assert fs[1..][i - 1] == fs[i];
      assert fs[0].key != key;
    }
  }

  // ---------------------------------------------------------------------------
  // The written text is a C-string-safe Rust string

  /** Every string in the document is valid UTF-8 (as every Rust `String` is). */
  predicate WellFormed(v: Value)
    decreases v
  {
    match v
    case Str(s) => ValidUtf8(s)
    case Num(_) => true
    case Arr(items) => forall i :: 0 <= i < |items| ==> WellFormed(items[i])
    case Obj(fs) => forall i :: 0 <= i < |fs| ==> ValidUtf8(fs[i].key) && WellFormed(fs[i].value)
  }

  lemma EscapeByteClean(b: byte)
    ensures b < 0x80 ==> Clean(EscapeByte(b))
    ensures b >= 0x80 ==> EscapeByte(b) == [b]
  {
    if b < 0x80 {
      var e := EscapeByte(b);
      if b < 0x20 && b != 0x08 && b != 0x0C && b != 0x0A && b != 0x0D && b != 0x09 {
        assert HexDigit(b as int / 16) != 0 && HexDigit(b as int % 16) != 0;
      }
      assert IsAscii(e) && 0 !in e;
      CleanAscii(e);
    }
  }

  /** Bytes of a multi-byte sequence are copied as they are. */
  lemma {:induction false} EscapeHigh(s: seq<byte>)
    requires forall i :: 0 <= i < |s| ==> s[i] >= 0x80
    ensures Escape(s) == s
  {
    if s != [] {
      EscapeByteClean(s[0]);
      EscapeHigh(s[1..]);
    }
  }

  /** The escape of the first character of a valid text is clean. */
  lemma EscapeHeadClean(s: seq<byte>)
    requires s != [] && ValidUtf8(s)
    ensures Clean(Escape(s[..CharLen(s)]))
  {
    var n := CharLen(s);
    var h := s[..n];
    if n == 1 {
      assert s[0] < 0x80;
      EscapeByteClean(s[0]);
      assert h == [s[0]];
      assert Escape(h) == EscapeByte(s[0]) + Escape([]);
      assert Escape(h) == EscapeByte(s[0]);
    } else {
      assert forall i :: 0 <= i < |h| ==> h[i] >= 0x80;
      EscapeHigh(h);
      CharLenTake(s, n);
      assert h[n..] == [];
      assert ValidUtf8(h);
    }
  }

  /** Escaping keeps a valid UTF-8 text valid, and leaves no NUL in it. */
  lemma {:induction false} EscapeClean(s: seq<byte>)
    requires ValidUtf8(s)
    ensures Clean(Escape(s))
    decreases |s|
  {
    if s == [] {
      CleanAscii([]);
    } else {
      var n := CharLen(s);
      var head, tail := s[..n], s[n..];
      assert head + tail == s;
      EscapeClean(tail);
      EscapeHeadClean(s);
      EscapeAppend(head, tail);
      CleanConcat(Escape(head), Escape(tail));
    }
  }

  lemma QuoteClean(s: seq<byte>)
    requires ValidUtf8(s)
    ensures Clean(Quote(s))
  {
    EscapeClean(s);
    CleanAscii([QUOTE]);
    CleanConcat([QUOTE], Escape(s));
    CleanConcat([QUOTE] + Escape(s), [QUOTE]);
  }

  lemma {:induction false} DigitsClean(n: nat)
    ensures Clean(Digits(n))
  {
    if n < 10 {
      CleanAscii(Digits(n));
    } else {
      DigitsClean(n / 10);
      CleanAscii([(0x30 + n % 10) as byte]);
      CleanConcat(Digits(n / 10), [(0x30 + n % 10) as byte]);
    }
  }

  /** The text `serde_json::to_string` writes has no NUL and is valid UTF-8. */
  lemma {:induction false} SerializeClean(v: Value)
    requires WellFormed(v)
    ensures Clean(Serialize(v))
    decreases v, 1
  {
    match v
    case Str(s) => QuoteClean(s);
    case Num(n) => DigitsClean(n);
    case Arr(items) =>
      ItemsClean(items);
      CleanAscii([LBRACKET]);
      CleanAscii([RBRACKET]);
      CleanConcat([LBRACKET], SerializeItems(items));
      CleanConcat([LBRACKET] + SerializeItems(items), [RBRACKET]);
    case Obj(fs) =>
      FieldsClean(fs);
      CleanAscii([LBRACE]);
      CleanAscii([RBRACE]);
      CleanConcat([LBRACE], SerializeFields(fs));
      CleanConcat([LBRACE] + SerializeFields(fs), [RBRACE]);
  }

  lemma {:induction false} ItemsClean(vs: seq<Value>)
    requires forall i :: 0 <= i < |vs| ==> WellFormed(vs[i])
    ensures Clean(SerializeItems(vs))
    decreases vs, 0
  {
    if vs == [] {
      CleanAscii([]);
    } else {
      SerializeClean(vs[0]);
      if |vs| > 1 {
        ItemsClean(vs[1..]);
        CleanAscii([COMMA]);
        CleanConcat(Serialize(vs[0]), [COMMA]);
        CleanConcat(Serialize(vs[0]) + [COMMA], SerializeItems(vs[1..]));
      }
    }
  }

  lemma {:induction false} FieldsClean(fs: seq<Field>)
    requires forall i :: 0 <= i < |fs| ==> ValidUtf8(fs[i].key) && WellFormed(fs[i].value)
    ensures Clean(SerializeFields(fs))
    decreases fs, 0
  {
    if fs == [] {
      CleanAscii([]);
    } else {
      QuoteClean(fs[0].key);
      SerializeClean(fs[0].value);
      CleanAscii([COLON]);
      CleanConcat(Quote(fs[0].key), [COLON]);
      CleanConcat(Quote(fs[0].key) + [COLON], Serialize(fs[0].value));
      if |fs| > 1 {
        FieldsClean(fs[1..]);
        CleanAscii([COMMA]);
        var head := Quote(fs[0].key) + [COLON] + Serialize(fs[0].value);
        CleanConcat(head, [COMMA]);
        CleanConcat(head + [COMMA], SerializeFields(fs[1..]));
      }
    }
  }

  // ---------------------------------------------------------------------------
  // Records whose members are all strings

  /** The object `{"keys[0]":"vals[0]",...}`, members in declaration order. */
  function StrRecord(keys: seq<seq<byte>>, vals: seq<seq<byte>>): (fs: seq<Field>)
    requires |keys| == |vals|
    ensures |fs| == |keys| && IsFlat(fs)
    ensures forall i :: 0 <= i < |fs| ==> fs[i] == Field(keys[i], Str(vals[i]))
  {
    seq(|keys|, i requires 0 <= i < |keys| => Field(keys[i], Str(vals[i])))
  }

  predicate Distinct(keys: seq<seq<byte>>)
  {
    forall a, b :: 0 <= a < b < |keys| ==> keys[a] != keys[b]
  }

  /** Reading back a written record finds every member under its own key. */
  lemma ReadRecord(keys: seq<seq<byte>>, vals: seq<seq<byte>>, i: nat)
    requires |keys| == |vals| && Distinct(keys) && i < |keys|
    ensures ParseFlat(Serialize(Obj(StrRecord(keys, vals)))).Some?
    ensures Lookup(ParseFlat(Serialize(Obj(StrRecord(keys, vals)))).value, keys[i]) == Some(vals[i])
  {
    var fs := StrRecord(keys, vals);
    ParseFlatRoundTrip(fs);
    LookupDistinct(fs, i);
  }

  /** A record with ASCII keys and valid UTF-8 values is written as a clean text. */
  lemma RecordClean(keys: seq<seq<byte>>, vals: seq<seq<byte>>)
    requires |keys| == |vals|
    requires forall i :: 0 <= i < |keys| ==> IsAscii(keys[i]) && ValidUtf8(vals[i])
    ensures Clean(Serialize(Obj(StrRecord(keys, vals))))
  {
    forall i | 0 <= i < |keys|
      ensures ValidUtf8(keys[i])
    {
      AsciiValidUtf8(keys[i]);
    }
    SerializeClean(Obj(StrRecord(keys, vals)));
  }

  /** Every key and every string of the document is ASCII. */
  predicate AsciiDoc(v: Value)
    decreases v
  {
    match v
    case Str(s) => IsAscii(s)
    case Num(_) => true
    case Arr(items) => forall i :: 0 <= i < |items| ==> AsciiDoc(items[i])
    case Obj(fs) => forall i :: 0 <= i < |fs| ==> IsAscii(fs[i].key) && AsciiDoc(fs[i].value)
  }

  lemma {:induction false} AsciiDocWellFormed(v: Value)
    requires AsciiDoc(v)
    ensures WellFormed(v)
    decreases v
  {
    match v
    case Str(s) => AsciiValidUtf8(s);
    case Num(_) =>
    case Arr(items) =>
      forall i | 0 <= i < |items|
        ensures WellFormed(items[i])
      {
        AsciiDocWellFormed(items[i]);
      }
    case Obj(fs) =>
      forall i | 0 <= i < |fs|
        ensures ValidUtf8(fs[i].key) && WellFormed(fs[i].value)
      {
        AsciiValidUtf8(fs[i].key);
        AsciiDocWellFormed(fs[i].value);
      }
  }
}
