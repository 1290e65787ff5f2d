/** The ABI types of the plugin framework: the callback table the host hands
    over, the `PluginReturn` result, and the conversions between Rust strings
    and C strings. */
module PluginBase {
  import opened Bytes
  import opened Wrappers
  import opened Memory
  import opened Errno

  /** The host's callback table. Function pointers are modelled by the
      identity of the host function they designate; `Callbacks` is `Copy`,
      so a copy names the same functions. */
  datatype Callbacks = Callbacks(msg: nat, getConf: nat, getId: nat, log: nat, native: nat)

  // ---------------------------------------------------------------------------
  // C strings and Rust strings

  /** `cstr_to_string`: the bytes before the first NUL, if they are valid UTF-8.
      A null or unterminated pointer is undefined behaviour, hence the requires. */
  function CStrToString(buf: seq<byte>): (r: Option<seq<byte>>)
    requires 0 in buf
    ensures r.Some? <==> ValidUtf8(CStr(buf))
    ensures r.Some? ==> r.value + [0] <= buf && 0 !in r.value
  {
    if ValidUtf8(CStr(buf)) then Some(CStr(buf)) else None
  }

  /** `unwrap_or_default()` on a decoded string. */
  function OrEmpty(r: Option<seq<byte>>): seq<byte>
  {
    if r.Some? then r.value else []
  }

  /** A clean text written out with a terminator reads back as itself. */
  lemma CStrToStringRoundTrip(s: seq<byte>, rest: seq<byte>)
    requires Clean(s)
    ensures 0 in s + [0] + rest && CStrToString(s + [0] + rest) == Some(s)
  {
    CStrOfTerminated(s, rest);
  }

  /** A valid text with an interior NUL reads back only up to that NUL, and the
      part read back is still valid UTF-8. */
  lemma CStrToStringTruncates(s: seq<byte>, rest: seq<byte>)
    requires ValidUtf8(s) && 0 in s
    ensures 0 in s + rest && CStrToString(s + rest) == Some(s[..StrLen(s)])
  {
    CStrTruncates(s, rest);
    ValidUtf8CutAtNul(s, StrLen(s));
  }

  /** `str_to_cstr`: a fresh block holding exactly the bytes of `s`, with no
      terminator; the length written through `out_buf_len` is `|s|`. */
  method StrToCstr(heap: Heap, s: seq<byte>) returns (out: Ptr, outBufLen: nat)
    requires heap.Valid()
    modifies heap
    ensures heap.Valid() && out.Addr? && out.a !in old(heap.blocks)
    ensures heap.blocks == old(heap.blocks)[out.a := s] && outBufLen == |s|
  {
    out := heap.Malloc(s);
    outBufLen := |s|;
  }

  /** `str_to_cstr_ret`: a fresh block holding the bytes of `s` and one NUL. */
  method StrToCstrRet(heap: Heap, s: seq<byte>) returns (r: Ptr)
    requires heap.Valid()
    modifies heap
    ensures heap.Valid() && r.Addr? && r.a !in old(heap.blocks)
    ensures heap.blocks == old(heap.blocks)[r.a := s + [0]]
  {
    r := heap.Malloc(s + [0]);
  }

  // ---------------------------------------------------------------------------
  // PluginReturn

  /** The common result of a plugin call. The message must be null on
      success; otherwise it is a C string the caller owns and must free. */
  class PluginReturn {
    var code: int32
    var msg: Ptr

    /** The documented invariant, with the message's ownership: a failure
        carries a live C string, a success carries nothing. */
    ghost predicate Owns(heap: Heap)
      reads this, heap
    {
      (code == ERR_SUCCESS <==> msg == Null) && (msg != Null ==> heap.IsCStr(msg))
    }

    /** `PluginReturn::success()`. */
    constructor Success()
      ensures code == ERR_SUCCESS && msg == Null
    {
      code := ERR_SUCCESS;
      msg := Null;
    }

    /** `PluginReturn::new(code, msg)`: the text is copied into a fresh
        block with exactly one NUL appended. */
    constructor New(heap: Heap, c: int32, text: seq<byte>)
      requires heap.Valid()
      modifies heap
      ensures heap.Valid() && code == c && msg.Addr? && msg.a !in old(heap.blocks)
      ensures heap.blocks == old(heap.blocks)[msg.a := text + [0]]
    {
      code := c;
      var p := StrToCstrRet(heap, text);
      msg := p;
    }

    predicate IsSuccess()
      reads this
    {
      code == ERR_SUCCESS
    }

    /** `get_code_msg`: a success yields `(0, "")` and changes nothing; a
        failure decodes its message (`""` if it is not UTF-8), frees it, and
        nulls the pointer. A failure whose message is already null trips the
        assertion, so the requires rules it out. */
    method GetCodeMsg(heap: Heap) returns (c: int32, text: seq<byte>)
      requires heap.Valid()
      requires code != ERR_SUCCESS ==> heap.IsCStr(msg)
      modifies this, heap
      ensures heap.Valid() && code == old(code)
      ensures old(code) == ERR_SUCCESS ==>
        c == ERR_SUCCESS && text == [] && msg == old(msg) && heap.blocks == old(heap.blocks)
      ensures old(code) != ERR_SUCCESS ==>
        c == old(code) && msg == Null &&
        text == OrEmpty(CStrToString(old(heap.blocks[msg.a]))) &&
        heap.blocks == old(heap.blocks) - {old(msg).a}
    {
      if IsSuccess() {
        c, text := code, [];
      } else {
        text := OrEmpty(CStrToString(heap.blocks[msg.a]));
        heap.Free(msg);
        msg := Null;
        c := code;
      }
    }
  }

  /** A failure built by `new` and read back by `get_code_msg` gives back its
      code and clean text, and leaves the heap as it was. */
  method NewThenGetCodeMsg(heap: Heap, code: int32, text: seq<byte>) returns (c: int32, t: seq<byte>)
    requires heap.Valid() && code != ERR_SUCCESS && Clean(text)
    modifies heap
    ensures heap.Valid() && c == code && t == text && heap.blocks == old(heap.blocks)
  {
    var r := new PluginReturn.New(heap, code, text);
    CStrToStringRoundTrip(text, []);
    assert text + [0] + [] == text + [0];
    c, t := r.GetCodeMsg(heap);
  }
}
