/** The host side of the plugin's lifecycle calls, as the crate's own test
    harness drives them: a null result is success, anything else is a
    failure block it decodes, frees once, and reports. */
module Harness {
  import opened Bytes
  import opened Wrappers
  import opened Memory
  import opened Errno
  import opened PluginBase
  import opened Init
  import opened Api
  import opened TemplateCall
  import opened TemplateDesc

  /** `free_c_ptr`: a null pointer is left alone. */
  method FreeCPtr(heap: Heap, p: Ptr)
    requires heap.Valid() && (p != Null ==> heap.Live(p))
    modifies heap
    ensures heap.Valid()
    ensures heap.blocks == if p.Addr? then old(heap.blocks) - {p.a} else old(heap.blocks)
  {
    if p != Null {
      heap.Free(p);
    }
  }

  /** `get_code_msg_from_ret` on the bytes of a non-null result: the code is
      the little-endian `i32` of the first four bytes, the message the bytes
      from offset 4 up to the first NUL, or empty if they are not UTF-8.
      Reading past the end of the block is undefined behaviour, hence the
      requires. */
  function GetCodeMsgFromRet(buf: seq<byte>): (r: (int32, seq<byte>))
    requires |buf| >= 4 && 0 in buf[4..]
    ensures 0 !in r.1 && ValidUtf8(r.1)
    ensures r.1 == [] || r.1 + [0] <= buf[4..]
  {
    (I32FromLe(buf), OrEmpty(CStrToString(buf[4..])))
  }

  /** A failure block read back gives the code and the message it was
      written with, when the message is a clean text. */
  lemma CodeMsgRoundTrip(code: int32, msg: seq<byte>)
    requires Clean(msg)
    ensures var buf := ReturnCodeMsgBytes(code, msg);
      |buf| >= 4 && 0 in buf[4..] && GetCodeMsgFromRet(buf) == (code, msg)
  {
    var buf := ReturnCodeMsgBytes(code, msg);
    I32LeRoundTrip(code, msg + [0]);
    assert buf == I32Le(code) + (msg + [0]);
    assert buf[4..] == msg + [0] + [];
    CStrToStringRoundTrip(msg, []);
  }

  /** A message with an interior NUL comes back cut at that NUL. */
  lemma CodeMsgTruncates(code: int32, msg: seq<byte>)
    requires ValidUtf8(msg) && 0 in msg
    ensures var buf := ReturnCodeMsgBytes(code, msg);
      |buf| >= 4 && 0 in buf[4..] && GetCodeMsgFromRet(buf) == (code, msg[..StrLen(msg)])
  {
    var buf := ReturnCodeMsgBytes(code, msg);
    I32LeRoundTrip(code, msg + [0]);
    assert buf == I32Le(code) + (msg + [0]);
    assert buf[4..] == msg + [0];
    CStrToStringTruncates(msg, [0]);
  }

  /** What the harness makes of a lifecycle call. */
  datatype Outcome = Ok | Failed(code: int32, msg: seq<byte>)

  /** Decode and free a non-null result; a null one is success. */
  method TakeResult(heap: Heap, ret: Ptr) returns (r: Outcome)
    requires heap.Valid() && (ret != Null ==> heap.Live(ret))
    requires ret != Null ==> |heap.blocks[ret.a]| >= 4 && 0 in heap.blocks[ret.a][4..]
    modifies heap
    ensures heap.Valid()
    ensures ret == Null ==> r == Ok && heap.blocks == old(heap.blocks)
    ensures ret != Null ==>
      r == Failed(GetCodeMsgFromRet(old(heap.blocks[ret.a])).0, GetCodeMsgFromRet(old(heap.blocks[ret.a])).1) &&
      heap.blocks == old(heap.blocks) - {ret.a}
  {
    if ret == Null {
      return Ok;
    }
    var cm := GetCodeMsgFromRet(heap.blocks[ret.a]);
    FreeCPtr(heap, ret);
    r := Failed(cm.0, cm.1);
  }

  /** A block allocated and then freed leaves the heap as it was (a helper
      for `TakeInitFailure`). */
  lemma FreedFresh(blocks: map<nat, seq<byte>>, a: nat, v: seq<byte>)
    requires a !in blocks
    ensures blocks[a := v] - {a} == blocks
  {
  }

  /** The harness's handling of the failure block `init` returns for
      missing data: it reads back exactly what was written, and freeing it
      leaves the heap as it was before the call. */
  method TakeInitFailure(heap: Heap, ret: Ptr, ghost before: map<nat, seq<byte>>) returns (r: Outcome)
    requires heap.Valid() && ret.Addr? && ret.a !in before
    requires heap.blocks == before[ret.a := ReturnCodeMsgBytes(ERR_PLUGIN_MSG_INIT_INVALID, INVALID_INIT_DATA_MSG)]
    modifies heap
    ensures heap.Valid() && heap.blocks == before
    ensures r == Failed(ERR_PLUGIN_MSG_INIT_INVALID, INVALID_INIT_DATA_MSG)
  {
    InvalidInitDataMsgClean();
    CodeMsgRoundTrip(ERR_PLUGIN_MSG_INIT_INVALID, INVALID_INIT_DATA_MSG);
    r := TakeResult(heap, ret);
    FreedFresh(before, ret.a, ReturnCodeMsgBytes(ERR_PLUGIN_MSG_INIT_INVALID, INVALID_INIT_DATA_MSG));
  }

  /** `Plugin::init`: a failed `init` is reported with the code and message
      it returned, and its block is freed, so the heap is as it was and no
      slot changes; a successful one stores a copy of the data (as
      `set_init_data` does) and registers the template's handler, its
      descriptor and the log callback. */
  method PluginInit(st: Statics, heap: Heap, info: Option<InitData>) returns (r: Outcome)
    requires st.store.Valid(heap) && Registered(st)
    requires info.Some? && info.value.version != Null ==> heap.IsCStr(info.value.version)
    modifies st.store, st.handlers, st.descs, st.logs, heap
    ensures st.store.Valid(heap) && Registered(st)
    ensures info.None? || info.value.version == Null ==>
      r == Failed(ERR_PLUGIN_MSG_INIT_INVALID, INVALID_INIT_DATA_MSG) &&
      heap.blocks == old(heap.blocks) && st.store.data == old(st.store.data) &&
      st.handlers.handler == old(st.handlers.handler) && st.descs.desc == old(st.descs.desc) &&
      st.logs.log == old(st.logs.log)
    ensures info.Some? && info.value.version != Null ==>
      r == Ok && Stored(old(heap.blocks), old(st.store.data), info, heap.blocks, st.store.data, Null) &&
      st.handlers.handler == Some(TEMPLATE_HANDLER) && st.descs.desc == Some(GetDesc()) &&
      st.logs.log == Some(st.store.data.value.cbs.log)
  {
    var ret := InitExport(st, heap, info);
    if ret != Null {
      r := TakeInitFailure(heap, ret, old(heap.blocks));
    } else {
      r := Ok;
    }
  }

  /** `Plugin::clear`, which `Drop` always calls: `clear` never fails, so
      nothing is reported, and the stored data is released. */
  method PluginClear(st: Statics, heap: Heap) returns (r: Outcome)
    requires st.store.Valid(heap) && Registered(st)
    modifies st.store, heap
    ensures st.store.Valid(heap) && Registered(st) && r == Ok && st.store.data == None
    ensures heap.blocks == Release(old(heap.blocks), old(st.store.data))
  {
    var ret := ClearExport(st, heap);
    r := TakeResult(heap, ret);
  }
}
