/** Plugin lifecycle: the initialization data the host hands over, kept as
    the plugin's own copy, and the `init` / `reset` / `clear` entry points. */
module Init {
  import opened Bytes
  import opened Wrappers
  import opened Memory
  import opened Errno
  import opened PluginBase
  import opened DescBase
  import opened Handler

  /** What the host passes to `init` and `reset`: its version string and its
      callback table. */
  datatype InitData = InitData(version: Ptr, cbs: Callbacks)

  // ---------------------------------------------------------------------------
  // The tagged-pointer result of init / reset / clear

  /** The bytes of a failure returned as a raw pointer: the code as a
      little-endian `i32`, then the message as a C string. (The helper that
      builds it, `make_return_code_msg`, is used by the crate but defined
      nowhere in it; the model's stand-in writes the layout its reader
      decodes.) */
  function ReturnCodeMsgBytes(code: int32, msg: seq<byte>): (r: seq<byte>)
    ensures |r| == 4 + |msg| + 1 && r[4..4 + |msg|] == msg && r[|r| - 1] == 0
  {
    I32Le(code) + msg + [0]
  }

  /** `make_return_code_msg`: the failure in a fresh block the caller owns. */
  method MakeReturnCodeMsg(heap: Heap, code: int32, msg: seq<byte>) returns (r: Ptr)
    requires heap.Valid()
    modifies heap
    ensures heap.Valid() && r.Addr? && r.a !in old(heap.blocks)
    ensures heap.blocks == old(heap.blocks)[r.a := ReturnCodeMsgBytes(code, msg)]
  {
    r := heap.Malloc(ReturnCodeMsgBytes(code, msg));
  }

  const INVALID_INIT_DATA_MSG: seq<byte> := Ascii("Invalid InitData, null pointer")

  lemma InvalidInitDataMsgClean()
    ensures Clean(INVALID_INIT_DATA_MSG)
  {
    AsciiNoNul("Invalid InitData, null pointer");
    CleanAscii(INVALID_INIT_DATA_MSG);
  }

  // ---------------------------------------------------------------------------
  // Copying and dropping InitData

  /** `InitData::clone`: a fresh copy of the version string, `strlen + 1`
      bytes with its NUL, and the same callbacks. */
  method CloneInitData(heap: Heap, d: InitData) returns (c: InitData)
    requires heap.Valid() && heap.IsCStr(d.version)
    modifies heap
    ensures heap.Valid() && c.cbs == d.cbs && c.version.Addr? && c.version.a !in old(heap.blocks)
    ensures heap.blocks == old(heap.blocks)[c.version.a := CStr(old(heap.blocks[d.version.a])) + [0]]
  {
    var v := heap.Malloc(CStr(heap.blocks[d.version.a]) + [0]);
    c := InitData(v, d.cbs);
  }

  /** The heap once `d` is dropped: its version block is freed if it is not null. */
  function Release(blocks: map<nat, seq<byte>>, d: Option<InitData>): map<nat, seq<byte>>
  {
    if d.Some? && d.value.version.Addr? then blocks - {d.value.version.a} else blocks
  }

  /** `InitData::drop`. */
  method DropInitData(heap: Heap, d: InitData)
    requires heap.Valid() && (d.version != Null ==> heap.Live(d.version))
    modifies heap
    ensures heap.Valid() && heap.blocks == Release(old(heap.blocks), Some(d))
  {
    if d.version != Null {
      heap.Free(d.version);
    }
  }

  // ---------------------------------------------------------------------------
  // The INIT_DATA slot

  /** What storing `info` does. A null `info` or a null version leaves the
      slot and the heap as they were and returns a fresh failure block with
      `ERR_PLUGIN_MSG_INIT_INVALID`; otherwise the slot holds a fresh copy,
      the copy it held before (if any) is freed, and the result is null. */
  ghost predicate Stored(
    oldBlocks: map<nat, seq<byte>>, oldData: Option<InitData>, info: Option<InitData>,
    blocks: map<nat, seq<byte>>, data: Option<InitData>, ret: Ptr)
  {
    if info.None? || info.value.version == Null then
      data == oldData && ret.Addr? && ret.a !in oldBlocks &&
      blocks == oldBlocks[ret.a := ReturnCodeMsgBytes(ERR_PLUGIN_MSG_INIT_INVALID, INVALID_INIT_DATA_MSG)]
    else
      ret == Null && info.value.version.a in oldBlocks && 0 in oldBlocks[info.value.version.a] &&
      data.Some? && data.value.cbs == info.value.cbs &&
      data.value.version.Addr? && data.value.version.a !in oldBlocks &&
      blocks == Release(oldBlocks, oldData)[data.value.version.a := CStr(oldBlocks[info.value.version.a]) + [0]]
  }

  /** The plugin's copy of the host's initialization data. */
  class InitStore {
    var data: Option<InitData>

    /** Every stored copy owns a live C string. */
    ghost predicate Valid(heap: Heap)
      reads this, heap
    {
      heap.Valid() && (data.Some? ==> heap.IsCStr(data.value.version))
    }

    constructor ()
      ensures data == None
    {
      data := None;
    }

    /** `set_init_data`. A non-null version the host passes must be a C string. */
    method SetInitData(heap: Heap, info: Option<InitData>) returns (ret: Ptr)
      requires Valid(heap)
      requires info.Some? && info.value.version != Null ==> heap.IsCStr(info.value.version)
      modifies this, heap
      ensures Valid(heap)
      ensures Stored(old(heap.blocks), old(data), info, heap.blocks, data, ret)
    {
      if info.None? || info.value.version == Null {
        ret := MakeReturnCodeMsg(heap, ERR_PLUGIN_MSG_INIT_INVALID, INVALID_INIT_DATA_MSG);
        return;
      }
      var copy := CloneInitData(heap, info.value);
      if data.Some? {
        DropInitData(heap, data.value);
      }
      data := Some(copy);
      ret := Null;
    }

    /** `clear`: the slot is emptied (its copy freed) and the result is null. */
    method Clear(heap: Heap) returns (ret: Ptr)
      requires Valid(heap)
      modifies this, heap
      ensures Valid(heap) && ret == Null && data == None
      ensures heap.blocks == Release(old(heap.blocks), old(data))
    {
      if data.Some? {
        DropInitData(heap, data.value);
      }
      data := None;
      ret := Null;
    }
  }

  /** The log callback the logging macros forward to (the `LOG_CB` static of
      the logging module, which is not part of this model). */
  class LogSlot {
    var log: Option<nat>

    constructor ()
      ensures log == None
    {
      log := None;
    }
  }

  /** The framework's statics. */
  datatype Statics = Statics(store: InitStore, handlers: HandlerSlot, descs: DescSlot, logs: LogSlot)

  /** `init`: store the data; only if that succeeds, register the handler and
      the descriptor and set the log callback from the stored copy. */
  method InitPlugin(st: Statics, heap: Heap, handler: HandlerImpl, desc: Desc, info: Option<InitData>) returns (ret: Ptr)
    requires st.store.Valid(heap)
    requires info.Some? && info.value.version != Null ==> heap.IsCStr(info.value.version)
    modifies st.store, st.handlers, st.descs, st.logs, heap
    ensures st.store.Valid(heap)
    ensures Stored(old(heap.blocks), old(st.store.data), info, heap.blocks, st.store.data, ret)
    ensures ret != Null ==>
      st.handlers.handler == old(st.handlers.handler) && st.descs.desc == old(st.descs.desc) && st.logs.log == old(st.logs.log)
    ensures ret == Null ==>
      st.handlers.handler == Some(handler) && st.descs.desc == Some(desc) &&
      st.logs.log == Some(st.store.data.value.cbs.log)
  {
    ret := st.store.SetInitData(heap, info);
    if ret != Null {
      return;
    }
    st.handlers.SetHandler(handler);
    st.descs.SetDesc(desc);
    st.logs.log := Some(st.store.data.value.cbs.log);
  }

  /** `reset`: only the initialization data is replaced; the handler and the
      descriptor stay as they are. */
  method ResetPlugin(st: Statics, heap: Heap, info: Option<InitData>) returns (ret: Ptr)
    requires st.store.Valid(heap)
    requires info.Some? && info.value.version != Null ==> heap.IsCStr(info.value.version)
    modifies st.store, heap
    ensures st.store.Valid(heap)
    ensures Stored(old(heap.blocks), old(st.store.data), info, heap.blocks, st.store.data, ret)
  {
    ret := st.store.SetInitData(heap, info);
    if ret != Null {
      return ret;
    }
    ret := Null;
  }

  /** `clear`, called twice, leaves exactly what one call leaves. */
  method ClearTwice(st: Statics, heap: Heap) returns (ret1: Ptr, ret2: Ptr)
    requires st.store.Valid(heap)
    modifies st.store, heap
    ensures st.store.Valid(heap) && ret1 == ret2 == Null && st.store.data == None
    ensures heap.blocks == Release(old(heap.blocks), old(st.store.data))
  {
    ret1 := st.store.Clear(heap);
    ghost var once := heap.blocks;
    ret2 := st.store.Clear(heap);
    assert heap.blocks == once;
  }
}
