/** The template plugin's exported entry points: each forwards to the
    framework, `init` with the template's handler and descriptor. */
module Api {
  import opened Bytes
  import opened Wrappers
  import opened Json
  import opened Memory
  import opened Errno
  import opened PluginBase
  import opened DescBase
  import opened Handler
  import opened Init
  import opened Host
  import opened Call
  import opened TemplateDesc
  import opened TemplateCall

  /** The framework's slots hold nothing but what this plugin's `init`
      registers: the template handler and the template descriptor. */
  ghost predicate Registered(st: Statics)
    reads st.handlers, st.descs
  {
    (st.handlers.handler.Some? ==> st.handlers.handler.value == TEMPLATE_HANDLER) &&
    (st.descs.desc.Some? ==> st.descs.desc.value == GetDesc())
  }

  // ---------------------------------------------------------------------------
  // Lifecycle

  /** `init`: the framework's `init` with `HandlerTemplate` and `get_desc()`. */
  method InitExport(st: Statics, heap: Heap, info: Option<InitData>) returns (ret: Ptr)
    requires st.store.Valid(heap) && Registered(st)
    requires info.Some? && info.value.version != Null ==> heap.IsCStr(info.value.version)
    modifies st.store, st.handlers, st.descs, st.logs, heap
    ensures st.store.Valid(heap) && Registered(st)
    ensures Stored(old(heap.blocks), old(st.store.data), info, heap.blocks, st.store.data, ret)
    ensures ret != Null ==>
      st.handlers.handler == old(st.handlers.handler) && st.descs.desc == old(st.descs.desc) && st.logs.log == old(st.logs.log)
    ensures ret == Null ==>
      st.handlers.handler == Some(TEMPLATE_HANDLER) && st.descs.desc == Some(GetDesc()) &&
      st.logs.log == Some(st.store.data.value.cbs.log)
  {
    ret := InitPlugin(st, heap, TEMPLATE_HANDLER, GetDesc(), info);
  }

  /** `reset`: the data is replaced; the handler and descriptor are not touched. */
  method ResetExport(st: Statics, heap: Heap, info: Option<InitData>) returns (ret: Ptr)
    requires st.store.Valid(heap) && Registered(st)
    requires info.Some? && info.value.version != Null ==> heap.IsCStr(info.value.version)
    modifies st.store, heap
    ensures st.store.Valid(heap) && Registered(st)
    ensures Stored(old(heap.blocks), old(st.store.data), info, heap.blocks, st.store.data, ret)
  {
    ret := ResetPlugin(st, heap, info);
  }

  /** `clear`: the data is dropped; the handler and descriptor stay registered. */
  method ClearExport(st: Statics, heap: Heap) returns (ret: Ptr)
    requires st.store.Valid(heap) && Registered(st)
    modifies st.store, heap
    ensures st.store.Valid(heap) && Registered(st) && ret == Null && st.store.data == None
    ensures heap.blocks == Release(old(heap.blocks), old(st.store.data))
  {
    ret := st.store.Clear(heap);
  }

  /** `desc`: a fresh block holding the descriptor's JSON and one NUL, which
      the host reads back as that text. */
  method DescExport(heap: Heap, order: seq<seq<byte>>) returns (r: Ptr)
    requires heap.Valid() && IsOrderOf(order, GetDesc().location.ui)
    modifies heap
    ensures heap.Valid() && r.Addr? && r.a !in old(heap.blocks)
    ensures heap.blocks == old(heap.blocks)[r.a := GetDescString(order) + [0]]
    ensures 0 in heap.blocks[r.a] && CStrToString(heap.blocks[r.a]) == Some(GetDescString(order))
  {
    var text := GetDescString(order);
    r := StrToCstrRet(heap, text);
    DescStringClean(order);
    CStrToStringRoundTrip(text, []);
    assert text + [0] + [] == text + [0];
  }

  // ---------------------------------------------------------------------------
  // Calls

  /** `client_call`: `plugin_call` with no out-pointers, so a peer call
      reaches the server-event handler. */
  method ClientCall(st: Statics, host: Host, heap: Heap, methodPtr: Option<seq<byte>>, peer: seq<byte>, args: seq<byte>)
    returns (pr: PluginReturn, ghost leak: Ptr)
    requires st.store.Valid(heap) && Registered(st)
    requires 0 in peer && (methodPtr.Some? ==> 0 in methodPtr.value)
    requires methodPtr.Some? && ReadsArgs(methodPtr.value) ==> 0 in args
    modifies host, heap
    ensures st.store.Valid(heap) && fresh(pr) && pr.Owns(heap)
    ensures var g := old(Guard(st.store.data.Some?, st.handlers.handler.Some?, st.descs.desc.Some?, methodPtr, peer));
      g.Fail? ==>
        pr.code == g.code && pr.msg.Addr? && pr.msg.a !in old(heap.blocks) &&
        heap.blocks == old(heap.blocks)[pr.msg.a := g.msg + [0]] && host.sent == old(host.sent) &&
        host.idRequests == old(host.idRequests)
    ensures var g := old(Guard(st.store.data.Some?, st.handlers.handler.Some?, st.descs.desc.Some?, methodPtr, peer));
      g.Pass? ==> Handled(host, heap, TEMPLATE_HANDLER, GetDesc(), methodPtr.value, g.peer, args, None, leak, pr)
  {
    pr, leak := PluginCall(st, host, heap, methodPtr, peer, args, None);
  }

  /** `server_call`: `plugin_call` with the caller's out-pointers, so a peer
      call reaches the client-event handler, which may write through them. */
  method ServerCall(st: Statics, host: Host, heap: Heap, methodPtr: Option<seq<byte>>, peer: seq<byte>, args: seq<byte>, out: OutSlot)
    returns (pr: PluginReturn, ghost leak: Ptr)
    requires st.store.Valid(heap) && Registered(st)
    requires 0 in peer && (methodPtr.Some? ==> 0 in methodPtr.value)
    requires methodPtr.Some? && ReadsArgs(methodPtr.value) ==> 0 in args
    modifies host, heap, out
    ensures st.store.Valid(heap) && fresh(pr) && pr.Owns(heap)
    ensures var g := old(Guard(st.store.data.Some?, st.handlers.handler.Some?, st.descs.desc.Some?, methodPtr, peer));
      g.Fail? ==>
        pr.code == g.code && pr.msg.Addr? && pr.msg.a !in old(heap.blocks) &&
        heap.blocks == old(heap.blocks)[pr.msg.a := g.msg + [0]] && host.sent == old(host.sent) &&
        host.idRequests == old(host.idRequests) && out.buf == old(out.buf) && out.len == old(out.len)
    ensures var g := old(Guard(st.store.data.Some?, st.handlers.handler.Some?, st.descs.desc.Some?, methodPtr, peer));
      g.Pass? ==> Handled(host, heap, TEMPLATE_HANDLER, GetDesc(), methodPtr.value, g.peer, args, Some(out), leak, pr)
  {
    pr, leak := PluginCall(st, host, heap, methodPtr, peer, args, Some(out));
  }

  // ---------------------------------------------------------------------------
  // The template behind the framework

  /** The descriptor's id and name are UTF-8 (a helper for the lemmas below). */
  lemma DescTextsValid()
    ensures ValidUtf8(GetDesc().id) && ValidUtf8(GetDesc().name)
  {
    GetDescAscii();
    AsciiValidUtf8(GetDesc().id);
    AsciiValidUtf8(GetDesc().name);
  }

  /** `handle_peer` takes the peer route (a helper). */
  lemma PeerRouted()
    ensures 0 in METHOD_HANDLE_PEER && RouteOf(METHOD_HANDLE_PEER) == PeerRoute
  {
    NamesAreCStrings();
    assert METHOD_HANDLE_PEER[..|METHOD_HANDLE_UI|][7] != METHOD_HANDLE_UI[7];
  }

  /** A `handle_ui` call carrying a message the host wrote for this plugin,
      with the local id readable, reaches the template's UI handler with
      exactly that message and that id. */
  lemma UiCallReachesTemplate(localId: seq<byte>, peer: seq<byte>, m: MsgFromUi, hasOut: bool)
    requires Clean(localId) && m.id == ID
    requires ValidUtf8(m.name) && ValidUtf8(m.location) && ValidUtf8(m.key) && ValidUtf8(m.value) && ValidUtf8(m.action)
    ensures 0 in METHOD_HANDLE_UI && 0 in localId + [0] && 0 in Serialize(MsgFromUiValue(m)) + [0]
    ensures HandlerResult(TEMPLATE_HANDLER, GetDesc(), true, localId + [0], peer, METHOD_HANDLE_UI,
                          Serialize(MsgFromUiValue(m)) + [0], hasOut) == HandleUiEvent(GetDesc(), localId, m)
  {
    var text := Serialize(MsgFromUiValue(m));
    NamesAreCStrings();
    assert RouteOf(METHOD_HANDLE_UI) == UiRoute;
    DescTextsValid();
    MsgFromUiClean(m);
    CStrToStringRoundTrip(text, []);
    assert text + [0] + [] == text + [0];
    MsgFromUiRoundTrip(m);
    CStrToStringRoundTrip(localId, []);
    assert localId + [0] + [] == localId + [0];
    assert UiDecode(GetDesc(), text + [0]) == Continue(m);
  }

  /** A `handle_listen_event` call carrying an event the host wrote, with the
      local id readable, reaches the template's listen handler with exactly
      that event. */
  lemma ListenCallReachesTemplate(localId: seq<byte>, peer: seq<byte>, event: seq<byte>, hasOut: bool)
    requires Clean(localId) && ValidUtf8(event)
    ensures 0 in METHOD_HANDLE_LISTEN_EVENT && 0 in localId + [0] && 0 in MsgListenEventText(event)
    ensures HandlerResult(TEMPLATE_HANDLER, GetDesc(), true, localId + [0], peer, METHOD_HANDLE_LISTEN_EVENT,
                          MsgListenEventText(event), hasOut) == HandleListenEvent(true, MsgListenEvent(event))
  {
    ListenRouted();
    MsgListenEventRoundTrip(event);
    CStrToStringRoundTrip(localId, []);
    assert localId + [0] + [] == localId + [0];
    assert CStr(localId + [0]) == localId;
  }

  /** `handle_listen_event` takes the listen route (a helper). */
  lemma ListenRouted()
    ensures 0 in METHOD_HANDLE_LISTEN_EVENT && RouteOf(METHOD_HANDLE_LISTEN_EVENT) == ListenRoute
  {
    NamesAreCStrings();
    assert METHOD_HANDLE_LISTEN_EVENT[..|METHOD_HANDLE_UI|][7] != METHOD_HANDLE_UI[7];
    assert METHOD_HANDLE_LISTEN_EVENT[..|METHOD_HANDLE_PEER|][7] != METHOD_HANDLE_PEER[7];
  }

  /** The toggle the test harness drives, end to end through the framework:
      the request the remote-toolbar checkbox sends, given to the peer's
      `server_call` as `handle_peer`, succeeds and writes an answer; that
      answer, given back to this side's `client_call`, succeeds and sets the
      per-peer option to the value toggled. */
  lemma PeerToggleThroughFramework(localId: seq<byte>, idBuf: seq<byte>, peer: seq<byte>, m: MsgFromUi)
    requires m.location == UI_CLIENT_REMOTE_LOCATION && m.key == UI_CLIENT_REMOTE_KEY && IsToggle(m.value)
    requires ValidUtf8(localId) && 0 in idBuf
    ensures 0 in METHOD_HANDLE_PEER
    ensures var request := HandleUiEvent(GetDesc(), localId, m).msgs.toPeer;
      |request| == 1 && 0 in request[0] &&
      var served := HandlerResult(TEMPLATE_HANDLER, GetDesc(), true, idBuf, peer, METHOD_HANDLE_PEER, request[0], true);
      var answer := OutWrite(TEMPLATE_HANDLER, GetDesc(), METHOD_HANDLE_PEER, request[0]);
      served.code == ERR_SUCCESS && answer.Some? && 0 in answer.value &&
      var read := HandlerResult(TEMPLATE_HANDLER, GetDesc(), true, idBuf, peer, METHOD_HANDLE_PEER, answer.value, false);
      read.code == ERR_SUCCESS && read.msgs.toConfig == [MakeMsgToConfig(ID, m.value)]
  {
    PeerRouted();
    DescTextsValid();
    ToggleRoundTrip(GetDesc(), localId, m);
  }
}
