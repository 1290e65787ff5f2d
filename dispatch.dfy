/** The framework's call entry point: the checks every call goes through,
    the routing by method name, the handlers' decoding of their arguments,
    and the fan-out of the handler's messages to the host. */
module Call {
  import opened Bytes
  import opened Wrappers
  import opened Json
  import opened Memory
  import opened Errno
  import opened PluginBase
  import opened DescBase
  import opened Handler
  import opened Init
  import opened Host

  // ---------------------------------------------------------------------------
  // Method names

  /** `is_method`: the first `|target|` bytes of the name are the target,
      terminator included. A name shorter than that does not match (reading
      past it is undefined behaviour in the source; see README). */
  predicate IsMethod(buf: seq<byte>, target: seq<byte>)
  {
    |buf| >= |target| && buf[..|target|] == target
  }

  /** Because the target carries its NUL, the match is exact: the name is the
      target's text, not a longer name that starts with it. */
  lemma IsMethodExact(buf: seq<byte>, target: seq<byte>)
    requires 0 in buf && NulTerminated(target)
    ensures IsMethod(buf, target) <==> CStr(buf) + [0] == target
  {
    var n := |target| - 1;
    if IsMethod(buf, target) {
      assert buf[n] == 0 && buf[..n] == target[..n];
      assert StrLen(buf) == n;
      assert CStr(buf) == target[..n];
      assert target == target[..n] + [0];
    }
    if CStr(buf) + [0] == target {
      assert CStr(buf) + [0] <= buf;
    }
  }

  datatype Route = UiRoute | PeerRoute | ListenRoute | Unsupported

  /** The order the dispatcher tries the names in. */
  function RouteOf(m: seq<byte>): Route
  {
    if IsMethod(m, METHOD_HANDLE_UI) then UiRoute
    else if IsMethod(m, METHOD_HANDLE_PEER) then PeerRoute
    else if IsMethod(m, METHOD_HANDLE_LISTEN_EVENT) then ListenRoute
    else Unsupported
  }

  /** Each route is taken for exactly one name; `handle_conn` and every
      other name are unsupported. */
  lemma RouteExact(m: seq<byte>)
    requires 0 in m
    ensures RouteOf(m) == UiRoute <==> CStr(m) == Ascii("handle_ui")
    ensures RouteOf(m) == PeerRoute <==> CStr(m) == Ascii("handle_peer")
    ensures RouteOf(m) == ListenRoute <==> CStr(m) == Ascii("handle_listen_event")
  {
    NamesAreCStrings();
    IsMethodExact(m, METHOD_HANDLE_UI);
    IsMethodExact(m, METHOD_HANDLE_PEER);
    IsMethodExact(m, METHOD_HANDLE_LISTEN_EVENT);
    var c := CStr(m);
    assert c + [0] == METHOD_HANDLE_UI <==> c == Ascii("handle_ui") by {
      if c + [0] == METHOD_HANDLE_UI { assert c == (c + [0])[..|c|]; }
    }
    assert c + [0] == METHOD_HANDLE_PEER <==> c == Ascii("handle_peer") by {
      if c + [0] == METHOD_HANDLE_PEER { assert c == (c + [0])[..|c|]; }
    }
    assert c + [0] == METHOD_HANDLE_LISTEN_EVENT <==> c == Ascii("handle_listen_event") by {
      if c + [0] == METHOD_HANDLE_LISTEN_EVENT { assert c == (c + [0])[..|c|]; }
    }
    assert Ascii("handle_ui") != Ascii("handle_peer");
    assert Ascii("handle_ui") != Ascii("handle_listen_event");
    assert Ascii("handle_peer") != Ascii("handle_listen_event");
  }

  lemma HandleConnUnsupported(m: seq<byte>)
    requires 0 in m && CStr(m) == Ascii("handle_conn")
    ensures RouteOf(m) == Unsupported
  {
    RouteExact(m);
    assert Ascii("handle_conn")[7] != Ascii("handle_ui")[7];
    assert Ascii("handle_conn")[7] != Ascii("handle_peer")[7];
    assert |Ascii("handle_conn")| != |Ascii("handle_listen_event")|;
  }

  // ---------------------------------------------------------------------------
  // The checks before dispatch

  /** The failure messages the framework writes, word for word. */
  const NOT_INITIALIZED_TEXT: seq<byte> := Ascii("Plugin must be initialized before calling any other functions")
  const NO_HANDLER_TEXT: seq<byte> := Ascii("Plugin handler must be set before calling any other functions")
  const NO_DESC_TEXT: seq<byte> := Ascii("Plugin desc must be set before calling any other functions")
  const NULL_METHOD_TEXT: seq<byte> := Ascii("method is null")
  const BAD_PEER_TEXT: seq<byte> := Ascii("parse remote peer id: ")
  const NO_CALLBACKS_TEXT: seq<byte> := Ascii("Callbacks must be set before calling any other functions")
  const BAD_LOCAL_ID_TEXT: seq<byte> := Ascii("parse local peer id")
  const UNSUPPORTED_TEXT: seq<byte> := Ascii("Unsupported call of '")

  datatype Guarded = Fail(code: int32, msg: seq<byte>) | Pass(peer: seq<byte>)

  /** The checks `plugin_call` makes, in order: init data, handler and
      descriptor are set; the method pointer is not null; the remote peer id
      is UTF-8. The first that fails decides the result. */
  function Guard(initialized: bool, hasHandler: bool, hasDesc: bool, methodPtr: Option<seq<byte>>, peer: seq<byte>): (g: Guarded)
    requires initialized && hasHandler && hasDesc && methodPtr.Some? ==> 0 in peer
    ensures g.Pass? <==> initialized && hasHandler && hasDesc && methodPtr.Some? && ValidUtf8(CStr(peer))
    ensures g.Pass? ==> g.peer == CStr(peer)
    ensures g.Fail? && !(initialized && hasHandler && hasDesc) ==> g.code == ERR_PLUGIN_MSG_INIT
    ensures g.Fail? && initialized && hasHandler && hasDesc ==>
      g.code == (if methodPtr.None? then ERR_CALL_INVALID_METHOD else ERR_CALL_INVALID_PEER)
  {
    if !initialized then
      Fail(ERR_PLUGIN_MSG_INIT, NOT_INITIALIZED_TEXT)
    else if !hasHandler then
      Fail(ERR_PLUGIN_MSG_INIT, NO_HANDLER_TEXT)
    else if !hasDesc then
      Fail(ERR_PLUGIN_MSG_INIT, NO_DESC_TEXT)
    else if methodPtr.None? then
      Fail(ERR_CALL_INVALID_METHOD, NULL_METHOD_TEXT)
    else
      match CStrToString(peer)
      case None => Fail(ERR_CALL_INVALID_PEER, BAD_PEER_TEXT + ERROR_DEBUG)
      case Some(p) => Pass(p)
  }

  // ---------------------------------------------------------------------------
  // What the handlers compute

  /** `get_local_peer_id`, given whether init data is stored and the buffer
      the host's `get_id` returns. */
  function LocalPeerId(initialized: bool, idBuf: seq<byte>): (f: Flow<seq<byte>>)
    requires 0 in idBuf
    ensures f.Continue? <==> initialized && ValidUtf8(CStr(idBuf))
    ensures f.Continue? ==> f.value == CStr(idBuf)
    ensures f.Return? ==>
      f.ret.msgs == NO_MSGS && f.ret.code == (if initialized then ERR_PLUGIN_MSG_GET_LOCAL_PEER_ID else ERR_PLUGIN_MSG_INIT)
  {
    if !initialized then
      Return(HandlerRet(ERR_PLUGIN_MSG_INIT, NO_CALLBACKS_TEXT, NO_MSGS))
    else
      match CStrToString(idBuf)
      case Some(id) => Continue(id)
      case None => Return(HandlerRet(ERR_PLUGIN_MSG_GET_LOCAL_PEER_ID, BAD_LOCAL_ID_TEXT, NO_MSGS))
  }

  /** The part of `handle_msg_ui` before the host is asked for the local
      id: decode the text, parse it, check the plugin id. */
  function UiDecode(d: Desc, args: seq<byte>): (f: Flow<MsgFromUi>)
    requires 0 in args
    ensures f.Continue? <==> ValidUtf8(CStr(args)) && ParseMsgFromUi(CStr(args)).Some? && ParseMsgFromUi(CStr(args)).value.id == d.id
    ensures f.Continue? ==> f.value == ParseMsgFromUi(CStr(args)).value
    ensures f.Return? ==> f.ret.code == ERR_CALL_INVALID_ARGS && f.ret.msgs == NO_MSGS
  {
    match EarlyReturnValue(CStrToString(args), ERR_CALL_INVALID_ARGS, Ascii("parse args"))
    case Return(r) => Return(r)
    case Continue(content) =>
      match EarlyReturnValue(ParseMsgFromUi(content), ERR_CALL_INVALID_ARGS, Ascii("parse ") + content)
      case Return(r) => Return(r)
      case Continue(msgUi) =>
        match EarlyReturnIfTrue(msgUi.id != d.id, ERR_CALL_INVALID_ARGS, Ascii("id mismatch"))
        case Return(r) => Return(r)
        case Continue(_) => Continue(msgUi)
  }

  /** `handle_msg_ui`: a rejected argument decides the result before the
      local id is looked at; then a missing id fails; otherwise the handler
      runs on the decoded message and the local id. */
  function UiResult(h: HandlerImpl, d: Desc, initialized: bool, idBuf: seq<byte>, args: seq<byte>): (r: HandlerRet)
    requires 0 in idBuf && 0 in args
    ensures UiDecode(d, args).Return? ==> r.code == ERR_CALL_INVALID_ARGS && r.msgs == NO_MSGS
    ensures UiDecode(d, args).Continue? && !initialized ==> r.code == ERR_PLUGIN_MSG_INIT && r.msgs == NO_MSGS
    ensures UiDecode(d, args).Continue? && initialized && !ValidUtf8(CStr(idBuf)) ==>
      r.code == ERR_PLUGIN_MSG_GET_LOCAL_PEER_ID && r.msgs == NO_MSGS
    ensures UiDecode(d, args).Continue? && initialized && ValidUtf8(CStr(idBuf)) ==>
      r == h.ui(d, CStr(idBuf), ParseMsgFromUi(CStr(args)).value)
  {
    match UiDecode(d, args)
    case Return(r) => r
    case Continue(msgUi) =>
      match LocalPeerId(initialized, idBuf)
      case Return(r) => r
      case Continue(id) => h.ui(d, id, msgUi)
  }

  /** `handle_msg_listen`: `peer` is the remote peer id the call came with.
      An unreadable event is rejected before the local id is looked at; then
      a missing id fails; otherwise the handler runs on the event, the local
      id and the remote peer id. */
  function ListenResult(h: HandlerImpl, d: Desc, initialized: bool, idBuf: seq<byte>, peer: seq<byte>, args: seq<byte>): (r: HandlerRet)
    requires 0 in idBuf && 0 in args
    ensures MsgListenEventFromCStr(args).None? ==> r.code == ERR_CALL_INVALID_ARGS && r.msgs == NO_MSGS
    ensures MsgListenEventFromCStr(args).Some? && !initialized ==> r.code == ERR_PLUGIN_MSG_INIT && r.msgs == NO_MSGS
    ensures MsgListenEventFromCStr(args).Some? && initialized && !ValidUtf8(CStr(idBuf)) ==>
      r.code == ERR_PLUGIN_MSG_GET_LOCAL_PEER_ID && r.msgs == NO_MSGS
    ensures MsgListenEventFromCStr(args).Some? && initialized && ValidUtf8(CStr(idBuf)) ==>
      r == h.listen(d, CStr(idBuf), peer, MsgListenEventFromCStr(args).value, true)
  {
    match EarlyReturnValue(MsgListenEventFromCStr(args), ERR_CALL_INVALID_ARGS, Ascii("parse args"))
    case Return(r) => r
    case Continue(event) =>
      match LocalPeerId(initialized, idBuf)
      case Return(r) => r
      case Continue(id) => h.listen(d, id, peer, event, initialized)
  }

  /** How `str`'s `Debug` shows one byte between its quotes (`escape_debug`):
      quote and backslash get a backslash, tab, newline and carriage return
      their letter escapes, NUL `\0`, the other ASCII controls and DEL
      `\u{..}` in lower-case hex without leading zeros; everything else is
      shown as it is (see README for non-ASCII characters). */
  function DebugEscapeByte(b: byte): (e: seq<byte>)
    ensures 1 <= |e| <= 6
  {
    if b == QUOTE || b == BACKSLASH then [BACKSLASH, b]
    else if b == 0x09 then [BACKSLASH, 0x74]
    else if b == 0x0A then [BACKSLASH, 0x6E]
    else if b == 0x0D then [BACKSLASH, 0x72]
    else if b == 0 then [BACKSLASH, 0x30]
    else if b < 0x20 || b == 0x7F then
      [BACKSLASH, 0x75, 0x7B] + (if b < 0x10 then [HexDigit(b as int)] else [HexDigit(b as int / 16), HexDigit(b as int % 16)]) + [0x7D]
    else [b]
  }

  function DebugEscape(s: seq<byte>): seq<byte>
  {
    if s == [] then [] else DebugEscapeByte(s[0]) + DebugEscape(s[1..])
  }

  /** A byte that `Debug` shows as itself. */
  predicate DebugPlain(b: byte)
  {
    0x20 <= b && b != 0x7F && b != QUOTE && b != BACKSLASH
  }

  /** Text made only of plain bytes is shown unchanged. */
  lemma {:induction false} DebugEscapePlain(s: seq<byte>)
    requires forall i :: 0 <= i < |s| ==> DebugPlain(s[i])
    ensures DebugEscape(s) == s
  {
    if s != [] {
      DebugEscapePlain(s[1..]);
      assert [s[0]] + s[1..] == s;
    }
  }

  /** The escaped text holds no control byte and no quote that is not
      preceded by a backslash, so it cannot end the quoted form early. */
  lemma {:induction false} DebugEscapeSafe(s: seq<byte>)
    ensures forall i :: 0 <= i < |DebugEscape(s)| ==> 0x20 <= DebugEscape(s)[i] != 0x7F
    ensures forall i :: 0 <= i < |DebugEscape(s)| && DebugEscape(s)[i] == QUOTE ==> 0 < i && DebugEscape(s)[i - 1] == BACKSLASH
  {
    if s != [] {
      DebugEscapeSafe(s[1..]);
      var e := DebugEscapeByte(s[0]);
      var rest := DebugEscape(s[1..]);
      assert DebugEscape(s) == e + rest;
      forall i | 0 <= i < |e + rest|
        ensures 0x20 <= (e + rest)[i] != 0x7F
        ensures (e + rest)[i] == QUOTE ==> 0 < i && (e + rest)[i - 1] == BACKSLASH
      {
        if i < |e| {
          assert (e + rest)[i] == e[i];
          if i > 0 { assert (e + rest)[i - 1] == e[i - 1]; }
        } else {
          assert (e + rest)[i] == rest[i - |e|];
          if i > |e| { assert (e + rest)[i - 1] == rest[i - 1 - |e|]; }
        }
      }
    }
  }

  /** How the method name is shown in the unsupported-call message: the
      `Debug` text of `CStr::to_str`'s result, the text quoted and escaped. */
  function MethodDebug(r: Option<seq<byte>>): seq<byte>
  {
    if r.Some? then Ascii("Ok(\"") + DebugEscape(r.value) + Ascii("\")") else Ascii("Err(") + ERROR_DEBUG + Ascii(")")
  }

  /** A method name holding a quote is shown with that quote escaped. */
  lemma MethodDebugEscapesQuote()
    ensures MethodDebug(Some([0x61, 0x22, 0x62])) == Ascii("Ok(\"a\\\"b\")")
  {
    assert DebugEscape([0x61, 0x22, 0x62]) == [0x61, BACKSLASH, 0x22, 0x62] by {
      assert [0x61, 0x22, 0x62][1..] == [0x22, 0x62];
      assert [0x22, 0x62][1..] == [0x62];
      assert [0x62 as byte][1..] == [];
    }
  }

  function UnsupportedRet(m: seq<byte>): HandlerRet
    requires 0 in m
  {
    HandlerRet(ERR_CALL_NOT_SUPPORTED_METHOD, UNSUPPORTED_TEXT + MethodDebug(CStrToString(m)) + Ascii("'"), NO_MSGS)
  }

  predicate ReadsArgs(m: seq<byte>)
  {
    RouteOf(m) != Unsupported
  }

  /** The handler's result once the checks pass: a peer call goes to the
      client-event handler when `out` is given and to the server-event
      handler otherwise. */
  function HandlerResult(h: HandlerImpl, d: Desc, initialized: bool, idBuf: seq<byte>, peer: seq<byte>,
                         m: seq<byte>, args: seq<byte>, hasOut: bool): (r: HandlerRet)
    requires 0 in idBuf && 0 in m && (ReadsArgs(m) ==> 0 in args)
    ensures RouteOf(m) == PeerRoute ==>
      r == if hasOut then h.client(d, args).ret else h.server(d, args)
    ensures RouteOf(m) == UiRoute ==> r == UiResult(h, d, initialized, idBuf, args)
    ensures RouteOf(m) == ListenRoute ==> r == ListenResult(h, d, initialized, idBuf, peer, args)
    ensures RouteOf(m) == Unsupported ==>
      r.code == ERR_CALL_NOT_SUPPORTED_METHOD && r.msgs == NO_MSGS &&
      r.msg == UNSUPPORTED_TEXT + MethodDebug(CStrToString(m)) + Ascii("'")
  {
    match RouteOf(m)
    case UiRoute => UiResult(h, d, initialized, idBuf, args)
    case PeerRoute => if hasOut then h.client(d, args).ret else h.server(d, args)
    case ListenRoute => ListenResult(h, d, initialized, idBuf, peer, args)
    case Unsupported => UnsupportedRet(m)
  }

  // ---------------------------------------------------------------------------
  // What is sent to the host

  /** The payload of a UI message: the remote channel as two little-endian
      bytes, then the message's JSON. */
  function UiPayload(m: MsgToUi): (p: seq<byte>)
    ensures |p| >= 2 && p[..2] == [4, 0] && p[2..] == Serialize(MsgToUiValue(m))
  {
    U16Le(MSG_TO_UI_FLUTTER_CHANNEL_REMOTE) + Serialize(MsgToUiValue(m))
  }

  /** The `msg` calls one of `process_return`'s loops makes: one per
      payload, in order, with the peer and plugin ids terminated. */
  function SendAll(peer: seq<byte>, target: seq<byte>, id: seq<byte>, payloads: seq<seq<byte>>): seq<Sent>
  {
    if payloads == [] then []
    else SendAll(peer, target, id, payloads[..|payloads| - 1]) + [Sent(peer + [0], target, id + [0], payloads[|payloads| - 1])]
  }

  lemma {:induction false} SendAllElements(peer: seq<byte>, target: seq<byte>, id: seq<byte>, payloads: seq<seq<byte>>)
    ensures |SendAll(peer, target, id, payloads)| == |payloads|
    ensures forall i :: 0 <= i < |payloads| ==>
      SendAll(peer, target, id, payloads)[i] == Sent(peer + [0], target, id + [0], payloads[i])
  {
    if payloads != [] {
      SendAllElements(peer, target, id, payloads[..|payloads| - 1]);
    }
  }

  function UiPayloads(ms: seq<MsgToUi>): (ps: seq<seq<byte>>)
    ensures |ps| == |ms|
  {
    seq(|ms|, i requires 0 <= i < |ms| => UiPayload(ms[i]))
  }

  /** The `msg` calls `process_return` makes. */
  function Sends(peer: seq<byte>, id: seq<byte>, msgs: Msgs): seq<Sent>
  {
    SendAll(peer, MSG_TO_CONFIG_TARGET, id, msgs.toConfig) +
    SendAll(peer, MSG_TO_PEER_TARGET, id, msgs.toPeer) +
    SendAll(peer, MSG_TO_UI_TARGET, id, UiPayloads(msgs.toUi))
  }

  /** Every config message goes first, then every peer message, then every
      UI message, each list in order, all for the same peer and plugin. */
  lemma SendsOrder(peer: seq<byte>, id: seq<byte>, msgs: Msgs)
    ensures var s := Sends(peer, id, msgs);
      |s| == |msgs.toConfig| + |msgs.toPeer| + |msgs.toUi| &&
      (forall i :: 0 <= i < |msgs.toConfig| ==>
        s[i] == Sent(peer + [0], MSG_TO_CONFIG_TARGET, id + [0], msgs.toConfig[i])) &&
      (forall i :: 0 <= i < |msgs.toPeer| ==>
        s[|msgs.toConfig| + i] == Sent(peer + [0], MSG_TO_PEER_TARGET, id + [0], msgs.toPeer[i])) &&
      (forall i :: 0 <= i < |msgs.toUi| ==>
        s[|msgs.toConfig| + |msgs.toPeer| + i] == Sent(peer + [0], MSG_TO_UI_TARGET, id + [0], UiPayload(msgs.toUi[i])))
  {
    SendAllElements(peer, MSG_TO_CONFIG_TARGET, id, msgs.toConfig);
    SendAllElements(peer, MSG_TO_PEER_TARGET, id, msgs.toPeer);
    SendAllElements(peer, MSG_TO_UI_TARGET, id, UiPayloads(msgs.toUi));
  }

  lemma SendAllStep(peer: seq<byte>, target: seq<byte>, id: seq<byte>, payloads: seq<seq<byte>>, i: nat)
    requires i < |payloads|
    ensures SendAll(peer, target, id, payloads[..i + 1]) ==
            SendAll(peer, target, id, payloads[..i]) + [Sent(peer + [0], target, id + [0], payloads[i])]
  {
    assert payloads[..i + 1][..i] == payloads[..i];
  }

  /** The heap keeps every block it had, unchanged. */
  ghost predicate Grown(oldBlocks: map<nat, seq<byte>>, blocks: map<nat, seq<byte>>)
  {
    forall a :: a in oldBlocks ==> a in blocks && blocks[a] == oldBlocks[a]
  }

  // ---------------------------------------------------------------------------
  // Talking to the host

  /** `call_msg_cb`: without init data nothing is sent and the answer is a
      success; otherwise the host's answer is read, and a failure message is
      freed after it is decoded. */
  method CallMsgCb(store: InitStore, host: Host, heap: Heap, peer: seq<byte>, target: seq<byte>, id: seq<byte>, content: seq<byte>)
    returns (code: int32, text: seq<byte>)
    requires heap.Valid()
    modifies host, heap
    ensures heap.Valid() && heap.blocks == old(heap.blocks) && host.idRequests == old(host.idRequests)
    ensures host.sent == old(host.sent) + (if store.data.Some? then [Sent(peer + [0], target, id + [0], content)] else [])
    ensures store.data.None? || host.answer == ERR_SUCCESS ==> code == ERR_SUCCESS && text == []
    ensures store.data.Some? && host.answer != ERR_SUCCESS ==>
      code == host.answer && text == OrEmpty(CStrToString(host.answerText + [0]))
  {
    if store.data.Some? {
      var ret := host.Msg(heap, peer + [0], target, id + [0], content);
      if ret.IsSuccess() {
        code, text := ERR_SUCCESS, [];
      } else {
        ghost var a := ret.msg.a;
        code, text := ret.GetCodeMsg(heap);
        assert heap.blocks == old(heap.blocks)[a := host.answerText + [0]] - {a};
      }
    } else {
      code, text := ERR_SUCCESS, [];
    }
  }

  /** Forwarding the three lists one after the other is `Sends`. */
  lemma SendsAppend(s: seq<Sent>, peer: seq<byte>, id: seq<byte>, msgs: Msgs)
    ensures s + SendAll(peer, MSG_TO_CONFIG_TARGET, id, msgs.toConfig) + SendAll(peer, MSG_TO_PEER_TARGET, id, msgs.toPeer)
              + SendAll(peer, MSG_TO_UI_TARGET, id, UiPayloads(msgs.toUi)) == s + Sends(peer, id, msgs)
  {
  }

  /** One of `process_return`'s loops: every payload goes to `target`, in
      order; the host's answers are ignored. */
  method SendEach(store: InitStore, host: Host, heap: Heap, peer: seq<byte>, target: seq<byte>, id: seq<byte>, payloads: seq<seq<byte>>)
    requires heap.Valid()
    modifies host, heap
    ensures heap.Valid() && heap.blocks == old(heap.blocks) && host.idRequests == old(host.idRequests)
    ensures host.sent == old(host.sent) + (if store.data.Some? then SendAll(peer, target, id, payloads) else [])
  {
    for i := 0 to |payloads|
      invariant heap.Valid() && heap.blocks == old(heap.blocks) && host.idRequests == old(host.idRequests)
      invariant host.sent == old(host.sent) + (if store.data.Some? then SendAll(peer, target, id, payloads[..i]) else [])
    {
      var _, _ := CallMsgCb(store, host, heap, peer, target, id, payloads[i]);
      SendAllStep(peer, target, id, payloads, i);
    }
    assert payloads[..|payloads|] == payloads;
  }

  /** `process_return`: forward the messages, ignoring what the host
      answers, then turn the handler's code and text into the result. */
  method ProcessReturn(store: InitStore, host: Host, heap: Heap, pluginId: seq<byte>, peer: seq<byte>, ret: HandlerRet)
    returns (pr: PluginReturn)
    requires heap.Valid()
    modifies host, heap
    ensures heap.Valid() && fresh(pr) && pr.Owns(heap) && pr.code == ret.code
    ensures host.sent == old(host.sent) + (if store.data.Some? then Sends(peer, pluginId, ret.msgs) else [])
    ensures host.idRequests == old(host.idRequests)
    ensures ret.code == ERR_SUCCESS ==> heap.blocks == old(heap.blocks)
    ensures ret.code != ERR_SUCCESS ==>
      pr.msg.Addr? && pr.msg.a !in old(heap.blocks) && heap.blocks == old(heap.blocks)[pr.msg.a := ret.msg + [0]]
  {
    var msgs := ret.msgs;
    ghost var sent0 := host.sent;
    SendEach(store, host, heap, peer, MSG_TO_CONFIG_TARGET, pluginId, msgs.toConfig);
    SendEach(store, host, heap, peer, MSG_TO_PEER_TARGET, pluginId, msgs.toPeer);
    SendEach(store, host, heap, peer, MSG_TO_UI_TARGET, pluginId, UiPayloads(msgs.toUi));
    SendsAppend(sent0, peer, pluginId, msgs);
    if ret.code == ERR_SUCCESS {
      pr := new PluginReturn.Success();
    } else {
      pr := new PluginReturn.New(heap, ret.code, ret.msg);
    }
  }

  /** The heap after a block may have been left behind. */
  function Leaked(blocks: map<nat, seq<byte>>, leak: Ptr, content: seq<byte>): map<nat, seq<byte>>
  {
    if leak.Addr? then blocks[leak.a := content] else blocks
  }

  /** `get_local_peer_id`: the host is asked only when init data is stored;
      its buffer is freed when it decodes and left behind when it does not. */
  method GetLocalPeerId(store: InitStore, host: Host, heap: Heap) returns (r: Flow<seq<byte>>, ghost leak: Ptr)
    requires heap.Valid()
    modifies host, heap
    ensures heap.Valid() && r == LocalPeerId(store.data.Some?, host.localId + [0])
    ensures host.sent == old(host.sent) && Grown(old(heap.blocks), heap.blocks)
    ensures host.idRequests == old(host.idRequests) + (if store.data.Some? then 1 else 0)
    ensures leak.Addr? <==> store.data.Some? && !ValidUtf8(CStr(host.localId + [0]))
    ensures leak.Addr? ==> leak.a !in old(heap.blocks)
    ensures heap.blocks == Leaked(old(heap.blocks), leak, host.localId + [0])
  {
    leak := Null;
    if store.data.None? {
      r := Return(HandlerRet(ERR_PLUGIN_MSG_INIT, NO_CALLBACKS_TEXT, NO_MSGS));
      return;
    }
    var idPtr := host.GetId(heap);
    match CStrToString(heap.blocks[idPtr.a]) {
      case Some(id) =>
        heap.Free(idPtr);
        r := Continue(id);
      case None =>
        leak := idPtr;
        r := Return(HandlerRet(ERR_PLUGIN_MSG_GET_LOCAL_PEER_ID, BAD_LOCAL_ID_TEXT, NO_MSGS));
    }
  }

  /** `handle_msg_ui`: the id is checked before the host is asked for the
      local id. */
  method HandleMsgUi(store: InitStore, host: Host, heap: Heap, h: HandlerImpl, d: Desc, args: seq<byte>)
    returns (r: HandlerRet, ghost leak: Ptr)
    requires heap.Valid() && 0 in args
    modifies host, heap
    ensures heap.Valid() && r == UiResult(h, d, store.data.Some?, host.localId + [0], args)
    ensures host.sent == old(host.sent) && Grown(old(heap.blocks), heap.blocks)
    ensures UiDecode(d, args).Return? ==> host.idRequests == old(host.idRequests) && leak == Null
    ensures UiDecode(d, args).Continue? ==>
      host.idRequests == old(host.idRequests) + (if store.data.Some? then 1 else 0)
    ensures leak.Addr? <==> UiDecode(d, args).Continue? && store.data.Some? && !ValidUtf8(CStr(host.localId + [0]))
    ensures leak.Addr? ==> leak.a !in old(heap.blocks)
    ensures heap.blocks == Leaked(old(heap.blocks), leak, host.localId + [0])
  {
    leak := Null;
    var msgUi;
    match UiDecode(d, args) {
      case Return(ret) => return ret, leak;
      case Continue(m) => msgUi := m;
    }
    var id, local;
    local, leak := GetLocalPeerId(store, host, heap);
    match local {
      case Return(ret) => return ret, leak;
      case Continue(v) => id := v;
    }
    r := h.ui(d, id, msgUi);
  }

  /** `handle_msg_listen`, for a call from the remote peer `peer`. */
  method HandleMsgListen(store: InitStore, host: Host, heap: Heap, h: HandlerImpl, d: Desc, peer: seq<byte>, args: seq<byte>)
    returns (r: HandlerRet, ghost leak: Ptr)
    requires heap.Valid() && 0 in args
    modifies host, heap
    ensures heap.Valid() && r == ListenResult(h, d, store.data.Some?, host.localId + [0], peer, args)
    ensures host.sent == old(host.sent) && Grown(old(heap.blocks), heap.blocks)
    ensures MsgListenEventFromCStr(args).None? ==> host.idRequests == old(host.idRequests) && leak == Null
    ensures MsgListenEventFromCStr(args).Some? ==>
      host.idRequests == old(host.idRequests) + (if store.data.Some? then 1 else 0)
    ensures leak.Addr? <==>
      MsgListenEventFromCStr(args).Some? && store.data.Some? && !ValidUtf8(CStr(host.localId + [0]))
    ensures leak.Addr? ==> leak.a !in old(heap.blocks)
    ensures heap.blocks == Leaked(old(heap.blocks), leak, host.localId + [0])
  {
    leak := Null;
    var event;
    match EarlyReturnValue(MsgListenEventFromCStr(args), ERR_CALL_INVALID_ARGS, Ascii("parse args")) {
      case Return(ret) => return ret, leak;
      case Continue(e) => event := e;
    }
    var id, local;
    local, leak := GetLocalPeerId(store, host, heap);
    match local {
      case Return(ret) => return ret, leak;
      case Continue(v) => id := v;
    }
    r := h.listen(d, id, peer, event, store.data.Some?);
  }

  function OutFrame(out: Option<OutSlot>): set<object>
  {
    if out.Some? then {out.value} else {}
  }

  /** `handle_msg_peer`: the client-event handler when `out` is given, else
      the server-event handler, which touches nothing. What the client-event
      handler writes through `out` lands in a fresh block. */
  method HandleMsgPeer(heap: Heap, h: HandlerImpl, d: Desc, args: seq<byte>, out: Option<OutSlot>) returns (r: HandlerRet)
    requires heap.Valid() && 0 in args
    modifies heap, OutFrame(out)
    ensures heap.Valid() && Grown(old(heap.blocks), heap.blocks)
    ensures out.None? ==> r == h.server(d, args) && heap.blocks == old(heap.blocks)
    ensures out.Some? ==> r == h.client(d, args).ret
    ensures out.Some? && h.client(d, args).out.None? ==>
      heap.blocks == old(heap.blocks) && out.value.buf == old(out.value.buf) && out.value.len == old(out.value.len)
    ensures out.Some? && h.client(d, args).out.Some? ==>
      out.value.buf.Addr? && out.value.buf.a !in old(heap.blocks) &&
      heap.blocks == old(heap.blocks)[out.value.buf.a := h.client(d, args).out.value] &&
      out.value.len == |h.client(d, args).out.value|
  {
    if out.Some? {
      var c := h.client(d, args);
      r := c.ret;
      if c.out.Some? {
        var p := heap.Malloc(c.out.value);
        out.value.buf := p;
        out.value.len := |c.out.value|;
      }
    } else {
      r := h.server(d, args);
    }
  }

  // ---------------------------------------------------------------------------
  // plugin_call

  /** What a call writes through `out`: the answer of a client event, and
      nothing for any other route. */
  function OutWrite(h: HandlerImpl, d: Desc, m: seq<byte>, args: seq<byte>): Option<seq<byte>>
    requires 0 in m && (ReadsArgs(m) ==> 0 in args)
  {
    if RouteOf(m) == PeerRoute then h.client(d, args).out else None
  }

  /** Whether a call (with init data stored) asks the host for the local
      id: the UI and listen routes do, once their argument is accepted. */
  predicate AsksLocalId(d: Desc, m: seq<byte>, args: seq<byte>)
    requires 0 in m && (ReadsArgs(m) ==> 0 in args)
  {
    (RouteOf(m) == UiRoute && UiDecode(d, args).Continue?) ||
    (RouteOf(m) == ListenRoute && MsgListenEventFromCStr(args).Some?)
  }

  /** Whether such a call leaves the host's id block behind: it does when it
      asks for the id and the id is not UTF-8, since only a good id is freed. */
  predicate LeaksLocalId(d: Desc, m: seq<byte>, args: seq<byte>, idBuf: seq<byte>)
    requires 0 in m && (ReadsArgs(m) ==> 0 in args) && 0 in idBuf
  {
    !ValidUtf8(CStr(idBuf)) && AsksLocalId(d, m, args)
  }

  /** The routing step of `plugin_call`, once the checks have passed. The
      new heap is the old one plus the answer written through `out`, or plus
      the leaked id block, and nothing else. */
  method Dispatch(store: InitStore, host: Host, heap: Heap, h: HandlerImpl, d: Desc, m: seq<byte>, peer: seq<byte>, args: seq<byte>, out: Option<OutSlot>)
    returns (r: HandlerRet, ghost leak: Ptr)
    requires store.Valid(heap) && store.data.Some?
    requires 0 in m && (ReadsArgs(m) ==> 0 in args)
    modifies host, heap, OutFrame(out)
    ensures store.Valid(heap) && host.sent == old(host.sent)
    ensures host.idRequests == old(host.idRequests) + (if AsksLocalId(d, m, args) then 1 else 0)
    ensures r == HandlerResult(h, d, true, host.localId + [0], peer, m, args, out.Some?)
    ensures leak.Addr? <==> LeaksLocalId(d, m, args, host.localId + [0])
    ensures leak.Addr? ==> leak.a !in old(heap.blocks)
    ensures !(out.Some? && OutWrite(h, d, m, args).Some?) ==>
      heap.blocks == Leaked(old(heap.blocks), leak, host.localId + [0])
    ensures out.Some? && OutWrite(h, d, m, args).None? ==>
      out.value.buf == old(out.value.buf) && out.value.len == old(out.value.len)
    ensures out.Some? && OutWrite(h, d, m, args).Some? ==>
      leak == Null && out.value.buf.Addr? && out.value.buf.a !in old(heap.blocks) &&
      heap.blocks == old(heap.blocks)[out.value.buf.a := OutWrite(h, d, m, args).value] &&
      out.value.len == |OutWrite(h, d, m, args).value|
  {
    leak := Null;
    if IsMethod(m, METHOD_HANDLE_UI) {
      r, leak := HandleMsgUi(store, host, heap, h, d, args);
    } else if IsMethod(m, METHOD_HANDLE_PEER) {
      r := HandleMsgPeer(heap, h, d, args, out);
    } else if IsMethod(m, METHOD_HANDLE_LISTEN_EVENT) {
      r, leak := HandleMsgListen(store, host, heap, h, d, peer, args);
    } else {
      r := UnsupportedRet(m);
    }
  }

  /** What a call that passed the checks leaves behind: the result carries
      the handler's code (and, on failure, its text in a fresh block), the
      handler's messages went to the host in order, and the heap is the old
      one plus exactly the answer written through `out`, the leaked id block
      (`leak`) and the failure text. */
  twostate predicate Handled(host: Host, heap: Heap, h: HandlerImpl, d: Desc, m: seq<byte>, peer: seq<byte>,
                             args: seq<byte>, out: Option<OutSlot>, leak: Ptr, new pr: PluginReturn)
    requires 0 in m && (ReadsArgs(m) ==> 0 in args)
    reads host, heap, pr, OutFrame(out)
  {
    var hr := HandlerResult(h, d, true, host.localId + [0], peer, m, args, out.Some?);
    var written := OutWrite(h, d, m, args);
    var base := if out.Some? && written.Some? && out.value.buf.Addr? then old(heap.blocks)[out.value.buf.a := written.value]
                else Leaked(old(heap.blocks), leak, host.localId + [0]);
    pr.code == hr.code &&
    host.sent == old(host.sent) + Sends(peer, d.id, hr.msgs) &&
    host.idRequests == old(host.idRequests) + (if AsksLocalId(d, m, args) then 1 else 0) &&
    (leak.Addr? <==> LeaksLocalId(d, m, args, host.localId + [0])) &&
    (leak.Addr? ==> leak.a !in old(heap.blocks)) &&
    (hr.code == ERR_SUCCESS ==> heap.blocks == base) &&
    (hr.code != ERR_SUCCESS ==>
      pr.msg.Addr? && pr.msg.a !in base && heap.blocks == base[pr.msg.a := hr.msg + [0]]) &&
    (out.Some? && written.None? ==> out.value.buf == old(out.value.buf) && out.value.len == old(out.value.len)) &&
    (out.Some? && written.Some? ==>
      out.value.buf.Addr? && out.value.buf.a !in old(heap.blocks) && out.value.buf.a in heap.blocks &&
      heap.blocks[out.value.buf.a] == written.value && out.value.len == |written.value|)
  }

  /** The rest of `plugin_call` once the checks have passed: route, then
      forward the handler's messages and build the result. */
  method Handle(store: InitStore, host: Host, heap: Heap, h: HandlerImpl, d: Desc, m: seq<byte>, peer: seq<byte>, args: seq<byte>, out: Option<OutSlot>)
    returns (pr: PluginReturn, ghost leak: Ptr)
    requires store.Valid(heap) && store.data.Some?
    requires 0 in m && (ReadsArgs(m) ==> 0 in args)
    modifies host, heap, OutFrame(out)
    ensures store.Valid(heap) && fresh(pr) && pr.Owns(heap)
    ensures Handled(host, heap, h, d, m, peer, args, out, leak, pr)
  {
    var ret;
    ret, leak := Dispatch(store, host, heap, h, d, m, peer, args, out);
    pr := ProcessReturn(store, host, heap, d.id, peer, ret);
  }

  /** `plugin_call`. A failed check returns at once: no handler runs, the
      host is neither asked nor sent anything, `out` is untouched. Once the
      checks pass, the handler's result decides the return value and its
      messages go to the host in order. */
  method PluginCall(st: Statics, host: Host, heap: Heap, methodPtr: Option<seq<byte>>, peer: seq<byte>, args: seq<byte>, out: Option<OutSlot>)
    returns (pr: PluginReturn, ghost leak: Ptr)
    requires st.store.Valid(heap)
    requires st.store.data.Some? && st.handlers.handler.Some? && st.descs.desc.Some? && methodPtr.Some? ==> 0 in peer
    requires methodPtr.Some? ==> 0 in methodPtr.value
    requires methodPtr.Some? && ReadsArgs(methodPtr.value) ==> 0 in args
    modifies host, heap, OutFrame(out)
    ensures st.store.Valid(heap) && fresh(pr) && pr.Owns(heap)
    ensures var g := old(Guard(st.store.data.Some?, st.handlers.handler.Some?, st.descs.desc.Some?, methodPtr, peer));
      g.Fail? ==>
        pr.code == g.code && pr.msg.Addr? && pr.msg.a !in old(heap.blocks) &&
        heap.blocks == old(heap.blocks)[pr.msg.a := g.msg + [0]] &&
        host.sent == old(host.sent) && host.idRequests == old(host.idRequests) &&
        (out.Some? ==> out.value.buf == old(out.value.buf) && out.value.len == old(out.value.len))
    ensures var g := old(Guard(st.store.data.Some?, st.handlers.handler.Some?, st.descs.desc.Some?, methodPtr, peer));
      g.Pass? ==> Handled(host, heap, old(st.handlers.handler.value), old(st.descs.desc.value), methodPtr.value, g.peer, args, out, leak, pr)
  {
    leak := Null;
    var g := Guard(st.store.data.Some?, st.handlers.handler.Some?, st.descs.desc.Some?, methodPtr, peer);
    if g.Fail? {
      assert g.code != ERR_SUCCESS;
      pr := new PluginReturn.New(heap, g.code, g.msg);
      return;
    }
    pr, leak := Handle(st.store, host, heap, st.handlers.handler.value, st.descs.desc.value, methodPtr.value, g.peer, args, out);
  }
}
