/** The template plugin's handler: a checkbox in the remote toolbar turns an
    option on or off on the peer, and the peer's answer is reflected in the
    per-peer config and a message box; a checkbox in the host's settings
    writes a shared config item. */
module TemplateCall {
  import opened Bytes
  import opened Wrappers
  import opened Json
  import opened Memory
  import opened Errno
  import opened DescBase
  import opened Handler
  import opened TemplateDesc

  const MSG_PEER_METHOD_TURN_ON: seq<byte> := Ascii("on")
  const MSG_PEER_METHOD_TURN_OFF: seq<byte> := Ascii("off")
  const MSG_PEER_METHOD_NOTIFY_TURN_ON: seq<byte> := Ascii("notify_on")
  const MSG_PEER_METHOD_NOTIFY_TURN_OFF: seq<byte> := Ascii("notify_off")

  /** The texts the handler answers with, word for word. */
  const MSGBOX_TYPE: seq<byte> := Ascii("custom-nocancel")
  const MSGBOX_TITLE: seq<byte> := Ascii("Plugin title")
  const ID_MISMATCH_TEXT: seq<byte> := Ascii("Id mismatch ")
  const BAD_CONTENT_TEXT: seq<byte> := Ascii("parse msg content ")
  const INVALID_METHOD_TEXT: seq<byte> := Ascii("Invalid method ")
  const TURN_ON_FAILED_TEXT: seq<byte> := Ascii("Failed to turn on ")
  const TURN_OFF_FAILED_TEXT: seq<byte> := Ascii("Failed to turn off ")
  const TURN_ON_FAILED_BOX: seq<byte> := Ascii("Failed to turn on")
  const TURN_OFF_FAILED_BOX: seq<byte> := Ascii("Failed to turn off")
  const INVALID_EVENT_TEXT: seq<byte> := Ascii("Invalid event ")
  const EVENT_UNINITIALIZED_TEXT: seq<byte> := Ascii("Plugin is not initialized")

  // ---------------------------------------------------------------------------
  // The content of an on/off request

  datatype PluginPeerMsg = PluginPeerMsg(f1: seq<byte>)

  const PLUGIN_PEER_MSG_KEYS: seq<seq<byte>> := [Ascii("f1")]

  /** `PluginPeerMsg::new_string`. */
  function PluginPeerMsgNewString(f1: seq<byte>): seq<byte>
  {
    Serialize(Obj(StrRecord(PLUGIN_PEER_MSG_KEYS, [f1])))
  }

  /** `serde_json::from_str::<PluginPeerMsg>`. */
  function ParsePluginPeerMsg(text: seq<byte>): Option<PluginPeerMsg>
  {
    var ps :- ParseFlat(text);
    var f :- ReadFields(ps, PLUGIN_PEER_MSG_KEYS);
    Some(PluginPeerMsg(f[0]))
  }

  /** The peer reads the request content back as written, and the content is
      a Rust string without NUL whenever the id in it is valid UTF-8. */
  lemma PluginPeerMsgRoundTrip(f1: seq<byte>)
    ensures ParsePluginPeerMsg(PluginPeerMsgNewString(f1)) == Some(PluginPeerMsg(f1))
    ensures ValidUtf8(f1) ==> Clean(PluginPeerMsgNewString(f1))
  {
    ReadFieldsOfRecord(PLUGIN_PEER_MSG_KEYS, [f1]);
    if ValidUtf8(f1) {
      RecordClean(PLUGIN_PEER_MSG_KEYS, [f1]);
    }
  }

  // ---------------------------------------------------------------------------
  // Helpers

  predicate IsToggle(value: seq<byte>)
  {
    value == CONFIG_VALUE_TRUE || value == CONFIG_VALUE_FALSE
  }

  /** `make_msg_to_config`: the per-peer option, shown in the remote toolbar.
      The id is the descriptor's (see README). */
  function MakeMsgToConfig(id: seq<byte>, v: seq<byte>): seq<byte>
  {
    MsgToConfigNewString(id, CONFIG_TYPE_PEER, UI_CLIENT_REMOTE_KEY, v,
                         Some(ConfigToUi(MSG_TO_UI_FLUTTER_CHANNEL_REMOTE, UI_CLIENT_REMOTE_LOCATION)))
  }

  /** `make_msg_to_msgbox`. */
  function MakeMsgToMsgbox(msg: seq<byte>): MsgToUi
  {
    MsgBox(MsgToUiMsgBox(MSGBOX_TYPE, MSGBOX_TITLE, msg, []))
  }

  /** The answer a peer sends back for a request. */
  function Notify(methodName: seq<byte>): seq<byte>
  {
    if methodName == MSG_PEER_METHOD_TURN_ON then MSG_PEER_METHOD_NOTIFY_TURN_ON else MSG_PEER_METHOD_NOTIFY_TURN_OFF
  }

  lemma TogglesDistinct()
    ensures CONFIG_VALUE_TRUE != CONFIG_VALUE_FALSE
    ensures MSG_PEER_METHOD_TURN_ON != MSG_PEER_METHOD_TURN_OFF
    ensures MSG_PEER_METHOD_NOTIFY_TURN_ON != MSG_PEER_METHOD_NOTIFY_TURN_OFF
    ensures EVENT_ON_CONN_CLIENT != EVENT_ON_CONN_CLOSE_SERVER
  {
    assert CONFIG_VALUE_TRUE[0] != CONFIG_VALUE_FALSE[0];
    assert |MSG_PEER_METHOD_TURN_ON| != |MSG_PEER_METHOD_TURN_OFF|;
    assert |MSG_PEER_METHOD_NOTIFY_TURN_ON| != |MSG_PEER_METHOD_NOTIFY_TURN_OFF|;
    assert |EVENT_ON_CONN_CLIENT| != |EVENT_ON_CONN_CLOSE_SERVER|;
  }

  // ---------------------------------------------------------------------------
  // UI events

  /** `handle_ui_event`: only a toggle of one of the two checkboxes succeeds;
      anything else leaves the default result. */
  function HandleUiEvent(d: Desc, localPeerId: seq<byte>, m: MsgFromUi): (r: HandlerRet)
    ensures r.code == ERR_SUCCESS <==>
      IsToggle(m.value) &&
      ((m.location == UI_CLIENT_REMOTE_LOCATION && m.key == UI_CLIENT_REMOTE_KEY) ||
       (m.location == UI_HOST_MAIN_LOCATION && m.key == UI_HOST_MAIN_KEY))
    ensures r.code != ERR_SUCCESS ==> r == DEFAULT_RET
    ensures r.code == ERR_SUCCESS ==> r.msg == [] && r.msgs.toUi == [] && |r.msgs.toConfig| + |r.msgs.toPeer| == 1
  {
    LocationsDistinct();
    if m.location == UI_CLIENT_REMOTE_LOCATION then
      if m.key == UI_CLIENT_REMOTE_KEY && IsToggle(m.value) then
        var turnOnOff := if m.value == CONFIG_VALUE_FALSE then MSG_PEER_METHOD_TURN_OFF else MSG_PEER_METHOD_TURN_ON;
        var content := PluginPeerMsgNewString(localPeerId);
        HandlerRet(ERR_SUCCESS, [], Msgs([], [], [MsgPeerNewString(d, turnOnOff, content)]))
      else DEFAULT_RET
    else if m.location == UI_HOST_MAIN_LOCATION then
      if m.key == UI_HOST_MAIN_KEY && IsToggle(m.value) then
        var config := MsgToConfigNewString(d.id, CONFIG_TYPE_SHARED, UI_HOST_MAIN_KEY, m.value,
                                           Some(ConfigToUi(MSG_TO_UI_FLUTTER_CHANNEL_MAIN, UI_HOST_MAIN_LOCATION)));
        HandlerRet(ERR_SUCCESS, [], Msgs([], [config], []))
      else DEFAULT_RET
    else DEFAULT_RET
  }

  /** Toggling the remote-toolbar checkbox sends the peer one request, "on"
      for "1" and "off" for "0", carrying this side's id; the peer decodes it
      as exactly that. */
  lemma UiEventTogglesPeer(d: Desc, localPeerId: seq<byte>, m: MsgFromUi)
    requires m.location == UI_CLIENT_REMOTE_LOCATION && m.key == UI_CLIENT_REMOTE_KEY && IsToggle(m.value)
    requires ValidUtf8(d.id) && ValidUtf8(d.name) && ValidUtf8(localPeerId)
    ensures var r := HandleUiEvent(d, localPeerId, m);
      r.code == ERR_SUCCESS && r.msgs.toConfig == [] && |r.msgs.toPeer| == 1 &&
      0 in r.msgs.toPeer[0] &&
      MsgPeerFromCStr(r.msgs.toPeer[0]) ==
        Some(MsgPeer(d.id, d.name, if m.value == CONFIG_VALUE_TRUE then MSG_PEER_METHOD_TURN_ON else MSG_PEER_METHOD_TURN_OFF,
                     PluginPeerMsgNewString(localPeerId))) &&
      ParsePluginPeerMsg(PluginPeerMsgNewString(localPeerId)) == Some(PluginPeerMsg(localPeerId))
  {
    TogglesDistinct();
    PluginPeerMsgRoundTrip(localPeerId);
    var turnOnOff := if m.value == CONFIG_VALUE_FALSE then MSG_PEER_METHOD_TURN_OFF else MSG_PEER_METHOD_TURN_ON;
    AsciiValidUtf8(turnOnOff);
    MsgPeerRoundTrip(d, turnOnOff, PluginPeerMsgNewString(localPeerId));
  }

  /** Toggling the host-settings checkbox writes the shared option with the
      value given and asks the main window to show it. */
  lemma UiEventWritesShared(d: Desc, localPeerId: seq<byte>, m: MsgFromUi)
    requires m.location == UI_HOST_MAIN_LOCATION && m.key == UI_HOST_MAIN_KEY && IsToggle(m.value)
    ensures var r := HandleUiEvent(d, localPeerId, m);
      r.code == ERR_SUCCESS && r.msgs.toPeer == [] &&
      r.msgs.toConfig == [MsgToConfigNewString(d.id, CONFIG_TYPE_SHARED, UI_HOST_MAIN_KEY, m.value,
                                               Some(ConfigToUi(MSG_TO_UI_FLUTTER_CHANNEL_MAIN, UI_HOST_MAIN_LOCATION)))]
  {
    LocationsDistinct();
  }

  // ---------------------------------------------------------------------------
  // Peer events: the side that receives a request

  /** The outcome of `handle_client_event`: the envelope is decoded and its
      id checked first; then "on"/"off" with a readable content succeed and
      answer with an empty `notify_on`/`notify_off`. */
  function ClientEvent(d: Desc, args: seq<byte>): (c: ClientOutcome)
    requires 0 in args
    ensures c.out.Some? <==> c.ret.code == ERR_SUCCESS
    ensures c.ret.msgs == NO_MSGS
  {
    match EarlyReturnValue(MsgPeerFromCStr(args), ERR_CALL_INVALID_ARGS, Ascii("parse args"))
    case Return(ret) => ClientOutcome(ret, None)
    case Continue(msgPeer) =>
      match EarlyReturnIfTrue(msgPeer.id != d.id, ERR_PEER_ID_MISMATCH, ID_MISMATCH_TEXT + msgPeer.id)
      case Return(ret) => ClientOutcome(ret, None)
      case Continue(_) =>
        if msgPeer.methodName == MSG_PEER_METHOD_TURN_ON || msgPeer.methodName == MSG_PEER_METHOD_TURN_OFF then
          match EarlyReturnValue(ParsePluginPeerMsg(msgPeer.content), ERR_CALL_INVALID_ARGS,
                                 BAD_CONTENT_TEXT + msgPeer.content)
          case Return(ret) => ClientOutcome(ret, None)
          case Continue(_) =>
            ClientOutcome(HandlerRet(ERR_SUCCESS, [], NO_MSGS), Some(MsgPeerNewString(d, Notify(msgPeer.methodName), [])))
        else
          ClientOutcome(HandlerRet(ERR_CALL_INVALID_ARGS, INVALID_METHOD_TEXT + msgPeer.methodName, NO_MSGS), None)
  }

  /** `handle_client_event`: `*out` is written only on success, with the
      answer envelope. */
  method HandleClientEvent(heap: Heap, d: Desc, args: seq<byte>, out: OutSlot) returns (r: HandlerRet)
    requires heap.Valid() && 0 in args
    modifies heap, out
    ensures heap.Valid() && r == ClientEvent(d, args).ret
    ensures ClientEvent(d, args).out.None? ==>
      heap.blocks == old(heap.blocks) && out.buf == old(out.buf) && out.len == old(out.len)
    ensures ClientEvent(d, args).out.Some? ==>
      out.buf.Addr? && out.buf.a !in old(heap.blocks) &&
      heap.blocks == old(heap.blocks)[out.buf.a := ClientEvent(d, args).out.value] &&
      out.len == |ClientEvent(d, args).out.value|
  {
    var msgPeer;
    match EarlyReturnValue(MsgPeerFromCStr(args), ERR_CALL_INVALID_ARGS, Ascii("parse args")) {
      case Return(ret) => return ret;
      case Continue(v) => msgPeer := v;
    }
    match EarlyReturnIfTrue(msgPeer.id != d.id, ERR_PEER_ID_MISMATCH, ID_MISMATCH_TEXT + msgPeer.id) {
      case Return(ret) => return ret;
      case Continue(_) =>
    }
    r := DEFAULT_RET;
    if msgPeer.methodName == MSG_PEER_METHOD_TURN_ON || msgPeer.methodName == MSG_PEER_METHOD_TURN_OFF {
      match EarlyReturnValue(ParsePluginPeerMsg(msgPeer.content), ERR_CALL_INVALID_ARGS,
                             BAD_CONTENT_TEXT + msgPeer.content) {
        case Return(ret) => return ret;
        case Continue(_) =>
      }
      r := r.(code := ERR_SUCCESS, msg := []);
      FillOut(heap, d, Notify(msgPeer.methodName), r.msg, out);
    } else {
      r := r.(code := ERR_CALL_INVALID_ARGS, msg := INVALID_METHOD_TEXT + msgPeer.methodName);
    }
  }

  // ---------------------------------------------------------------------------
  // Peer events: the side that sent the request reads the answer

  /** `handle_server_event`: an empty `notify_on`/`notify_off` is a success
      and sets the per-peer option to on/off; a non-empty one is a failure
      that sets it to the opposite value. Either way a message box says so. */
  function HandleServerEvent(d: Desc, args: seq<byte>): (r: HandlerRet)
    requires 0 in args
    ensures r.msgs.toPeer == []
    ensures r.code == ERR_SUCCESS ==> r.msg == Ascii("success")
    ensures r.code == ERR_SUCCESS || r.code == ERR_PEER_ON_FAILED ==> |r.msgs.toConfig| == 1 && |r.msgs.toUi| == 1
    ensures r.code != ERR_SUCCESS && r.code != ERR_PEER_ON_FAILED ==> r.msgs == NO_MSGS
  {
    match EarlyReturnValue(MsgPeerFromCStr(args), ERR_CALL_INVALID_ARGS, Ascii("parse args"))
    case Return(ret) => ret
    case Continue(msgPeer) =>
      match EarlyReturnIfTrue(msgPeer.id != d.id, ERR_PEER_ID_MISMATCH, ID_MISMATCH_TEXT + msgPeer.id)
      case Return(ret) => ret
      case Continue(_) =>
        if msgPeer.methodName == MSG_PEER_METHOD_NOTIFY_TURN_ON then
          if msgPeer.content == [] then
            HandlerRet(ERR_SUCCESS, Ascii("success"),
                       Msgs([MakeMsgToMsgbox(Ascii("on"))], [MakeMsgToConfig(d.id, CONFIG_VALUE_TRUE)], []))
          else
            HandlerRet(ERR_PEER_ON_FAILED, TURN_ON_FAILED_TEXT + msgPeer.content,
                       Msgs([MakeMsgToMsgbox(TURN_ON_FAILED_BOX)], [MakeMsgToConfig(d.id, CONFIG_VALUE_FALSE)], []))
        else if msgPeer.methodName == MSG_PEER_METHOD_NOTIFY_TURN_OFF then
          if msgPeer.content == [] then
            HandlerRet(ERR_SUCCESS, Ascii("success"),
                       Msgs([MakeMsgToMsgbox(Ascii("off"))], [MakeMsgToConfig(d.id, CONFIG_VALUE_FALSE)], []))
          else
            HandlerRet(ERR_PEER_OFF_FAILED, TURN_OFF_FAILED_TEXT + msgPeer.content,
                       Msgs([MakeMsgToMsgbox(TURN_OFF_FAILED_BOX)], [MakeMsgToConfig(d.id, CONFIG_VALUE_TRUE)], []))
        else
          HandlerRet(ERR_CALL_INVALID_ARGS, INVALID_METHOD_TEXT + msgPeer.methodName, NO_MSGS)
  }

  /** Both peer handlers reject an unreadable envelope, then a foreign id,
      before they look at the method. */
  lemma PeerEventChecksFirst(d: Desc, args: seq<byte>)
    requires 0 in args
    ensures MsgPeerFromCStr(args).None? ==>
      ClientEvent(d, args) == ClientOutcome(HandleServerEvent(d, args), None) &&
      HandleServerEvent(d, args).code == ERR_CALL_INVALID_ARGS && HandleServerEvent(d, args).msgs == NO_MSGS
    ensures MsgPeerFromCStr(args).Some? && MsgPeerFromCStr(args).value.id != d.id ==>
      ClientEvent(d, args) == ClientOutcome(HandleServerEvent(d, args), None) &&
      HandleServerEvent(d, args) == HandlerRet(ERR_PEER_ID_MISMATCH, ID_MISMATCH_TEXT + MsgPeerFromCStr(args).value.id, NO_MSGS)
  {
  }

  /** The answer a peer reads: success iff the content is empty, the per-peer
      option set to the requested value on success and to the other one on
      failure. */
  lemma ServerEventReadsAnswer(d: Desc, on: bool, content: seq<byte>)
    requires ValidUtf8(d.id) && ValidUtf8(d.name) && ValidUtf8(content)
    ensures var methodName := if on then MSG_PEER_METHOD_NOTIFY_TURN_ON else MSG_PEER_METHOD_NOTIFY_TURN_OFF;
      0 in MsgPeerNewString(d, methodName, content) &&
      var r := HandleServerEvent(d, MsgPeerNewString(d, methodName, content));
      var requested := if on then CONFIG_VALUE_TRUE else CONFIG_VALUE_FALSE;
      var other := if on then CONFIG_VALUE_FALSE else CONFIG_VALUE_TRUE;
      (r.code == ERR_SUCCESS <==> content == []) &&
      (content == [] ==> r.msgs == Msgs([MakeMsgToMsgbox(if on then Ascii("on") else Ascii("off"))], [MakeMsgToConfig(d.id, requested)], [])) &&
      (content != [] ==>
        r.code == (if on then ERR_PEER_ON_FAILED else ERR_PEER_OFF_FAILED) &&
        r.msg == (if on then TURN_ON_FAILED_TEXT else TURN_OFF_FAILED_TEXT) + content &&
        r.msgs == Msgs([MakeMsgToMsgbox(if on then TURN_ON_FAILED_BOX else TURN_OFF_FAILED_BOX)], [MakeMsgToConfig(d.id, other)], []))
  {
    TogglesDistinct();
    var methodName := if on then MSG_PEER_METHOD_NOTIFY_TURN_ON else MSG_PEER_METHOD_NOTIFY_TURN_OFF;
    AsciiValidUtf8(methodName);
    MsgPeerRoundTrip(d, methodName, content);
    var args := MsgPeerNewString(d, methodName, content);
    assert MsgPeerFromCStr(args) == Some(MsgPeer(d.id, d.name, methodName, content));
  }

  /** An `on`/`off` request for this plugin whose content the peer cannot
      read is rejected as invalid, and nothing is written through `out`. */
  lemma ClientEventRejects(d: Desc, args: seq<byte>)
    requires 0 in args && MsgPeerFromCStr(args).Some? && MsgPeerFromCStr(args).value.id == d.id
    requires MsgPeerFromCStr(args).value.methodName in {MSG_PEER_METHOD_TURN_ON, MSG_PEER_METHOD_TURN_OFF}
    requires ParsePluginPeerMsg(MsgPeerFromCStr(args).value.content).None?
    ensures var c := ClientEvent(d, args);
      c.out == None && c.ret.code == ERR_CALL_INVALID_ARGS && c.ret.msgs == NO_MSGS &&
      Ascii("Failed to ") + BAD_CONTENT_TEXT + MsgPeerFromCStr(args).value.content <= c.ret.msg
  {
  }

  /** A method neither peer handler knows is rejected as invalid, naming the
      method, with no messages and nothing written through `out`. */
  lemma PeerEventUnknownMethod(d: Desc, args: seq<byte>)
    requires 0 in args && MsgPeerFromCStr(args).Some? && MsgPeerFromCStr(args).value.id == d.id
    ensures var name := MsgPeerFromCStr(args).value.methodName;
      name != MSG_PEER_METHOD_TURN_ON && name != MSG_PEER_METHOD_TURN_OFF ==>
        ClientEvent(d, args) == ClientOutcome(HandlerRet(ERR_CALL_INVALID_ARGS, INVALID_METHOD_TEXT + name, NO_MSGS), None)
    ensures var name := MsgPeerFromCStr(args).value.methodName;
      name != MSG_PEER_METHOD_NOTIFY_TURN_ON && name != MSG_PEER_METHOD_NOTIFY_TURN_OFF ==>
        HandleServerEvent(d, args) == HandlerRet(ERR_CALL_INVALID_ARGS, INVALID_METHOD_TEXT + name, NO_MSGS)
  {
  }

  /** A request the peer can read, addressed to this plugin, is accepted and
      answered with an empty `notify_on`/`notify_off`. */
  lemma ClientEventAccepts(d: Desc, args: seq<byte>, on: bool, content: seq<byte>)
    requires 0 in args && ParsePluginPeerMsg(content).Some?
    requires MsgPeerFromCStr(args) ==
      Some(MsgPeer(d.id, d.name, if on then MSG_PEER_METHOD_TURN_ON else MSG_PEER_METHOD_TURN_OFF, content))
    ensures ClientEvent(d, args) ==
      ClientOutcome(HandlerRet(ERR_SUCCESS, [], NO_MSGS),
                    Some(MsgPeerNewString(d, if on then MSG_PEER_METHOD_NOTIFY_TURN_ON else MSG_PEER_METHOD_NOTIFY_TURN_OFF, [])))
  {
    TogglesDistinct();
  }

  /** A request sent from the remote toolbar is accepted by the peer, whose
      answer, read back on this side, sets the option to the requested value. */
  lemma ToggleRoundTrip(d: Desc, localPeerId: seq<byte>, m: MsgFromUi)
    requires m.location == UI_CLIENT_REMOTE_LOCATION && m.key == UI_CLIENT_REMOTE_KEY && IsToggle(m.value)
    requires ValidUtf8(d.id) && ValidUtf8(d.name) && ValidUtf8(localPeerId)
    ensures var request := HandleUiEvent(d, localPeerId, m).msgs.toPeer;
      |request| == 1 && 0 in request[0] &&
      var answer := ClientEvent(d, request[0]);
      answer.ret.code == ERR_SUCCESS && answer.out.Some? && 0 in answer.out.value &&
      HandleServerEvent(d, answer.out.value).code == ERR_SUCCESS &&
      HandleServerEvent(d, answer.out.value).msgs.toConfig == [MakeMsgToConfig(d.id, m.value)]
  {
    UiEventTogglesPeer(d, localPeerId, m);
    TogglesDistinct();
    var on := m.value == CONFIG_VALUE_TRUE;
    var request := HandleUiEvent(d, localPeerId, m).msgs.toPeer[0];
    ClientEventAccepts(d, request, on, PluginPeerMsgNewString(localPeerId));
    assert ValidUtf8([]);
    ServerEventReadsAnswer(d, on, []);
  }

  // ---------------------------------------------------------------------------
  // Listen events

  /** `handle_listen_event`; `initialized` is whether the init-data slot
      holds data when the handler looks. No event ever succeeds: the known
      ones keep the default result. */
  function HandleListenEvent(initialized: bool, event: MsgListenEvent): (r: HandlerRet)
    ensures r.code != ERR_SUCCESS && r.msgs == NO_MSGS
    ensures r.code == ERR_PLUGIN_MSG_INIT <==> event.event == EVENT_ON_CONN_CLIENT && !initialized
    ensures (event.event == EVENT_ON_CONN_CLIENT && initialized) || event.event == EVENT_ON_CONN_CLOSE_SERVER ==>
      r == DEFAULT_RET
    ensures event.event != EVENT_ON_CONN_CLIENT && event.event != EVENT_ON_CONN_CLOSE_SERVER ==>
      r == HandlerRet(ERR_CALL_INVALID_ARGS, INVALID_EVENT_TEXT + event.event, NO_MSGS)
  {
    TogglesDistinct();
    if event.event == EVENT_ON_CONN_CLIENT then
      if initialized then DEFAULT_RET
      else HandlerRet(ERR_PLUGIN_MSG_INIT, EVENT_UNINITIALIZED_TEXT, NO_MSGS)
    else if event.event == EVENT_ON_CONN_CLOSE_SERVER then DEFAULT_RET
    else HandlerRet(ERR_CALL_INVALID_ARGS, INVALID_EVENT_TEXT + event.event, NO_MSGS)
  }

  // ---------------------------------------------------------------------------
  // The registered handler

  /** `HandlerTemplate`, the handler `init` registers, as the framework
      calls it. */
  const TEMPLATE_HANDLER: HandlerImpl := HandlerImpl(
    (d: Desc, localPeerId: seq<byte>, m: MsgFromUi) => HandleUiEvent(d, localPeerId, m),
    (d: Desc, args: CBuf) => ClientEvent(d, args),
    (d: Desc, args: CBuf) => HandleServerEvent(d, args),
    (d: Desc, localPeerId: seq<byte>, remotePeerId: seq<byte>, e: MsgListenEvent, initialized: bool) =>
      HandleListenEvent(initialized, e))
}
