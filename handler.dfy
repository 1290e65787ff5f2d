/** The messages a handler exchanges with the host and with the peer, the
    result every handler returns, and the slot the framework keeps the
    registered handler in. */
module Handler {
  import opened Bytes
  import opened Wrappers
  import opened Json
  import opened Memory
  import opened Errno
  import opened DescBase

  // ---------------------------------------------------------------------------
  // Flutter UI channels

  /** The platform the plugin is built for; `CM` depends on it. */
  datatype Platform = Desktop | Mobile

  const MSG_TO_UI_FLUTTER_CHANNEL_MAIN: u16 := 0x01

  function MsgToUiFlutterChannelCm(p: Platform): u16
  {
    if p == Desktop then 0x02 else 0x01
  }

  const MSG_TO_UI_FLUTTER_CHANNEL_REMOTE: u16 := 0x04
  const MSG_TO_UI_FLUTTER_CHANNEL_TRANSFER: u16 := 0x08
  const MSG_TO_UI_FLUTTER_CHANNEL_FORWARD: u16 := 0x10

  /** The five channels: main, connection manager, remote, transfer, forward. */
  function Channels(p: Platform): seq<u16>
  {
    [MSG_TO_UI_FLUTTER_CHANNEL_MAIN, MsgToUiFlutterChannelCm(p), MSG_TO_UI_FLUTTER_CHANNEL_REMOTE,
     MSG_TO_UI_FLUTTER_CHANNEL_TRANSFER, MSG_TO_UI_FLUTTER_CHANNEL_FORWARD]
  }

  predicate SingleBit(x: nat)
  {
    x == 1 || (x >= 2 && x % 2 == 0 && SingleBit(x / 2))
  }

  /** On desktop the channels are distinct single bits, so they can be or-ed
      into a mask; on Android and iOS the connection manager is the main window. */
  lemma ChannelFlags()
    ensures forall i :: 0 <= i < 5 ==> SingleBit(Channels(Desktop)[i])
    ensures forall i, j :: 0 <= i < j < 5 ==> Channels(Desktop)[i] != Channels(Desktop)[j]
    ensures MsgToUiFlutterChannelCm(Mobile) == MSG_TO_UI_FLUTTER_CHANNEL_MAIN
  {
    assert SingleBit(1) && SingleBit(2) && SingleBit(4) && SingleBit(8) && SingleBit(16);
  }

  // ---------------------------------------------------------------------------
  // Method names, targets, config types

  /** A C string constant: text, then exactly one NUL, at the end. */
  predicate NulTerminated(t: seq<byte>)
  {
    |t| > 0 && t[|t| - 1] == 0 && 0 !in t[..|t| - 1]
  }

  const METHOD_HANDLE_UI: seq<byte> := Ascii("handle_ui") + [0]
  const METHOD_HANDLE_PEER: seq<byte> := Ascii("handle_peer") + [0]
  const METHOD_HANDLE_CONN: seq<byte> := Ascii("handle_conn") + [0]
  /** Used by the dispatcher but defined nowhere in the crate; the model's
      stand-in is the name the host calls, `handle_listen_event`. */
  const METHOD_HANDLE_LISTEN_EVENT: seq<byte> := Ascii("handle_listen_event") + [0]

  const MSG_CONN_ESTABLISHED_CLIENT: seq<byte> := Ascii("established_client")
  const MSG_CONN_ESTABLISHED_SERVER: seq<byte> := Ascii("established_server")
  const MSG_CONN_BEFORE_CLOSE_CLIENT: seq<byte> := Ascii("before_close_client")
  const MSG_CONN_BEFORE_CLOSE_SERVER: seq<byte> := Ascii("before_close_server")

  const MSG_TO_PEER_TARGET: seq<byte> := Ascii("peer") + [0]
  const MSG_TO_UI_TARGET: seq<byte> := Ascii("ui") + [0]
  const MSG_TO_CONFIG_TARGET: seq<byte> := Ascii("config") + [0]

  const CONFIG_TYPE_SHARED: seq<byte> := Ascii("shared")
  const CONFIG_TYPE_PEER: seq<byte> := Ascii("peer")

  /** Listen events: used by the template but defined nowhere in the crate;
      the model's stand-ins are two distinct names. */
  const EVENT_ON_CONN_CLIENT: seq<byte> := Ascii("on_conn_client")
  const EVENT_ON_CONN_CLOSE_SERVER: seq<byte> := Ascii("on_conn_close_server")

  lemma NulTerminatedOf(s: string)
    requires forall i :: 0 <= i < |s| ==> 0 < s[i] as int < 0x80
    ensures NulTerminated(Ascii(s) + [0])
  {
    AsciiNoNul(s);
    assert (Ascii(s) + [0])[..|s|] == Ascii(s);
  }

  /** Every method name and every target tag is a C string. */
  lemma NamesAreCStrings()
    ensures NulTerminated(METHOD_HANDLE_UI) && NulTerminated(METHOD_HANDLE_PEER)
    ensures NulTerminated(METHOD_HANDLE_CONN) && NulTerminated(METHOD_HANDLE_LISTEN_EVENT)
    ensures NulTerminated(MSG_TO_PEER_TARGET) && NulTerminated(MSG_TO_UI_TARGET) && NulTerminated(MSG_TO_CONFIG_TARGET)
  {
    NulTerminatedOf("handle_ui");
    NulTerminatedOf("handle_peer");
    NulTerminatedOf("handle_conn");
    NulTerminatedOf("handle_listen_event");
    NulTerminatedOf("peer");
    NulTerminatedOf("ui");
    NulTerminatedOf("config");
  }

  // ---------------------------------------------------------------------------
  // Handler results

  datatype MsgToUiMsgBox = MsgToUiMsgBox(kind: seq<byte>, title: seq<byte>, text: seq<byte>, link: seq<byte>)

  /** A message for the UI; tagged `t`, content `c`. */
  datatype MsgToUi = MsgBox(box: MsgToUiMsgBox)

  function MsgToUiValue(m: MsgToUi): Value
  {
    Obj([Field(Ascii("t"), Str(Ascii("MsgBox"))),
         Field(Ascii("c"), Obj(StrRecord([Ascii("type"), Ascii("title"), Ascii("text"), Ascii("link")],
                                         [m.box.kind, m.box.title, m.box.text, m.box.link])))])
  }

  datatype ConfigToUi = ConfigToUi(channel: u16, location: seq<byte>)

  datatype MsgToConfig = MsgToConfig(id: seq<byte>, kind: seq<byte>, key: seq<byte>, value: seq<byte>, ui: Option<ConfigToUi>)

  const MSG_TO_CONFIG_KEYS: seq<seq<byte>> := [Ascii("id"), Ascii("type"), Ascii("key"), Ascii("value")]

  /** The JSON of a config message: `ui` is left out when it is `None`. */
  function MsgToConfigValue(m: MsgToConfig): (v: Value)
    ensures v.Obj? && (Ascii("ui") in Keys(v.fields) <==> m.ui.Some?)
  {
    var base := StrRecord(MSG_TO_CONFIG_KEYS, [m.id, m.kind, m.key, m.value]);
    assert Keys(base) == MSG_TO_CONFIG_KEYS;
    match m.ui
    case None =>
      assert Ascii("ui") !in MSG_TO_CONFIG_KEYS by {
        assert forall i :: 0 <= i < 4 ==> Ascii("ui") != MSG_TO_CONFIG_KEYS[i] by {
          assert Ascii("ui")[0] != MSG_TO_CONFIG_KEYS[1][0];
          assert |Ascii("ui")| != |MSG_TO_CONFIG_KEYS[0]| || Ascii("ui")[0] != MSG_TO_CONFIG_KEYS[0][0];
        }
      }
      Obj(base)
    case Some(u) =>
      var ui := Field(Ascii("ui"), Obj([Field(Ascii("channel"), Num(u.channel)), Field(Ascii("location"), Str(u.location))]));
      assert Keys(base + [ui]) == Keys(base) + [Ascii("ui")];
      Obj(base + [ui])
  }

  /** `MsgToConfig::new_string`: the JSON text of the message. */
  function MsgToConfigNewString(id: seq<byte>, kind: seq<byte>, key: seq<byte>, value: seq<byte>, ui: Option<ConfigToUi>): seq<byte>
  {
    Serialize(MsgToConfigValue(MsgToConfig(id, kind, key, value, ui)))
  }

  /** Outgoing messages, by destination. Config and peer messages are
      already JSON text; UI messages are serialized when they are sent. */
  datatype Msgs = Msgs(toUi: seq<MsgToUi>, toConfig: seq<seq<byte>>, toPeer: seq<seq<byte>>)

  const NO_MSGS: Msgs := Msgs([], [], [])

  datatype HandlerRet = HandlerRet(code: int32, msg: seq<byte>, msgs: Msgs)

  /** `HandlerRet::default()`. */
  const DEFAULT_RET: HandlerRet := HandlerRet(ERR_CALL_INVALID_ARGS, Ascii("Default return msg"), NO_MSGS)

  /** What `{:?}` prints for a parse error (see README). */
  const ERROR_DEBUG: seq<byte> := Ascii("Error")

  /** The control flow of the early-return macros: go on with a value, or
      return a result from the enclosing handler. */
  datatype Flow<T> = Continue(value: T) | Return(ret: HandlerRet)

  /** `early_return_value!`: a parsed value goes on; a failure returns `code`
      with `Failed to <what> '<error>'` and no messages. */
  function EarlyReturnValue<T>(r: Option<T>, code: int32, what: seq<byte>): (f: Flow<T>)
    ensures f.Continue? <==> r.Some?
    ensures f.Continue? ==> f.value == r.value
    ensures f.Return? ==> f.ret.code == code && f.ret.msgs == NO_MSGS && Ascii("Failed to ") + what <= f.ret.msg
  {
    match r
    case Some(v) => Continue(v)
    case None => Return(HandlerRet(code, Ascii("Failed to ") + what + Ascii(" '") + ERROR_DEBUG + Ascii("'"), NO_MSGS))
  }

  /** `early_return_if_true!`: used by the crate but defined nowhere in it;
      the model's stand-in behaves like `early_return_value!`, with the
      message as given. */
  function EarlyReturnIfTrue(cond: bool, code: int32, msg: seq<byte>): (f: Flow<()>)
    ensures f.Return? <==> cond
    ensures f.Return? ==> f.ret == HandlerRet(code, msg, NO_MSGS)
  {
    if cond then Return(HandlerRet(code, msg, NO_MSGS)) else Continue(())
  }

  // ---------------------------------------------------------------------------
  // Messages the plugin reads

  /** A string record read from a C string: the text must be UTF-8 and the
      JSON must hold every key exactly once. */
  function ReadRecordFrom(buf: seq<byte>, keys: seq<seq<byte>>): (r: Option<seq<seq<byte>>>)
    requires 0 in buf
    ensures r.Some? ==> |r.value| == |keys|
  {
    var text :- if ValidUtf8(CStr(buf)) then Some(CStr(buf)) else None;
    var ps :- ParseFlat(text);
    ReadFields(ps, keys)
  }

  function ReadFields(ps: Pairs, keys: seq<seq<byte>>): (r: Option<seq<seq<byte>>>)
    ensures r.Some? ==> |r.value| == |keys|
  {
    if keys == [] then Some([])
    else
      match Lookup(ps, keys[0])
      case None => None
      case Some(v) =>
        match ReadFields(ps, keys[1..])
        case None => None
        case Some(vs) => Some([v] + vs)
  }
  /** Reading succeeds exactly when every key is present, and then yields
      each key's value, in the order of the keys. */
  lemma {:induction false} ReadFieldsLookups(ps: Pairs, keys: seq<seq<byte>>)
    ensures ReadFields(ps, keys).Some? <==> forall i :: 0 <= i < |keys| ==> Lookup(ps, keys[i]).Some?
    ensures ReadFields(ps, keys).Some? ==>
      forall i :: 0 <= i < |keys| ==> Lookup(ps, keys[i]) == Some(ReadFields(ps, keys).value[i])
  {
    if keys != [] {
      ReadFieldsLookups(ps, keys[1..]);
      assert forall i :: 1 <= i < |keys| ==> keys[i] == keys[1..][i - 1];
    }
  }


  /** A message from the plugin's own UI. */
  datatype MsgFromUi = MsgFromUi(id: seq<byte>, name: seq<byte>, location: seq<byte>, key: seq<byte>, value: seq<byte>, action: seq<byte>)

  const MSG_FROM_UI_KEYS: seq<seq<byte>> :=
    [Ascii("id"), Ascii("name"), Ascii("location"), Ascii("key"), Ascii("value"), Ascii("action")]

  function MsgFromUiValue(m: MsgFromUi): Value
  {
    Obj(StrRecord(MSG_FROM_UI_KEYS, [m.id, m.name, m.location, m.key, m.value, m.action]))
  }

  /** `serde_json::from_str::<MsgFromUi>` on an already decoded text. */
  function ParseMsgFromUi(text: seq<byte>): Option<MsgFromUi>
  {
    var ps :- ParseFlat(text);
    var f :- ReadFields(ps, MSG_FROM_UI_KEYS);
    Some(MsgFromUi(f[0], f[1], f[2], f[3], f[4], f[5]))
  }

  /** A message between the plugin instances on the two sides of a connection. */
  datatype MsgPeer = MsgPeer(id: seq<byte>, name: seq<byte>, methodName: seq<byte>, content: seq<byte>)

  const MSG_PEER_KEYS: seq<seq<byte>> := [Ascii("id"), Ascii("name"), Ascii("method"), Ascii("content")]

  function MsgPeerValue(m: MsgPeer): Value
  {
    Obj(StrRecord(MSG_PEER_KEYS, [m.id, m.name, m.methodName, m.content]))
  }

  /** `MsgPeer::new_string`: the JSON of the message from this plugin, with
      one NUL appended so that it can travel as a C string. */
  function MsgPeerNewString(d: Desc, methodName: seq<byte>, content: seq<byte>): (s: seq<byte>)
    ensures |s| > 0 && s[|s| - 1] == 0
  {
    Serialize(MsgPeerValue(MsgPeer(d.id, d.name, methodName, content))) + [0]
  }

  /** `MsgPeer::from_c_str`. Reading a null or unterminated pointer is
      undefined behaviour, hence the requires. */
  function MsgPeerFromCStr(buf: seq<byte>): Option<MsgPeer>
    requires 0 in buf
  {
    var f :- ReadRecordFrom(buf, MSG_PEER_KEYS);
    Some(MsgPeer(f[0], f[1], f[2], f[3]))
  }

  /** The argument of a listen event. The type is used by the crate but
      defined nowhere in it; the model's stand-in is a record with one string
      field `event`. */
  datatype MsgListenEvent = MsgListenEvent(event: seq<byte>)

  const MSG_LISTEN_EVENT_KEYS: seq<seq<byte>> := [Ascii("event")]

  function MsgListenEventFromCStr(buf: seq<byte>): Option<MsgListenEvent>
    requires 0 in buf
  {
    var f :- ReadRecordFrom(buf, MSG_LISTEN_EVENT_KEYS);
    Some(MsgListenEvent(f[0]))
  }

  // ---------------------------------------------------------------------------
  // Round trips

  lemma MsgPeerKeysDistinct()
    ensures Distinct(MSG_PEER_KEYS)
  {
    var k := MSG_PEER_KEYS;
    assert k[0][0] != k[1][0] && k[0][0] != k[2][0] && k[0][0] != k[3][0];
    assert k[1][0] != k[3][0] && k[2][0] != k[3][0];
    assert k[1][1] != k[2][1];
  }

  lemma MsgFromUiKeysDistinct()
    ensures Distinct(MSG_FROM_UI_KEYS)
  {
    var k := MSG_FROM_UI_KEYS;
    assert k[0][0] != k[1][0] && k[0][0] != k[2][0] && k[0][0] != k[3][0] && k[0][0] != k[4][0] && k[0][0] != k[5][0];
    assert k[1][0] != k[2][0] && k[1][0] != k[3][0] && k[1][0] != k[4][0] && k[1][0] != k[5][0];
    assert k[2][0] != k[3][0] && k[2][0] != k[4][0] && k[2][0] != k[5][0];
    assert k[3][0] != k[4][0] && k[3][0] != k[5][0] && k[4][0] != k[5][0];
  }

  /** Reading back a written record yields exactly the values written. */
  lemma ReadFieldsOfRecord(keys: seq<seq<byte>>, vals: seq<seq<byte>>)
    requires |keys| == |vals| && Distinct(keys)
    ensures ParseFlat(Serialize(Obj(StrRecord(keys, vals)))).Some?
    ensures ReadFields(ParseFlat(Serialize(Obj(StrRecord(keys, vals)))).value, keys) == Some(vals)
  {
    ParseFlatRoundTrip(StrRecord(keys, vals));
    var ps := ParseFlat(Serialize(Obj(StrRecord(keys, vals)))).value;
    forall i | 0 <= i < |keys|
      ensures Lookup(ps, keys[i]) == Some(vals[i])
    {
      ReadRecord(keys, vals, i);
    }
    ReadFieldsLookups(ps, keys);
    var r := ReadFields(ps, keys);
    assert r.Some?;
    assert r.value == vals;
  }

  /** A record written as a C string reads back as the values written. */
  lemma ReadRecordFromWritten(keys: seq<seq<byte>>, vals: seq<seq<byte>>)
    requires |keys| == |vals| && Distinct(keys)
    requires forall i :: 0 <= i < |keys| ==> IsAscii(keys[i]) && ValidUtf8(vals[i])
    ensures 0 in Serialize(Obj(StrRecord(keys, vals))) + [0]
    ensures ReadRecordFrom(Serialize(Obj(StrRecord(keys, vals))) + [0], keys) == Some(vals)
  {
    var text := Serialize(Obj(StrRecord(keys, vals)));
    RecordClean(keys, vals);
    CStrOfTerminated(text, []);
    assert text + [0] + [] == text + [0];
    assert CStr(text + [0]) == text;
    ReadFieldsOfRecord(keys, vals);
  }

  lemma MsgPeerKeysAscii()
    ensures forall i :: 0 <= i < |MSG_PEER_KEYS| ==> IsAscii(MSG_PEER_KEYS[i])
  {
  }

  /** The peer reads back exactly the message this plugin wrote. */
  lemma MsgPeerRoundTrip(d: Desc, methodName: seq<byte>, content: seq<byte>)
    requires ValidUtf8(d.id) && ValidUtf8(d.name) && ValidUtf8(methodName) && ValidUtf8(content)
    ensures 0 in MsgPeerNewString(d, methodName, content)
    ensures MsgPeerFromCStr(MsgPeerNewString(d, methodName, content)) == Some(MsgPeer(d.id, d.name, methodName, content))
  {
    var vals := [d.id, d.name, methodName, content];
    MsgPeerKeysDistinct();
    MsgPeerKeysAscii();
    ReadRecordFromWritten(MSG_PEER_KEYS, vals);
    assert MsgPeerNewString(d, methodName, content) == Serialize(Obj(StrRecord(MSG_PEER_KEYS, vals))) + [0];
  }

  lemma MsgFromUiKeysAscii()
    ensures forall i :: 0 <= i < |MSG_FROM_UI_KEYS| ==> IsAscii(MSG_FROM_UI_KEYS[i])
  {
  }

  /** A UI message whose texts are valid UTF-8 is written as a clean text. */
  lemma MsgFromUiClean(m: MsgFromUi)
    requires ValidUtf8(m.id) && ValidUtf8(m.name) && ValidUtf8(m.location)
    requires ValidUtf8(m.key) && ValidUtf8(m.value) && ValidUtf8(m.action)
    ensures Clean(Serialize(MsgFromUiValue(m)))
  {
    MsgFromUiKeysAscii();
    RecordClean(MSG_FROM_UI_KEYS, [m.id, m.name, m.location, m.key, m.value, m.action]);
  }

  /** The UI message the host writes for the plugin is read back as written. */
  lemma MsgFromUiRoundTrip(m: MsgFromUi)
    ensures ParseMsgFromUi(Serialize(MsgFromUiValue(m))) == Some(m)
  {
    MsgFromUiKeysDistinct();
    ReadFieldsOfRecord(MSG_FROM_UI_KEYS, [m.id, m.name, m.location, m.key, m.value, m.action]);
  }

  /** A listen event as the host writes it: its JSON and a NUL. */
  function MsgListenEventText(event: seq<byte>): seq<byte>
  {
    Serialize(Obj(StrRecord(MSG_LISTEN_EVENT_KEYS, [event]))) + [0]
  }

  /** The listen event the host writes is read back as written. */
  lemma MsgListenEventRoundTrip(event: seq<byte>)
    requires ValidUtf8(event)
    ensures 0 in MsgListenEventText(event)
    ensures MsgListenEventFromCStr(MsgListenEventText(event)) == Some(MsgListenEvent(event))
  {
    ReadRecordFromWritten(MSG_LISTEN_EVENT_KEYS, [event]);
  }

  // ---------------------------------------------------------------------------
  // The caller's out-pointers, and the handler registry

  /** The locations `*out` and `*out_len` a server call may be given. */
  class OutSlot {
    var buf: Ptr
    var len: nat

    constructor ()
      ensures buf == Null && len == 0
    {
      buf := Null;
      len := 0;
    }
  }

  /** `MsgPeer::fill_out`: `*out` becomes a fresh block holding the
      `new_string` bytes, trailing NUL included, and `*out_len` their number. */
  method FillOut(heap: Heap, d: Desc, methodName: seq<byte>, content: seq<byte>, out: OutSlot)
    requires heap.Valid()
    modifies heap, out
    ensures heap.Valid() && out.buf.Addr? && out.buf.a !in old(heap.blocks)
    ensures heap.blocks == old(heap.blocks)[out.buf.a := MsgPeerNewString(d, methodName, content)]
    ensures out.len == |MsgPeerNewString(d, methodName, content)|
  {
    var b := MsgPeerNewString(d, methodName, content);
    var p := heap.Malloc(b);
    out.buf := p;
    out.len := |b|;
  }

  /** A buffer the handlers read as a C string: it holds a terminator. */
  type CBuf = s: seq<byte> | 0 in s witness [0]

  /** What a client-event handler does: its result, and the bytes it writes
      through `out` (a fresh block, its length in `out_len`), if any. */
  datatype ClientOutcome = ClientOutcome(ret: HandlerRet, out: Option<seq<byte>>)

  /** The registered handler as the framework sees it (a `Box<dyn Handler>`
      in the source): four operations the framework calls without knowing
      what they do. `listen` is also told whether init data is stored, since
      a handler may read it. */
  datatype HandlerImpl = HandlerImpl(
    ui: (Desc, seq<byte>, MsgFromUi) -> HandlerRet,
    client: (Desc, CBuf) -> ClientOutcome,
    server: (Desc, CBuf) -> HandlerRet,
    listen: (Desc, seq<byte>, seq<byte>, MsgListenEvent, bool) -> HandlerRet)

  /** The framework's handler slot: empty until `set_handler`. */
  class HandlerSlot {
    var handler: Option<HandlerImpl>

    constructor ()
      ensures handler == None
    {
      handler := None;
    }

    /** `set_handler`: the slot holds `h`, whatever it held before. */
    method SetHandler(h: HandlerImpl)
      modifies this
      ensures handler == Some(h)
    {
      handler := Some(h);
    }
  }
}
