# RustDesk plugin template: the host ↔ plugin call protocol

This project models the call protocol between RustDesk and a plugin built from the
Rust plugin template, and proves properties of that model. It has four layers.

- **The framework (`plugin_base`).**
  - The C ABI types: C strings, the `PluginReturn` result and the host's callback table.
  - The error codes.
  - The stored initialization data, with `init`, `reset` and `clear`.
  - The descriptor and handler slots.
  - The JSON envelopes the plugin reads and writes (`MsgFromUi`, `MsgPeer`, `MsgToConfig`, `MsgToUi`).
  - `plugin_call`, the single entry point of every call. It runs the guard checks, routes by method name (`handle_ui`, `handle_peer`, `handle_listen_event`) and forwards the handler's messages to the host with the `msg` callback.
- **The template plugin.**
  - Its descriptor: two checkboxes and their configuration items.
  - Its handler. A toggle of the remote-toolbar checkbox sends the peer an `on`/`off` request. The peer answers it with `notify_on`/`notify_off`. Reading that answer sets the per-peer option.
- **The exported API** (`init`, `reset`, `clear`, `desc`, `client_call`, `server_call`). These forward to the framework, with the template's handler and descriptor.
- **The host side of the crate's test harness.** It decodes a non-null lifecycle result as a little-endian code followed by a C string, and frees it.

## Modelling choices

**Memory.**
- Memory is one `Memory.Heap` whose live blocks are a map from addresses to bytes. `malloc` adds a fresh block and `free` removes one.
- Every method states the whole new heap, so every block's ownership is explicit: who allocates it, who frees it, and which blocks are left behind.
- Undefined behaviour becomes a precondition: freeing a block twice, or reading a pointer that holds no NUL.

**Text.**
- A Rust `String` is a byte sequence that satisfies `Bytes.ValidUtf8`. That predicate is the UTF-8 well-formedness table that `String::from_utf8` checks.
- A C string is read up to its first NUL.

**JSON.**
- `Json.Serialize` is the compact writer `serde_json::to_string`, with serde's escapes.
- The reader accepts flat objects whose members are all strings. That covers every envelope the plugin parses.
- Reading is proved to invert writing.

**Handlers.**
- The registered handler (a `Box<dyn Handler>`) is `Handler.HandlerImpl`, a record of four functions. The framework is proved for every handler.
- `TemplateCall.TEMPLATE_HANDLER` is the template's instance.
- `Api.Registered` ties the two together: it states that the framework's slots hold nothing but what the template's `init` registers.

**Host.**
- The host's `get_id` and `msg` callbacks are the class `Host.Host`. It records every `msg` call and answers with a fixed code.

**Control flow.**
- The early-return macros become the `Handler.Flow` datatype: go on with a value, or return a result.

## Model

| member | source | states |
|---|---|---|
| Errno.ErrorsPositive | rustdesk_plugin_template_rust/libs/plugin_base/src/errno.rs:3-28 | success is 0 and every error code is positive, so no failure reads as success |
| Errno.FrameworkCodesDistinct | rustdesk_plugin_template_rust/libs/plugin_base/src/errno.rs:9-21 | the framework's codes are pairwise distinct |
| Errno.FrameworkBands | rustdesk_plugin_template_rust/libs/plugin_base/src/errno.rs:10-21 | init failures are in band 101, invalid calls in 102, failed calls in 103 |
| Errno.PeerOnOffIndistinguishable | rustdesk_plugin_template_rust/libs/plugin_base/src/errno.rs:27-28 | "turn on failed" and "turn off failed" share the code 30012, so a caller cannot tell them apart by code |
| Bytes.CStr | rustdesk_plugin_template_rust/libs/plugin_base/src/lib.rs:124-129 | `CStr::to_bytes` yields a NUL-free prefix of the buffer that a NUL follows |
| Bytes.StrLen | rustdesk_plugin_template_rust/libs/plugin_base/src/init.rs:19-23 | `strlen` is the index of the first NUL: a NUL stands there and none stands before it |
| Bytes.CStrOfTerminated | rustdesk_plugin_template_rust/libs/plugin_base/src/lib.rs:145-158 | a NUL-free text written with its terminator reads back as itself, whatever follows |
| Bytes.CStrTruncates | rustdesk_plugin_template_rust/libs/plugin_base/src/lib.rs:124-129 | a text with an interior NUL reads back only up to that NUL |
| Bytes.AsciiValidUtf8 | rustdesk_plugin_template_rust/libs/plugin_base/src/lib.rs:124-129 | ASCII text passes `String::from_utf8` |
| Bytes.ValidUtf8Concat | rustdesk_plugin_template_rust/libs/plugin_base/src/call.rs:45-47 | appending valid UTF-8 to valid UTF-8 gives valid UTF-8 |
| Bytes.ValidUtf8CutAtNul | rustdesk_plugin_template_rust/libs/plugin_base/src/lib.rs:124-129 | cutting valid UTF-8 at a NUL leaves valid UTF-8 |
| Bytes.U16Le | rustdesk_plugin_template_rust/libs/plugin_base/src/call.rs:46 | `u16::to_le_bytes` is two bytes whose little-endian value is the number |
| Bytes.I32LeRoundTrip | rustdesk_plugin_template_rust/src/lib.rs:21-31 | `i32::from_le_bytes` of `i32::to_le_bytes` gives every `i32` back, whatever bytes follow |
| Json.StrRecord | rustdesk_plugin_template_rust/libs/plugin_base/src/handler.rs:143-149 | a struct of string fields is an object whose members are its fields, in declaration order |
| Json.EscapeAppend | rustdesk_plugin_template_rust/libs/plugin_base/src/handler.rs:153-160 | escaping a concatenation is concatenating the escapes |
| Json.ParseEscaped | rustdesk_plugin_template_rust/libs/plugin_base/src/handler.rs:184-186 | reading an escaped string yields the original text and stops at the quote that closes it |
| Json.ParseOneMember | rustdesk_plugin_template_rust/libs/plugin_base/src/handler.rs:184-186 | one written `"key":"value"` member reads back as that key and value |
| Json.ParseMembersRoundTrip | rustdesk_plugin_template_rust/libs/plugin_base/src/handler.rs:184-186 | a written member list reads back as its members, in order |
| Json.ParseFlatRoundTrip | rustdesk_plugin_template_rust/libs/plugin_base/src/handler.rs:184-186 | `from_str(to_string(record))` gives back the record's members, in order |
| Json.LookupDistinct | rustdesk_plugin_template_rust/libs/plugin_base/src/handler.rs:133-141 | in a record with distinct keys every field is found under its own key |
| Json.ReadRecord | rustdesk_plugin_template_rust/libs/plugin_base/src/handler.rs:184-186 | a written string record is read back, and each key finds the value written under it |
| Json.EscapeClean | rustdesk_plugin_template_rust/libs/plugin_base/src/handler.rs:161-162 | escaping valid UTF-8 gives valid UTF-8 with no NUL, so a terminator appended after it is the only NUL |
| Json.SerializeClean | rustdesk_plugin_template_rust/libs/plugin_base/src/handler.rs:161-162 | the JSON text of any well-formed document has no NUL and is valid UTF-8 |
| Json.RecordClean | rustdesk_plugin_template_rust/libs/plugin_base/src/handler.rs:153-163 | a record with ASCII keys and UTF-8 values is written as a NUL-free UTF-8 text |
| Json.AsciiDocWellFormed | rustdesk_plugin_template_rust/src/desc.rs:67-70 | a document whose keys and strings are ASCII is well formed |
| Memory.Heap.Malloc | rustdesk_plugin_template_rust/libs/plugin_base/src/lib.rs:150-155 | `malloc` then `memcpy`: a fresh block holding the content; every other block is unchanged |
| Memory.Heap.Free | rustdesk_plugin_template_rust/libs/plugin_base/src/lib.rs:115-117 | `free` removes exactly that block |
| PluginBase.CStrToString | rustdesk_plugin_template_rust/libs/plugin_base/src/lib.rs:124-129 | `cstr_to_string` succeeds exactly when the bytes before the first NUL are UTF-8, and then yields them |
| PluginBase.CStrToStringRoundTrip | rustdesk_plugin_template_rust/libs/plugin_base/src/lib.rs:124-158 | a clean text that `str_to_cstr_ret` wrote is read back by `cstr_to_string` as itself |
| PluginBase.CStrToStringTruncates | rustdesk_plugin_template_rust/libs/plugin_base/src/lib.rs:124-129 | a UTF-8 text with an interior NUL reads back cut at that NUL |
| PluginBase.StrToCstr | rustdesk_plugin_template_rust/libs/plugin_base/src/lib.rs:131-143 | `str_to_cstr`: a fresh block holding exactly the bytes, with no terminator, and the length written out |
| PluginBase.StrToCstrRet | rustdesk_plugin_template_rust/libs/plugin_base/src/lib.rs:145-158 | `str_to_cstr_ret`: a fresh block holding the bytes and one NUL |
| PluginBase.PluginReturn.Success | rustdesk_plugin_template_rust/libs/plugin_base/src/lib.rs:90-95 | a success has code 0 and a null message |
| PluginBase.PluginReturn.New | rustdesk_plugin_template_rust/libs/plugin_base/src/lib.rs:102-107 | a failure owns a fresh block holding its message as a C string |
| PluginBase.PluginReturn.GetCodeMsg | rustdesk_plugin_template_rust/libs/plugin_base/src/lib.rs:109-121 | a success gives `(0, "")` and changes nothing; a failure gives its code and its decoded message (empty if not UTF-8), frees the block once and nulls the pointer |
| PluginBase.NewThenGetCodeMsg | rustdesk_plugin_template_rust/libs/plugin_base/src/lib.rs:102-121 | a failure built by `new` and read by `get_code_msg` gives back its code and text, and the heap is as before |
| DescBase.ConfigValuesDistinct | rustdesk_plugin_template_rust/libs/plugin_base/src/desc.rs:4-5 | the option values are `"1"` and `"0"`, and they differ |
| DescBase.DescAscii | rustdesk_plugin_template_rust/libs/plugin_base/src/desc.rs:49-63 | a descriptor whose texts are ASCII serializes to an ASCII document, for every order of its UI map |
| DescBase.DescClean | rustdesk_plugin_template_rust/libs/plugin_base/src/desc.rs:49-63 | such a descriptor is written as a NUL-free UTF-8 text |
| DescBase.DescSlot.constructor | rustdesk_plugin_template_rust/libs/plugin_base/src/desc.rs:65 | the descriptor slot starts empty |
| DescBase.DescSlot.SetDesc | rustdesk_plugin_template_rust/libs/plugin_base/src/desc.rs:67-71 | `set_desc` replaces whatever the slot held |
| Handler.ChannelFlags | rustdesk_plugin_template_rust/libs/plugin_base/src/handler.rs:9-16 | on desktop the five UI channels are distinct single bits; on mobile the CM channel equals the main channel |
| Handler.NamesAreCStrings | rustdesk_plugin_template_rust/libs/plugin_base/src/handler.rs:18-27 | every method name and target tag ends in exactly one NUL, at its end |
| Handler.MsgToConfigValue | rustdesk_plugin_template_rust/libs/plugin_base/src/handler.rs:78-86 | the `ui` member is present exactly when it is `Some` |
| Handler.EarlyReturnValue | rustdesk_plugin_template_rust/libs/plugin_base/src/handler.rs:31-45 | a parsed value goes on unchanged; a failure returns the given code, no messages, and a text starting `Failed to <what>` |
| Handler.EarlyReturnIfTrue | rustdesk_plugin_template_rust/libs/plugin_base/src/call.rs:165 | the handler returns exactly when the condition holds, with the given code and text and no messages |
| Handler.ReadFieldsLookups | rustdesk_plugin_template_rust/libs/plugin_base/src/handler.rs:133-141 | reading a struct succeeds exactly when every field is present once, and then yields each field's value |
| Handler.MsgPeerNewString | rustdesk_plugin_template_rust/libs/plugin_base/src/handler.rs:152-164 | the envelope text ends in the NUL pushed onto it |
| Handler.MsgPeerKeysDistinct | rustdesk_plugin_template_rust/libs/plugin_base/src/handler.rs:143-149 | `MsgPeer`'s field names are distinct |
| Handler.MsgFromUiKeysDistinct | rustdesk_plugin_template_rust/libs/plugin_base/src/handler.rs:133-141 | `MsgFromUi`'s field names are distinct |
| Handler.ReadFieldsOfRecord | rustdesk_plugin_template_rust/libs/plugin_base/src/handler.rs:133-149 | reading back a written string struct yields exactly the values written |
| Handler.ReadRecordFromWritten | rustdesk_plugin_template_rust/libs/plugin_base/src/handler.rs:184-186 | the same, through a C string |
| Handler.MsgPeerRoundTrip | rustdesk_plugin_template_rust/libs/plugin_base/src/handler.rs:151-187 | `from_c_str(new_string(d, method, content))` is the message with the descriptor's id and name, that method and that content |
| Handler.MsgFromUiClean | rustdesk_plugin_template_rust/libs/plugin_base/src/handler.rs:133-141 | a UI message whose fields are UTF-8 is written as a NUL-free UTF-8 text |
| Handler.MsgFromUiRoundTrip | rustdesk_plugin_template_rust/libs/plugin_base/src/handler.rs:133-141 | a UI message written as JSON is parsed back as itself |
| Handler.MsgListenEventRoundTrip | rustdesk_plugin_template_rust/libs/plugin_base/src/call.rs:179-183 | a listen event the host writes as JSON with its NUL is read back by `MsgListenEvent::from_cstr` as that event |
| Handler.OutSlot.constructor | rustdesk_plugin_template_rust/src/lib.rs:201-202 | the out-pointer and out-length start null and 0 |
| Handler.FillOut | rustdesk_plugin_template_rust/libs/plugin_base/src/handler.rs:166-181 | `*out` becomes a fresh block holding the envelope with its NUL, and `*out_len` becomes its length |
| Handler.HandlerSlot.constructor | rustdesk_plugin_template_rust/libs/plugin_base/src/handler.rs:189 | the handler slot starts empty |
| Handler.HandlerSlot.SetHandler | rustdesk_plugin_template_rust/libs/plugin_base/src/handler.rs:203-207 | `set_handler` replaces whatever the slot held |
| Init.ReturnCodeMsgBytes | rustdesk_plugin_template_rust/src/lib.rs:21-31 | a failure block is 4 code bytes, the message, and one NUL at the end |
| Init.MakeReturnCodeMsg | rustdesk_plugin_template_rust/libs/plugin_base/src/init.rs:68-71 | the failure is a fresh block that the caller owns |
| Init.InvalidInitDataMsgClean | rustdesk_plugin_template_rust/libs/plugin_base/src/init.rs:70 | the invalid-init message is a clean C-string text |
| Init.CloneInitData | rustdesk_plugin_template_rust/libs/plugin_base/src/init.rs:16-29 | a clone owns a fresh copy of the version string (`strlen + 1` bytes) and shares the callbacks |
| Init.DropInitData | rustdesk_plugin_template_rust/libs/plugin_base/src/init.rs:31-39 | dropping frees the version block, unless it is null |
| Init.InitStore.constructor | rustdesk_plugin_template_rust/libs/plugin_base/src/init.rs:4-6 | the init-data slot starts empty |
| Init.InitStore.SetInitData | rustdesk_plugin_template_rust/libs/plugin_base/src/init.rs:65-76 | a null `info`, or a null version, returns a fresh failure block and changes nothing else; otherwise the old copy is dropped, a fresh clone is stored and the result is null |
| Init.InitStore.Clear | rustdesk_plugin_template_rust/libs/plugin_base/src/init.rs:60-63 | `clear` empties the slot, frees the stored copy and returns null |
| Init.LogSlot.constructor | rustdesk_plugin_template_rust/libs/plugin_base/src/init.rs:48 | no log callback is set before `init` |
| Init.InitPlugin | rustdesk_plugin_template_rust/libs/plugin_base/src/init.rs:41-50 | the data is stored as `set_init_data` stores it; only on success are the handler, the descriptor and the log callback registered; on failure neither slot changes |
| Init.ResetPlugin | rustdesk_plugin_template_rust/libs/plugin_base/src/init.rs:52-58 | only the init data is replaced; the handler and descriptor slots are untouched |
| Init.ClearTwice | rustdesk_plugin_template_rust/libs/plugin_base/src/init.rs:60-63 | `clear` is idempotent: two calls leave what one call leaves |
| Host.Host.constructor | rustdesk_plugin_template_rust/libs/plugin_base/src/lib.rs:67-75 | a host that has not been called yet |
| Host.Host.GetId | rustdesk_plugin_template_rust/libs/plugin_base/src/lib.rs:31-34 | `get_id` returns a fresh block holding the local id and a NUL, which the caller must free |
| Host.Host.Msg | rustdesk_plugin_template_rust/libs/plugin_base/src/lib.rs:15-30 | `msg` records the call; a failure answer comes with a message block that the caller owns |
| TemplateDesc.GetDesc | rustdesk_plugin_template_rust/src/desc.rs:13-65 | the template's id, name and version, an empty description, and UI controls at exactly the two locations |
| TemplateDesc.LocationsDistinct | rustdesk_plugin_template_rust/src/desc.rs:8-11 | the two UI locations differ |
| TemplateDesc.DescCheckboxesHaveConfig | rustdesk_plugin_template_rust/src/desc.rs:27-63 | both controls are checkboxes; each checkbox key has one configuration item, defaulting to `"0"` |
| TemplateDesc.DescOrders | rustdesk_plugin_template_rust/src/desc.rs:27-50 | the location map can be iterated in exactly two orders |
| TemplateDesc.GetDescAscii | rustdesk_plugin_template_rust/src/desc.rs:13-65 | every text of the descriptor is ASCII |
| TemplateDesc.DescStringClean | rustdesk_plugin_template_rust/src/desc.rs:67-70 | the descriptor's JSON is a NUL-free UTF-8 text, whatever the map's order |
| TemplateCall.PluginPeerMsgRoundTrip | rustdesk_plugin_template_rust/src/call.rs:22-31 | the request content reads back as written, and is clean when its text is UTF-8 |
| TemplateCall.TogglesDistinct | rustdesk_plugin_template_rust/src/call.rs:17-20 | `on` differs from `off`, and `notify_on` differs from `notify_off` |
| TemplateCall.HandleUiEvent | rustdesk_plugin_template_rust/src/call.rs:82-130 | the event succeeds exactly on a `"1"`/`"0"` toggle of one of the two checkboxes; then it carries one message and an empty text; otherwise it is the default result |
| TemplateCall.UiEventTogglesPeer | rustdesk_plugin_template_rust/src/call.rs:85-102 | the remote-toolbar toggle sends one peer message: `off` for `"0"`, `on` for `"1"`, carrying the local peer id |
| TemplateCall.UiEventWritesShared | rustdesk_plugin_template_rust/src/call.rs:107-121 | the host-settings toggle writes the shared option with the value toggled and shows it on the main channel |
| TemplateCall.ClientEvent | rustdesk_plugin_template_rust/src/call.rs:132-203 | `*out` is written exactly when the call succeeds; the event never sends messages |
| TemplateCall.HandleClientEvent | rustdesk_plugin_template_rust/src/call.rs:132-203 | the result is `ClientEvent`'s; on success `*out` is a fresh block holding the answer; otherwise `*out` and the heap are untouched |
| TemplateCall.HandleServerEvent | rustdesk_plugin_template_rust/src/call.rs:205-273 | success replies "success"; a recognised answer writes one per-peer option and one message box; anything else returns no messages |
| TemplateCall.PeerEventChecksFirst | rustdesk_plugin_template_rust/src/call.rs:140-151 | both peer handlers reject an unreadable envelope with `ERR_CALL_INVALID_ARGS`, then a foreign id with `ERR_PEER_ID_MISMATCH` |
| TemplateCall.ServerEventReadsAnswer | rustdesk_plugin_template_rust/src/call.rs:219-266 | an answer succeeds exactly when its content is empty; on success the option is set to the value asked for and an `on`/`off` box is shown; on failure the code is `ERR_PEER_ON_FAILED`/`ERR_PEER_OFF_FAILED`, the text is `Failed to turn on/off <content>`, the option is set to the opposite value, a `Failed to turn on/off` box is shown, and nothing goes to the peer |
| TemplateCall.ClientEventRejects | rustdesk_plugin_template_rust/src/call.rs:154-182 | an `on`/`off` request whose content is not a readable `PluginPeerMsg` returns `ERR_CALL_INVALID_ARGS` with a `Failed to parse msg content <content>` text and no messages, and writes nothing through `out` |
| TemplateCall.PeerEventUnknownMethod | rustdesk_plugin_template_rust/src/call.rs:197-200 | a method the client handler does not know (anything but `on`/`off`), or the server handler does not know (anything but `notify_on`/`notify_off`), returns `ERR_CALL_INVALID_ARGS` with `Invalid method <method>`, no messages and no `out` |
| TemplateCall.ClientEventAccepts | rustdesk_plugin_template_rust/src/call.rs:153-175 | a readable `on`/`off` request for this plugin succeeds and answers `notify_on`/`notify_off` with empty content |
| TemplateCall.ToggleRoundTrip | rustdesk_plugin_template_rust/src/call.rs:82-273 | the request the toolbar toggle sends is accepted by the peer, and its answer, read back, sets the per-peer option to the value toggled |
| TemplateCall.HandleListenEvent | rustdesk_plugin_template_rust/src/call.rs:275-301 | the result is never success (it starts from the default); a client connection before init reports `ERR_PLUGIN_MSG_INIT`; an unknown event is invalid |
| Call.IsMethodExact | rustdesk_plugin_template_rust/libs/plugin_base/src/call.rs:21-24 | because the target carries its NUL, a name matches exactly when its C string is the target |
| Call.RouteExact | rustdesk_plugin_template_rust/libs/plugin_base/src/call.rs:103-118 | each route is taken for exactly one method name |
| Call.HandleConnUnsupported | rustdesk_plugin_template_rust/libs/plugin_base/src/call.rs:103-118 | `handle_conn` is declared but reported as unsupported |
| Call.Guard | rustdesk_plugin_template_rust/libs/plugin_base/src/call.rs:70-99 | a call passes exactly when init data, handler and descriptor are set, the method is not null and the peer id is UTF-8; the first failed check decides the code; the peer id is read only when every earlier check passed |
| Call.LocalPeerId | rustdesk_plugin_template_rust/libs/plugin_base/src/call.rs:128-151 | the id is returned exactly when init data is stored and the host's id is UTF-8; otherwise `ERR_PLUGIN_MSG_INIT` or `ERR_PLUGIN_MSG_GET_LOCAL_PEER_ID` |
| Call.UiDecode | rustdesk_plugin_template_rust/libs/plugin_base/src/call.rs:153-165 | a UI call goes on exactly when its argument is UTF-8 JSON for a `MsgFromUi` carrying this plugin's id; otherwise `ERR_CALL_INVALID_ARGS` |
| Call.UiResult | rustdesk_plugin_template_rust/libs/plugin_base/src/call.rs:153-171 | a rejected argument gives `ERR_CALL_INVALID_ARGS` with no messages; then, with no init data, `ERR_PLUGIN_MSG_INIT`; a local id that is not UTF-8, `ERR_PLUGIN_MSG_GET_LOCAL_PEER_ID`; otherwise the UI handler's result on the decoded message and the local id |
| Call.ListenResult | rustdesk_plugin_template_rust/libs/plugin_base/src/call.rs:173-189 | an unreadable event gives `ERR_CALL_INVALID_ARGS` with no messages; then, with no init data, `ERR_PLUGIN_MSG_INIT`; a local id that is not UTF-8, `ERR_PLUGIN_MSG_GET_LOCAL_PEER_ID`; otherwise the listen handler's result on the event, the local id and the remote peer id |
| Call.HandlerResult | rustdesk_plugin_template_rust/libs/plugin_base/src/call.rs:103-118 | `handle_ui` gives `UiResult`, `handle_listen_event` gives `ListenResult`; a peer call reaches the client handler when `out` is given and the server handler otherwise; an unknown method is `ERR_CALL_NOT_SUPPORTED_METHOD` with no messages and the text `Unsupported call of '<Debug of the name>'` |
| Call.DebugEscapePlain | rustdesk_plugin_template_rust/libs/plugin_base/src/call.rs:112-115 | `Debug` of a `str` shows text without quotes, backslashes or control bytes unchanged |
| Call.DebugEscapeSafe | rustdesk_plugin_template_rust/libs/plugin_base/src/call.rs:112-115 | the escaped text has no control byte and every quote in it follows a backslash, so it cannot close the quoted form |
| Call.MethodDebugEscapesQuote | rustdesk_plugin_template_rust/libs/plugin_base/src/call.rs:112-115 | the method name `a"b` is shown as `Ok("a\"b")` |
| Call.UiPayload | rustdesk_plugin_template_rust/libs/plugin_base/src/call.rs:45-47 | a UI message is the remote channel as two little-endian bytes, then its JSON |
| Call.SendAllElements | rustdesk_plugin_template_rust/libs/plugin_base/src/call.rs:26-54 | one loop sends exactly one `msg` per payload, in order, to its target |
| Call.SendsOrder | rustdesk_plugin_template_rust/libs/plugin_base/src/call.rs:26-54 | every config message is sent first, then every peer message, then every UI message |
| Call.CallMsgCb | rustdesk_plugin_template_rust/libs/plugin_base/src/call.rs:205-229 | without init data nothing is sent and the result is success; otherwise one NUL-terminated call is recorded and a failure answer is decoded and freed |
| Call.SendEach | rustdesk_plugin_template_rust/libs/plugin_base/src/call.rs:27-34 | the loop's `msg` calls are `SendAll` of its payloads, and the heap is unchanged |
| Call.ProcessReturn | rustdesk_plugin_template_rust/libs/plugin_base/src/call.rs:26-60 | all of the handler's messages are sent in order, whatever the host answers; the handler's code is returned, with a fresh message block on failure |
| Call.GetLocalPeerId | rustdesk_plugin_template_rust/libs/plugin_base/src/call.rs:128-151 | asks the host only when init data is stored, frees the id on success, and leaks exactly the id block when it is not UTF-8 |
| Call.HandleMsgUi | rustdesk_plugin_template_rust/libs/plugin_base/src/call.rs:153-171 | the result is `UiResult`; a rejected argument never asks the host for the id; the id block is left behind exactly when the argument is accepted, init data is stored and the id is not UTF-8 |
| Call.HandleMsgListen | rustdesk_plugin_template_rust/libs/plugin_base/src/call.rs:173-189 | the result is `ListenResult`; an unreadable event never asks the host for the id; the id block is left behind exactly when the event is read, init data is stored and the id is not UTF-8 |
| Call.HandleMsgPeer | rustdesk_plugin_template_rust/libs/plugin_base/src/call.rs:191-203 | a null `out` runs the server handler and leaves the heap alone; otherwise the client handler runs, and `*out` changes only when it writes an answer |
| Call.Dispatch | rustdesk_plugin_template_rust/libs/plugin_base/src/call.rs:101-118 | the result is `HandlerResult` and nothing is sent; the host is asked for the local id once exactly when the UI or listen argument is accepted (`AsksLocalId`); the new heap is the old one plus exactly the answer written through `*out`, or plus the leaked id block (`LeaksLocalId`) |
| Call.Handle | rustdesk_plugin_template_rust/libs/plugin_base/src/call.rs:101-120 | after routing: the handler's code is returned, its messages reach the host in order, the local id is requested once exactly when `AsksLocalId`, `*out` holds the answer, and the heap gains exactly the answer, the leaked id block and the failure text |
| Call.PluginCall | rustdesk_plugin_template_rust/libs/plugin_base/src/call.rs:62-121 | a failed check returns its code and text in a fresh block, and nothing else happens; a passed check yields `Handled` (exact result, sends and heap) for the registered handler and descriptor |
| Api.InitExport | rustdesk_plugin_template_rust/src/api.rs:7-14 | the init data is stored as `set_init_data` stores it (`Stored`); on success the template's handler, its descriptor and the log callback are registered, on failure no slot changes |
| Api.ResetExport | rustdesk_plugin_template_rust/src/api.rs:16-19 | only the init data is replaced |
| Api.ClearExport | rustdesk_plugin_template_rust/src/api.rs:21-24 | the data is dropped; the result is always null |
| Api.DescExport | rustdesk_plugin_template_rust/src/api.rs:26-29 | a fresh block holding the descriptor's JSON and a NUL, which reads back as that JSON |
| Api.ClientCall | rustdesk_plugin_template_rust/src/api.rs:31-39 | `plugin_call` with no `out`: a peer call reaches the template's server handler; a failed check returns its code and text and neither asks nor sends the host anything |
| Api.ServerCall | rustdesk_plugin_template_rust/src/api.rs:41-51 | `plugin_call` with `out`: a peer call reaches the template's client handler, and a failed check returns its code and text, asks and sends the host nothing and leaves `*out` untouched |
| Api.UiCallReachesTemplate | rustdesk_plugin_template_rust/libs/plugin_base/src/call.rs:153-170 | a `handle_ui` call carrying a message that the host wrote for this plugin reaches the template's UI handler with exactly that message and the local id |
| Api.ListenCallReachesTemplate | rustdesk_plugin_template_rust/libs/plugin_base/src/call.rs:173-189 | a `handle_listen_event` call carrying an event the host wrote, with a readable local id, reaches the template's listen handler with exactly that event |
| Api.PeerToggleThroughFramework | rustdesk_plugin_template_rust/src/lib.rs:196-210 | the toggle request, given to the peer's `server_call` as `handle_peer`, succeeds and writes an answer; that answer, given to `client_call`, succeeds and sets the per-peer option |
| Harness.FreeCPtr | rustdesk_plugin_template_rust/src/lib.rs:12-19 | a non-null pointer's block is freed; a null pointer changes nothing |
| Harness.GetCodeMsgFromRet | rustdesk_plugin_template_rust/src/lib.rs:21-31 | the message is a NUL-free UTF-8 prefix of the bytes after the code, or empty |
| Harness.CodeMsgRoundTrip | rustdesk_plugin_template_rust/src/lib.rs:21-31 | a failure block written with a clean message is read back as its code and message |
| Harness.CodeMsgTruncates | rustdesk_plugin_template_rust/src/lib.rs:21-31 | a message with an interior NUL is read back cut at that NUL |
| Harness.TakeResult | rustdesk_plugin_template_rust/src/lib.rs:80-90 | a null result is success; otherwise the block is decoded, then freed once |
| Harness.TakeInitFailure | rustdesk_plugin_template_rust/src/lib.rs:79-92 | the failure `init` returns is reported with its code and message, and the heap is as before the call |
| Harness.PluginInit | rustdesk_plugin_template_rust/src/lib.rs:79-92 | missing init data is reported as `ERR_PLUGIN_MSG_INIT_INVALID` and leaves heap, data and every slot unchanged; valid data is stored (`Stored`), the template's handler, descriptor and log callback are registered, and success is reported |
| Harness.PluginClear | rustdesk_plugin_template_rust/src/lib.rs:94-114 | `clear`, which `Drop` always calls, never reports a failure, and it releases the stored data |

## Left out

**Runtime, not modelled:**
- Concurrency. The `Mutex` around the init data and the `static mut` slots are modelled as plain fields, with one call at a time.
- Logging. The `plog` macros and `println!`/`debug!` output are not modelled. `Init.LogSlot` records only which callback `init` installs.
- The harness's `dlopen` loading, `Plugin::new`, `Plugin::desc`, the sleep, and its stub callbacks. `get_conf` and the `native` callback are never called by the core. The host parsing the descriptor JSON back is not modelled; `Api.DescExport` proves instead that the text reads back as a C string.
- `Debug` text. The `{:?}` rendering of an error is the placeholder `Handler.ERROR_DEBUG`. A failure's code and routing are exact, but its text after `Failed to … '` is not.
- Call.MethodDebug: ASCII is escaped exactly as `str`'s `Debug` does it, but non-printable code points and grapheme-extend characters, wherever they stand, which Rust shows as `\u{…}`, are shown as they are here, because Unicode's printable and grapheme tables are not part of the model.
- The `len` arguments. They are not read by any handler, so buffers are read up to their NUL.

**JSON:**
- The reader accepts only flat objects of string members in serde's compact form. serde accepts more: whitespace, unknown fields, `\u` escapes of non-ASCII characters. A message that serde would accept but this reader refuses is a rejected call in the model.
- The descriptor's UI map is a `HashMap`, whose iteration order is unspecified. The order is a parameter of `TemplateDesc.GetDescString`.

**Undefined behaviour:**
- `Call.IsMethodExact` covers names that hold a NUL. `is_method` on a name shorter than the target reads past its end, which is undefined behaviour.

**Source inconsistencies the model resolves:**
- The crate uses the constant `METHOD_HANDLE_LISTEN_EVENT`, the `MsgListenEvent` type, the events `EVENT_ON_CONN_CLIENT` and `EVENT_ON_CONN_CLOSE_SERVER`, the macro `early_return_if_true!` and the helper `make_return_code_msg`, but defines none of them (`libs/plugin_base/src/lib.rs:9-13` declares every module of the framework, and `src/call.rs:2-9` imports them from it). The model's stand-ins:
  - the method name `"handle_listen_event"`, which the host calls;
  - a `MsgListenEvent` record with one string field `event`, and two distinct event names;
  - `early_return_if_true!` behaving like `early_return_value!`, with the message as given;
  - `make_return_code_msg` writing the layout `get_code_msg_from_ret` reads.
- `handler.rs` declares the `Handler` trait with parsed `MsgPeer` arguments, without a listen handler. `plugin_base/src/call.rs` and the template instead pass the raw `args` and call `handle_listen_event`. The model follows the callers.
- `MsgToConfig::new_string` takes five arguments, but the template passes four. `TemplateCall.MakeMsgToConfig` supplies the plugin id first.
- `api.rs` declares `init`, `reset` and `clear` as returning `PluginReturn`, while `init.rs` and the harness use a nullable pointer to a code-and-message block. The model follows `init.rs` and the harness.

**Weaker than the source:**
- The registered handler is seen by the framework as four functions. The writes a client event makes through `*out` are applied by the dispatcher from the handler's `ClientOutcome`.
