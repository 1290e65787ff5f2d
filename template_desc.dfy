/** The template plugin's descriptor: its identity, a checkbox in the host's
    settings page and one in the remote toolbar, and the option each controls. */
module TemplateDesc {
  import opened Bytes
  import opened Wrappers
  import opened Json
  import opened DescBase

  const ID: seq<byte> := Ascii("TemplateTestIdRust")
  const NAME: seq<byte> := Ascii("RustDesk Plugin Template")
  const VERSION: seq<byte> := Ascii("v0.1.0")
  const UI_HOST_MAIN_LOCATION: seq<byte> := Ascii("host|main|settings|plugin")
  const UI_HOST_MAIN_KEY: seq<byte> := Ascii("allow-opt")
  const UI_CLIENT_REMOTE_LOCATION: seq<byte> := Ascii("client|remote|toolbar|display")
  const UI_CLIENT_REMOTE_KEY: seq<byte> := Ascii("peer-opt")

  const HOST_MAIN_LABEL: seq<byte> := Ascii("Allow option")
  const CLIENT_REMOTE_LABEL: seq<byte> := Ascii("Option to peer")
  const PUBLISHER: seq<byte> := Ascii("RustDesk")
  const WEBSITE: seq<byte> := Ascii("https://rustdesk.com")
  const LICENSE: seq<byte> := Ascii("MIT")
  const PUBLISHED: seq<byte> := Ascii("2020-02-03 13:05:02")
  const RELEASED: seq<byte> := Ascii("2023-02-03 13:05:02")
  const GITHUB: seq<byte> := Ascii("https://github/demo")
  const PEER_OPTION_DESCRIPTION: seq<byte> := Ascii("Trigger option on peer side")

  const HOST_MAIN_CHECKBOX: UiType :=
    Checkbox(UiCheckbox(UI_HOST_MAIN_KEY, HOST_MAIN_LABEL, [], []))
  const CLIENT_REMOTE_CHECKBOX: UiType :=
    Checkbox(UiCheckbox(UI_CLIENT_REMOTE_KEY, CLIENT_REMOTE_LABEL, [], []))

  /** `get_desc`: the descriptor the template registers and publishes. */
  function GetDesc(): (d: Desc)
    ensures d.id == ID && d.name == NAME && d.version == VERSION && d.description == []
    ensures d.location.ui.Keys == {UI_HOST_MAIN_LOCATION, UI_CLIENT_REMOTE_LOCATION}
  {
    Desc(ID, NAME, VERSION, [], PUBLISHER, WEBSITE, LICENSE,
         PUBLISHED, RELEASED, GITHUB,
         Location(map[UI_HOST_MAIN_LOCATION := HOST_MAIN_CHECKBOX, UI_CLIENT_REMOTE_LOCATION := CLIENT_REMOTE_CHECKBOX]),
         Config([ConfigItem(UI_HOST_MAIN_KEY, CONFIG_VALUE_FALSE, HOST_MAIN_LABEL)],
                [ConfigItem(UI_CLIENT_REMOTE_KEY, CONFIG_VALUE_FALSE, PEER_OPTION_DESCRIPTION)]))
  }

  lemma LocationsDistinct()
    ensures UI_HOST_MAIN_LOCATION != UI_CLIENT_REMOTE_LOCATION
  {
    assert UI_HOST_MAIN_LOCATION[0] != UI_CLIENT_REMOTE_LOCATION[0];
  }

  /** The UI holds exactly two checkboxes, and each checkbox's key names a
      config item that is off by default: the host-main one a shared item,
      the client-remote one a per-peer item. */
  lemma DescCheckboxesHaveConfig()
    ensures |GetDesc().location.ui| == 2
    ensures GetDesc().location.ui[UI_HOST_MAIN_LOCATION].Checkbox?
    ensures GetDesc().location.ui[UI_CLIENT_REMOTE_LOCATION].Checkbox?
    ensures GetDesc().config.shared ==
      [ConfigItem(GetDesc().location.ui[UI_HOST_MAIN_LOCATION].checkbox.key, CONFIG_VALUE_FALSE, HOST_MAIN_LABEL)]
    ensures GetDesc().config.peer ==
      [ConfigItem(GetDesc().location.ui[UI_CLIENT_REMOTE_LOCATION].checkbox.key, CONFIG_VALUE_FALSE, PEER_OPTION_DESCRIPTION)]
  {
    LocationsDistinct();
    var ui := GetDesc().location.ui;
    assert ui.Keys == {UI_HOST_MAIN_LOCATION, UI_CLIENT_REMOTE_LOCATION};
    assert |ui.Keys| == 2;
  }

  /** The two iteration orders of the location map. */
  lemma DescOrders(order: seq<seq<byte>>)
    requires IsOrderOf(order, GetDesc().location.ui)
    ensures order == [UI_HOST_MAIN_LOCATION, UI_CLIENT_REMOTE_LOCATION] ||
            order == [UI_CLIENT_REMOTE_LOCATION, UI_HOST_MAIN_LOCATION]
  {
    DescCheckboxesHaveConfig();
  }

  /** `get_desc_string`: the JSON of the descriptor; `order` is the order the
      location map happens to be iterated in. */
  function GetDescString(order: seq<seq<byte>>): seq<byte>
    requires IsOrderOf(order, GetDesc().location.ui)
  {
    Serialize(DescValue(GetDesc(), order))
  }

  lemma GetDescAscii()
    ensures AsciiDesc(GetDesc())
  {
    assert IsAscii([]);
  }

  /** The published descriptor is a C-string-safe Rust string, whatever
      order the location map is written in. */
  lemma DescStringClean(order: seq<seq<byte>>)
    requires IsOrderOf(order, GetDesc().location.ui)
    ensures Clean(GetDescString(order))
  {
    GetDescAscii();
    DescClean(GetDesc(), order);
  }
}
