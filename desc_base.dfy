/** The plugin descriptor: what the plugin is, where its UI controls go, and
    which configuration items it owns; and the slot the framework keeps it in. */
module DescBase {
  import opened Bytes
  import opened Wrappers
  import opened Json

  const CONFIG_VALUE_TRUE: seq<byte> := Ascii("1")
  const CONFIG_VALUE_FALSE: seq<byte> := Ascii("0")

  datatype UiButton = UiButton(key: seq<byte>, text: seq<byte>, icon: seq<byte>, tooltip: seq<byte>, action: seq<byte>)

  datatype UiCheckbox = UiCheckbox(key: seq<byte>, text: seq<byte>, tooltip: seq<byte>, action: seq<byte>)

  /** A UI control: a button or a checkbox, and nothing else. */
  datatype UiType = Button(button: UiButton) | Checkbox(checkbox: UiCheckbox)

  /** UI controls by location (`HashMap<String, UiType>`). */
  datatype Location = Location(ui: map<seq<byte>, UiType>)

  datatype ConfigItem = ConfigItem(key: seq<byte>, default: seq<byte>, description: seq<byte>)

  datatype Config = Config(shared: seq<ConfigItem>, peer: seq<ConfigItem>)

  datatype Desc = Desc(
    id: seq<byte>, name: seq<byte>, version: seq<byte>, description: seq<byte>,
    author: seq<byte>, home: seq<byte>, license: seq<byte>, published: seq<byte>,
    released: seq<byte>, github: seq<byte>, location: Location, config: Config)

  /** `Desc::default()`. */
  const DEFAULT_DESC: Desc :=
    Desc([], [], [], [], [], [], [], [], [], [], Location(map[]), Config([], []))

  lemma ConfigValuesDistinct()
    ensures CONFIG_VALUE_TRUE == [0x31] && CONFIG_VALUE_FALSE == [0x30]
    ensures CONFIG_VALUE_TRUE != CONFIG_VALUE_FALSE
  {
  }

  // ---------------------------------------------------------------------------
  // JSON form (`#[derive(Serialize)]`; `UiType` is tagged `t`, content `c`)

  function UiTypeValue(u: UiType): Value
  {
    match u
    case Button(b) =>
      Obj([Field(Ascii("t"), Str(Ascii("Button"))),
           Field(Ascii("c"), Obj(StrRecord(
             [Ascii("key"), Ascii("text"), Ascii("icon"), Ascii("tooltip"), Ascii("action")],
             [b.key, b.text, b.icon, b.tooltip, b.action])))])
    case Checkbox(c) =>
      Obj([Field(Ascii("t"), Str(Ascii("Checkbox"))),
           Field(Ascii("c"), Obj(StrRecord(
             [Ascii("key"), Ascii("text"), Ascii("tooltip"), Ascii("action")],
             [c.key, c.text, c.tooltip, c.action])))])
  }

  /** `order` lists the map's keys once each: the order a `HashMap` is
      iterated in is not specified, so it is a parameter of the text. */
  predicate IsOrderOf(order: seq<seq<byte>>, ui: map<seq<byte>, UiType>)
  {
    |order| == |ui| && (forall i :: 0 <= i < |order| ==> order[i] in ui) && Distinct(order)
  }

  function LocationValue(l: Location, order: seq<seq<byte>>): Value
    requires IsOrderOf(order, l.ui)
  {
    Obj([Field(Ascii("ui"), Obj(seq(|order|, i requires 0 <= i < |order| =>
      Field(order[i], UiTypeValue(l.ui[order[i]])))))])
  }

  function ConfigItemValue(c: ConfigItem): Value
  {
    Obj(StrRecord([Ascii("key"), Ascii("default"), Ascii("description")], [c.key, c.default, c.description]))
  }

  function ConfigValue(c: Config): Value
  {
    Obj([Field(Ascii("shared"), Arr(seq(|c.shared|, i requires 0 <= i < |c.shared| => ConfigItemValue(c.shared[i])))),
         Field(Ascii("peer"), Arr(seq(|c.peer|, i requires 0 <= i < |c.peer| => ConfigItemValue(c.peer[i]))))])
  }

  function DescValue(d: Desc, order: seq<seq<byte>>): Value
    requires IsOrderOf(order, d.location.ui)
  {
    Obj([Field(Ascii("id"), Str(d.id)), Field(Ascii("name"), Str(d.name)),
         Field(Ascii("version"), Str(d.version)), Field(Ascii("description"), Str(d.description)),
         Field(Ascii("author"), Str(d.author)), Field(Ascii("home"), Str(d.home)),
         Field(Ascii("license"), Str(d.license)), Field(Ascii("published"), Str(d.published)),
         Field(Ascii("released"), Str(d.released)), Field(Ascii("github"), Str(d.github)),
         Field(Ascii("location"), LocationValue(d.location, order)),
         Field(Ascii("config"), ConfigValue(d.config))])
  }

  /** Every text of the descriptor is ASCII. */
  predicate AsciiUi(u: UiType)
  {
    match u
    case Button(b) => IsAscii(b.key) && IsAscii(b.text) && IsAscii(b.icon) && IsAscii(b.tooltip) && IsAscii(b.action)
    case Checkbox(c) => IsAscii(c.key) && IsAscii(c.text) && IsAscii(c.tooltip) && IsAscii(c.action)
  }

  predicate AsciiItem(c: ConfigItem)
  {
    IsAscii(c.key) && IsAscii(c.default) && IsAscii(c.description)
  }

  predicate AsciiDesc(d: Desc)
  {
    IsAscii(d.id) && IsAscii(d.name) && IsAscii(d.version) && IsAscii(d.description) &&
    IsAscii(d.author) && IsAscii(d.home) && IsAscii(d.license) && IsAscii(d.published) &&
    IsAscii(d.released) && IsAscii(d.github) &&
    (forall k :: k in d.location.ui ==> IsAscii(k) && AsciiUi(d.location.ui[k])) &&
    (forall i :: 0 <= i < |d.config.shared| ==> AsciiItem(d.config.shared[i])) &&
    (forall i :: 0 <= i < |d.config.peer| ==> AsciiItem(d.config.peer[i]))
  }

  lemma UiTypeAscii(u: UiType)
    requires AsciiUi(u)
    ensures AsciiDoc(UiTypeValue(u))
  {
    match u
    case Button(b) =>
    case Checkbox(c) =>
  }

  lemma ItemAscii(c: ConfigItem)
    requires AsciiItem(c)
    ensures AsciiDoc(ConfigItemValue(c))
  {
    var fs := StrRecord([Ascii("key"), Ascii("default"), Ascii("description")], [c.key, c.default, c.description]);
    assert fs[0].value == Str(c.key) && fs[1].value == Str(c.default) && fs[2].value == Str(c.description);
  }

  lemma ConfigAscii(c: Config)
    requires forall i :: 0 <= i < |c.shared| ==> AsciiItem(c.shared[i])
    requires forall i :: 0 <= i < |c.peer| ==> AsciiItem(c.peer[i])
    ensures AsciiDoc(ConfigValue(c))
  {
    forall i | 0 <= i < |c.shared|
      ensures AsciiDoc(ConfigItemValue(c.shared[i]))
    {
      ItemAscii(c.shared[i]);
    }
    forall i | 0 <= i < |c.peer|
      ensures AsciiDoc(ConfigItemValue(c.peer[i]))
    {
      ItemAscii(c.peer[i]);
    }
  }

  lemma LocationAscii(l: Location, order: seq<seq<byte>>)
    requires IsOrderOf(order, l.ui)
    requires forall k :: k in l.ui ==> IsAscii(k) && AsciiUi(l.ui[k])
    ensures AsciiDoc(LocationValue(l, order))
  {
    forall i | 0 <= i < |order|
      ensures AsciiDoc(UiTypeValue(l.ui[order[i]]))
    {
      UiTypeAscii(l.ui[order[i]]);
    }
  }

  /** A descriptor whose texts are ASCII is an ASCII document ... */
  lemma DescAscii(d: Desc, order: seq<seq<byte>>)
    requires IsOrderOf(order, d.location.ui) && AsciiDesc(d)
    ensures AsciiDoc(DescValue(d, order))
  {
    LocationAscii(d.location, order);
    ConfigAscii(d.config);
    var fs := DescValue(d, order).fields;
    forall i | 0 <= i < |fs|
      ensures IsAscii(fs[i].key) && AsciiDoc(fs[i].value)
    {
      if i < 10 {
        assert fs[i].value.Str?;
      }
    }
  }

  /** ... and is written as a clean text. */
  lemma DescClean(d: Desc, order: seq<seq<byte>>)
    requires IsOrderOf(order, d.location.ui) && AsciiDesc(d)
    ensures Clean(Serialize(DescValue(d, order)))
  {
    var v := DescValue(d, order);
    DescAscii(d, order);
    AsciiDocWellFormed(v);
    SerializeClean(v);
  }

  // ---------------------------------------------------------------------------
  // The `DESC` static

  /** The framework's descriptor slot: empty until `set_desc`. */
  class DescSlot {
    var desc: Option<Desc>

    constructor ()
      ensures desc == None
    {
      desc := None;
    }

    /** `set_desc`: the slot holds `d`, whatever it held before. */
    method SetDesc(d: Desc)
      modifies this
      ensures desc == Some(d)
    {
      desc := Some(d);
    }
  }
}
