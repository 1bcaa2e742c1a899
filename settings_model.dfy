/** The vocabulary of the settings engine: store names, the settings store as
    the engine reads it, resource ids, platform inputs and the setting
    descriptors the engine emits. The descriptor classes and the store live in
    another package; only the shape the engine relies on is modelled here. */
module SettingsModel {
  import opened Kotlin
  import opened Decimal
  import opened MenuTags
  import Settings

  // ---------------------------------------------------------------------------
  // Store names

  /** A store key or section name. `SettingsFile.KEY_*` and `Settings.SECTION_*`
      are opaque strings, so a name is kept as the id of the constant it is
      spelled with plus the decimal suffix the engine appends to it
      (`KEY_GCPAD_TYPE + i`); distinct names denote distinct strings. */
  datatype Name = Name(symbol: int, suffix: string)

  /** A constant used as it is. */
  function Key(symbol: int): (n: Name)
    ensures n.symbol == symbol && n.suffix == ""
  {
    Name(symbol, "")
  }

  /** A constant with an integer appended, as Kotlin's `String + Int` does. */
  function Indexed(symbol: int, i: int): (n: Name)
    ensures n.symbol == symbol && |n.suffix| > 0 && (i < 0 <==> n.suffix[0] == '-')
  {
    Name(symbol, IntToString(i))
  }

  const IniCore := Key(Settings.SECTION_INI_CORE)
  const IniDsp := Key(Settings.SECTION_INI_DSP)
  const IniInterface := Key(Settings.SECTION_INI_INTERFACE)
  const GfxHardware := Key(Settings.SECTION_GFX_HARDWARE)
  const GfxSettings := Key(Settings.SECTION_GFX_SETTINGS)
  const GfxEnhancements := Key(Settings.SECTION_GFX_ENHANCEMENTS)
  const GfxHacks := Key(Settings.SECTION_GFX_HACKS)
  const DebugSection := Key(Settings.SECTION_DEBUG)
  const Bindings := Key(Settings.SECTION_BINDINGS)
  const Controls := Key(Settings.SECTION_CONTROLS)

  // ---------------------------------------------------------------------------
  // The settings store

  /** A stored setting, by the class the store gives it. */
  datatype Value = BoolValue(b: bool) | IntValue(i: int) | FloatValue(f: real) | StringValue(s: string)

  /** The settings object: sections by name, each a map from keys to values. */
  type Section = map<Name, Value>
  type Store = map<Name, Section>

  /** `settings.getSection(name)`: a section that was never written is empty. */
  function GetSection(store: Store, section: Name): (s: Section)
    ensures section in store ==> s == store[section]
    ensures section !in store ==> s == map[]
  {
    if section in store then store[section] else map[]
  }

  /** `section.getSetting(key)`: the stored value, or null. */
  function GetSetting(section: Section, key: Name): (v: Option<Value>)
    ensures v.Some? <==> key in section
    ensures v.Some? ==> v.value == section[key]
  {
    if key in section then Some(section[key]) else None
  }

  /** The value under `key` in section `section`, or null. */
  function Lookup(store: Store, section: Name, key: Name): Option<Value> {
    GetSetting(GetSection(store, section), key)
  }

  // ---------------------------------------------------------------------------
  // Resources and platform inputs

  /** An Android resource id (`R.string.*`, `R.array.*`): a plain integer, so
      `R.string.controller_0 + i` is integer addition. The id 0 stands for "no
      description". */
  type ResId = int

  /** Android 9 (`Build.VERSION_CODES.P`). */
  const AndroidP: int := 28

  /** The CPU-core id that `NativeLibrary.DefaultCPUCore()` reports on AArch64. */
  const AArch64Core: int := 4

  /** The answers of the platform and native queries the engine makes. */
  datatype Platform = Platform(
    sdkInt: int,                 // Build.VERSION.SDK_INT
    gpuDriverLoaded: bool,       // activity.gpuDriver != null
    customDriverLoading: bool,   // GpuDriverHelper.supportsCustomDriverLoading()
    defaultCpuCore: int,         // NativeLibrary.DefaultCPUCore()
    defaultAudioBackend: string, // NativeLibrary.DefaultAudioBackend()
    audioBackends: seq<string>,  // NativeLibrary.GetAudioBackendList()
    shaders: seq<string>,        // PostProcessing.shaderList
    offLabel: string             // activity.getString(R.string.off)
  )

  /** Inputs of the controller menu that its code takes from names it never
      defines: the pad number (`gcPadNumber`) and the condition of the missing
      `if` in front of `} else // Adapter`. */
  datatype PadChoice = PadChoice(number: int, adapter: bool)

  // ---------------------------------------------------------------------------
  // Setting descriptors

  /** The menu a submenu row or a linked choice opens: an entry of the
      enumeration, a `MenuTag` constant the enumeration does not declare, or
      the result of the undefined `getGCPadMenuTag(i)` / `getWiimoteMenuTag(i)`. */
  datatype MenuLink = Declared(tag: MenuTag) | Undeclared(name: string) | GcPadMenu(slot: int) | WiimoteMenu(slot: int)

  /** What kind of row a descriptor is, with its kind-specific data. */
  datatype Kind =
    | Header                                                                  // HeaderSetting
    | Submenu(target: MenuLink)                                               // SubmenuSetting
    | CheckBox(defaultBool: bool)                                             // CheckBoxSetting
    | SingleChoice(choices: ResId, values: ResId, defaultInt: int, link: Option<MenuLink>) // SingleChoiceSetting
    | StringSingleChoice(entries: seq<string>, entryValues: seq<string>, defaultString: string) // StringSingleChoiceSetting
    | Slider(max: int, units: string, defaultSlider: int)                     // SliderSetting
    | InputBinding                                                            // InputBindingSetting
    | RumbleBinding                                                           // RumbleBindingSetting

  /** One row of a menu: the store key and section it reads and writes (null
      for headers and submenus), its title and description ids, its kind, and
      the current value it was given at assembly time. */
  datatype Item = Item(key: Option<Name>, section: Option<Name>, title: ResId, description: ResId,
                       kind: Kind, current: Option<Value>)

  function HeaderItem(title: ResId): Item {
    Item(None, None, title, 0, Header, None)
  }

  function SubmenuItem(title: ResId, target: MenuLink): Item {
    Item(None, None, title, 0, Submenu(target), None)
  }

  function CheckBoxItem(key: Name, section: Name, title: ResId, description: ResId, default: bool,
                        current: Option<Value>): Item {
    Item(Some(key), Some(section), title, description, CheckBox(default), current)
  }

  function SingleChoiceItem(key: Name, section: Name, title: ResId, description: ResId, choices: ResId,
                            values: ResId, default: int, current: Option<Value>,
                            link: Option<MenuLink>): Item {
    Item(Some(key), Some(section), title, description, SingleChoice(choices, values, default, link), current)
  }

  function StringSingleChoiceItem(key: Name, section: Name, title: ResId, description: ResId,
                                  entries: seq<string>, values: seq<string>, default: string,
                                  current: Option<Value>): Item {
    Item(Some(key), Some(section), title, description, StringSingleChoice(entries, values, default), current)
  }

  function SliderItem(key: Name, section: Name, title: ResId, description: ResId, max: int, units: string,
                      default: int, current: Option<Value>): Item {
    Item(Some(key), Some(section), title, description, Slider(max, units, default), current)
  }

  function InputBindingItem(key: Name, section: Name, title: ResId, current: Option<Value>): Item {
    Item(Some(key), Some(section), title, 0, InputBinding, current)
  }

  function RumbleBindingItem(key: Name, section: Name, title: ResId, current: Option<Value>): Item {
    Item(Some(key), Some(section), title, 0, RumbleBinding, current)
  }

  /** A presentation-only row: no key, no section, no value. */
  predicate IsHeader(item: Item) {
    item.kind.Header?
  }

  /** The join between reads and writes: a row with a key has a section too,
      and its current value is exactly what the store holds under that section
      and key; a row without a key carries no value. */
  predicate BoundToStore(item: Item, store: Store) {
    (item.key.Some? <==> item.section.Some?) &&
    (item.key.Some? ==> item.current == Lookup(store, item.section.value, item.key.value)) &&
    (item.key.None? ==> item.current.None?)
  }

  /** The shape the descriptor kinds call for: parallel choice lists of equal
      length, slider defaults within 0..max, and store keys exactly on the rows
      that are neither headers nor submenus. */
  predicate WellFormed(item: Item) {
    (item.key.None? <==> (item.kind.Header? || item.kind.Submenu?)) &&
    (item.kind.StringSingleChoice? ==> |item.kind.entries| == |item.kind.entryValues|) &&
    (item.kind.Slider? ==> 0 <= item.kind.defaultSlider <= item.kind.max)
  }

  predicate AllBound(items: seq<Item>, store: Store) {
    forall k :: 0 <= k < |items| ==> BoundToStore(items[k], store)
  }

  predicate AllWellFormed(items: seq<Item>) {
    forall k :: 0 <= k < |items| ==> WellFormed(items[k])
  }

  /** Whether some row of `items` uses store key `key`. */
  predicate HasKey(items: seq<Item>, key: Name) {
    exists k :: 0 <= k < |items| && items[k].key == Some(key)
  }
}
