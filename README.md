# ARMSX2 settings screen: menu tags and settings-list assembly

This project models two connected pieces of the Android settings screen of
ARMSX2 and proves properties of them in Dafny.

- **Menu tags** (`MenuTag.kt`). The enumeration has eight entries. Each
  entry has a tag string and a sub-type, where -1 means "none". `toString`
  serialises an entry. `getMenuTag(String?)` parses text back: it returns
  null for null or "", splits at the first `|`, reads the suffix with
  `toInt`, and looks the pair up in `entries`. A bad suffix raises
  NumberFormatException and an unknown pair raises IllegalArgumentException.
  These live in module `MenuTags`. The Kotlin `Int` rendering and
  `String.toInt` they rely on live in module `Decimal`.
- **Settings-list assembly** (`SettingsFragmentPresenter.kt`). For the
  current menu tag, `loadSettingsList` builds the ordered list of setting
  rows shown on the screen. Each `add*Settings` routine appends rows to the
  list `sl` one by one. Each row is given the value the settings store
  currently holds under its section and key.
  - Module `Menus` writes each routine's result as a function on lists,
    `XRows(sl, …) == sl + [row] + [row] …`.
  - Module `Presenter` holds the routines as methods that append step by
    step. Each is proved to produce exactly the matching `Menus` function.
  - Class `Presenter.SettingsFragmentPresenter` holds the fields that
    `onCreate` and `loadSettingsList` set.
  - Module `MenuProperties` proves what the menus promise: which rows
    appear and under which conditions, which store keys they use, where the
    headers sit, and how `loadSettingsList` ends.

Other modules:

- `Kotlin` holds nullable values, exceptions and `isNullOrEmpty`.
- `SettingsModel` holds store names, the store, resource ids, the platform
  inputs and the row datatype.
- `ids.dfy` gives the resource ids and store-name constants as distinct
  integers.

The store is a map from section names to maps from keys to values. A
section that was never written reads as empty. Platform and native queries
become fields of a `Platform` parameter:

- `Build.VERSION.SDK_INT`;
- the loaded GPU driver, and whether custom driver loading is supported;
- the default CPU core and the default audio backend;
- the audio backend list, the shader list and the "off" label.

Two behaviours of the code are easy to miss, and the model keeps both:

- **Interface menu, null game id.** `addInterfaceSettings` dereferences the
  game id with `gameId!!`. A null game id therefore raises
  NullPointerException, which escapes `loadSettingsList`. The other routines
  treat a null game id like an empty one.
- **Video backend getter.** `videoBackendValue` catches only
  NullPointerException. A stored backend setting of a class other than
  string raises ClassCastException, which escapes `loadSettingsList`.

## Model

| member | source | states |
|---|---|---|
| MenuTags.Render | app/src/main/java/kr/co/iefriends/pcsx2/settings/ui/MenuTag.kt:25-31 | The sentinel -1 gives the tag alone. Any other sub-type gives the tag, a '\|' and text that `toInt` reads back as that sub-type. |
| MenuTags.IndexOf | app/src/main/java/kr/co/iefriends/pcsx2/settings/ui/MenuTag.kt:40 | Gives -1 exactly when the character is absent; otherwise the position of its first occurrence. |
| MenuTags.Find | app/src/main/java/kr/co/iefriends/pcsx2/settings/ui/MenuTag.kt:49-51 | Gives no entry exactly when none matches both tag and sub-type; otherwise the first entry that matches. |
| MenuTags.RegistryWellFormed | app/src/main/java/kr/co/iefriends/pcsx2/settings/ui/MenuTag.kt:4-11 | Every value is a declared entry. Tags are non-empty, free of '\|' and pairwise distinct. |
| MenuTags.SerializeIsTag | app/src/main/java/kr/co/iefriends/pcsx2/settings/ui/MenuTag.kt:14-31 | Every entry keeps sub-type -1, so it serialises to exactly its tag. |
| MenuTags.ResolveExact | app/src/main/java/kr/co/iefriends/pcsx2/settings/ui/MenuTag.kt:48-56 | Lookup never substitutes an entry. It yields an entry with exactly the requested pair, and throws IllegalArgumentException exactly when no entry has that pair. |
| MenuTags.ResolveEntry | app/src/main/java/kr/co/iefriends/pcsx2/settings/ui/MenuTag.kt:48-52 | The pair of a declared entry resolves to that entry. |
| MenuTags.ParseAbsent | app/src/main/java/kr/co/iefriends/pcsx2/settings/ui/MenuTag.kt:35-37 | Parsing gives no menu exactly for null and "", never an exception. |
| MenuTags.ParseWithoutSeparator | app/src/main/java/kr/co/iefriends/pcsx2/settings/ui/MenuTag.kt:38-45 | Text with no '\|' is looked up as a whole, with sub-type -1. |
| MenuTags.ParseWithSeparator | app/src/main/java/kr/co/iefriends/pcsx2/settings/ui/MenuTag.kt:38-45 | Text up to the first '\|' is the tag. A suffix that is not a number throws NumberFormatException; a number is looked up as the sub-type. |
| MenuTags.ParseSecondSeparator | app/src/main/java/kr/co/iefriends/pcsx2/settings/ui/MenuTag.kt:40-43 | A second '\|' always gives NumberFormatException. |
| MenuTags.ParseRender | app/src/main/java/kr/co/iefriends/pcsx2/settings/ui/MenuTag.kt:25-46 | The rendering of any '\|'-free tag with any sub-type parses to the lookup of that same pair. |
| MenuTags.RoundTrip | app/src/main/java/kr/co/iefriends/pcsx2/settings/ui/MenuTag.kt:4-46 | Every entry parses back from its serialised form. |
| MenuTags.ParseResolvedSound | app/src/main/java/kr/co/iefriends/pcsx2/settings/ui/MenuTag.kt:34-56 | Text that parses to an entry is that entry's tag, alone or followed by '\|' and a number equal to -1. |
| MenuTags.ParseSentinelForm | app/src/main/java/kr/co/iefriends/pcsx2/settings/ui/MenuTag.kt:38-45 | A '\|'-free tag alone, or followed by '\|' and a number equal to -1, is looked up with sub-type -1. |
| MenuTags.ParseResolvedComplete | app/src/main/java/kr/co/iefriends/pcsx2/settings/ui/MenuTag.kt:34-56 | Text in either of those forms parses to the entry. |
| MenuTags.ParseResolvedIff | app/src/main/java/kr/co/iefriends/pcsx2/settings/ui/MenuTag.kt:34-56 | Text parses to an entry if and only if it has one of those two forms. |
| MenuTags.BogusIsNoTag | app/src/main/java/kr/co/iefriends/pcsx2/settings/ui/MenuTag.kt:4-11 | No entry has the tag "bogus". |
| MenuTags.ParseConfig | app/src/main/java/kr/co/iefriends/pcsx2/settings/ui/MenuTag.kt:34-52 | "config" resolves to CONFIG. |
| MenuTags.ParseConfigMinusOne | app/src/main/java/kr/co/iefriends/pcsx2/settings/ui/MenuTag.kt:38-52 | "config\|-1" resolves to CONFIG. |
| MenuTags.ParseConfigZero | app/src/main/java/kr/co/iefriends/pcsx2/settings/ui/MenuTag.kt:38-56 | "config\|0" throws IllegalArgumentException, because every entry has sub-type -1. |
| MenuTags.ParseUnknownTag | app/src/main/java/kr/co/iefriends/pcsx2/settings/ui/MenuTag.kt:48-56 | An unregistered tag throws IllegalArgumentException. |
| MenuTags.ParseNonNumeric | app/src/main/java/kr/co/iefriends/pcsx2/settings/ui/MenuTag.kt:41-44 | A non-numeric suffix throws NumberFormatException. |
| MenuTags.ParseTwoSeparators | app/src/main/java/kr/co/iefriends/pcsx2/settings/ui/MenuTag.kt:41-44 | "config\|1\|2" throws NumberFormatException, even though the tag is registered. |
| Decimal.NatToString | app/src/main/java/kr/co/iefriends/pcsx2/settings/ui/MenuTag.kt:27 | Gives a non-empty digit string with no leading zero. |
| Decimal.IntToString | app/src/main/java/kr/co/iefriends/pcsx2/settings/ui/MenuTag.kt:27 | Gives non-empty text that starts with '-' exactly for negative numbers and has only digits after that. |
| Decimal.ParseInt | app/src/main/java/kr/co/iefriends/pcsx2/settings/ui/MenuTag.kt:43 | `toInt` accepts only non-empty text that starts with a sign or a digit and has only digits after that, with a value within `Int` range. |
| Decimal.NatRoundTrip | app/src/main/java/kr/co/iefriends/pcsx2/settings/ui/MenuTag.kt:27 | Reading back the digits of a natural number gives that number. |
| Decimal.ParseRendered | app/src/main/java/kr/co/iefriends/pcsx2/settings/ui/MenuTag.kt:27-43 | `toInt` of the text of any `Int` gives that `Int` back. |
| Decimal.RenderInjective | app/src/main/java/kr/co/iefriends/pcsx2/settings/ui/SettingsFragmentPresenter.kt:421-457 | Distinct `Int`s render as distinct text, so index-suffixed keys never collide. |
| Decimal.ParseDigits | app/src/main/java/kr/co/iefriends/pcsx2/settings/ui/MenuTag.kt:43 | An unsigned digit string within range reads as its value. |
| Decimal.ParseSigned | app/src/main/java/kr/co/iefriends/pcsx2/settings/ui/MenuTag.kt:43 | A '-' or '+' followed by digits reads as the signed value when it is in range and is rejected otherwise; leading zeros are accepted, so "-01" reads as -1. |
| Decimal.ParseRejects | app/src/main/java/kr/co/iefriends/pcsx2/settings/ui/MenuTag.kt:43 | A non-digit after the first position makes `toInt` fail. |
| Decimal.ParseRejectsExamples | app/src/main/java/kr/co/iefriends/pcsx2/settings/ui/MenuTag.kt:43 | "", "-", "+", "notanumber" and "1\|2" are not numbers. |
| Decimal.ParseAcceptsExamples | app/src/main/java/kr/co/iefriends/pcsx2/settings/ui/MenuTag.kt:43 | "0", "-1" and "+7" read as 0, -1 and 7. |
| SettingsModel.Indexed | app/src/main/java/kr/co/iefriends/pcsx2/settings/ui/SettingsFragmentPresenter.kt:421-457 | `name + i` keeps the constant and appends a non-empty suffix, which starts with '-' exactly for negative i. |
| Menus.BackendOrdinal | app/src/main/java/kr/co/iefriends/pcsx2/settings/ui/SettingsFragmentPresenter.kt:1186-1202 | The result is in 0..3. It is 1, 2 or 3 exactly for "Vulkan", "Software Renderer" or "Null". |
| Menus.VideoBackendValue | app/src/main/java/kr/co/iefriends/pcsx2/settings/ui/SettingsFragmentPresenter.kt:1176-1208 | A missing setting gives 0 (the NullPointerException is caught). A stored string name gives `BackendOrdinal` of that name, so a value in 0..3. Any other class of setting raises ClassCastException, and nothing else fails. |
| Presenter.ArrayCopy | app/src/main/java/kr/co/iefriends/pcsx2/settings/ui/SettingsFragmentPresenter.kt:617 | `System.arraycopy` between distinct arrays: the copied range equals the source range, and the rest of the destination is unchanged. |
| Presenter.ArrayOf | app/src/main/java/kr/co/iefriends/pcsx2/settings/ui/SettingsFragmentPresenter.kt:208 | A fresh array holding exactly the given strings. |
| Presenter.CopyOfList | app/src/main/java/kr/co/iefriends/pcsx2/settings/ui/SettingsFragmentPresenter.kt:208-210 | The audio backend values are exactly the backend names. |
| Presenter.ShaderChoiceList | app/src/main/java/kr/co/iefriends/pcsx2/settings/ui/SettingsFragmentPresenter.kt:615-621 | The list is one longer than the shader list: the given first element, then the shaders in order. |
| Presenter.ShaderLists | app/src/main/java/kr/co/iefriends/pcsx2/settings/ui/SettingsFragmentPresenter.kt:614-621 | Builds exactly the entry list and the value list that `Menus.ShaderEntries` and `Menus.ShaderValues` specify. |
| Presenter.AddConfigSettings | app/src/main/java/kr/co/iefriends/pcsx2/settings/ui/SettingsFragmentPresenter.kt:56-65 | Appends exactly the eight submenu rows of `Menus.ConfigRows`. |
| Presenter.AddGeneralSettings | app/src/main/java/kr/co/iefriends/pcsx2/settings/ui/SettingsFragmentPresenter.kt:67-250 | Appends exactly the rows of `Menus.GeneralRows`. |
| Presenter.AddInterfaceSettings | app/src/main/java/kr/co/iefriends/pcsx2/settings/ui/SettingsFragmentPresenter.kt:252-309 | A null game id gives NullPointerException. Otherwise it appends exactly the rows of `Menus.InterfaceRows`. |
| Presenter.AddGcPadSettings | app/src/main/java/kr/co/iefriends/pcsx2/settings/ui/SettingsFragmentPresenter.kt:420-457 | The `0..3` loop appends exactly the four slot rows of `Menus.GcPadSettings`. |
| Presenter.AddWiimoteSettings | app/src/main/java/kr/co/iefriends/pcsx2/settings/ui/SettingsFragmentPresenter.kt:459-491 | The `0..3` loop appends exactly the four slot rows of `Menus.WiimoteSettings`. |
| Presenter.AddGraphicsSettings | app/src/main/java/kr/co/iefriends/pcsx2/settings/ui/SettingsFragmentPresenter.kt:493-563 | The getter's exception escapes before any row is appended. Otherwise it appends exactly the rows of `Menus.GraphicsRows` for the getter's ordinal. |
| Presenter.AddEnhanceSettings | app/src/main/java/kr/co/iefriends/pcsx2/settings/ui/SettingsFragmentPresenter.kt:565-712 | Appends exactly the rows of `Menus.EnhanceRows`, with the shader lists built by array copies. |
| Presenter.AddHackSettings | app/src/main/java/kr/co/iefriends/pcsx2/settings/ui/SettingsFragmentPresenter.kt:714-866 | Appends exactly the rows of `Menus.HackRows`. |
| Presenter.AddDebugSettings | app/src/main/java/kr/co/iefriends/pcsx2/settings/ui/SettingsFragmentPresenter.kt:868-960 | Appends exactly the rows of `Menus.DebugRows`. |
| Presenter.AddControllerSettings | app/src/main/java/kr/co/iefriends/pcsx2/settings/ui/SettingsFragmentPresenter.kt:962-1174 | Appends exactly the rows of `Menus.ControllerRows`: the bindings shape, or the adapter shape. |
| Presenter.BuildMenu | app/src/main/java/kr/co/iefriends/pcsx2/settings/ui/SettingsFragmentPresenter.kt:40-53 | The `when` runs the routine of the tag on a fresh list. The result is `Menus.MenuSettings`, exceptions included. |
| Presenter.SettingsFragmentPresenter.constructor | app/src/main/java/kr/co/iefriends/pcsx2/settings/ui/SettingsFragmentPresenter.kt:16-21 | The fields start as null, null, null, 0 and 0. |
| Presenter.SettingsFragmentPresenter.OnCreate | app/src/main/java/kr/co/iefriends/pcsx2/settings/ui/SettingsFragmentPresenter.kt:23-26 | Sets the menu tag and the game id, and leaves the other fields unchanged. |
| Presenter.SettingsFragmentPresenter.LoadSettingsList | app/src/main/java/kr/co/iefriends/pcsx2/settings/ui/SettingsFragmentPresenter.kt:39-54 | Always stores the settings object and changes no other field. The result is `Menus.Assemble` of the current fields. |
| MenuProperties.LoadNullIff | app/src/main/java/kr/co/iefriends/pcsx2/settings/ui/SettingsFragmentPresenter.kt:39-54 | The result is null if and only if no menu tag is set. Any exception that escapes is a NullPointerException or a ClassCastException. |
| MenuProperties.LoadListIff | app/src/main/java/kr/co/iefriends/pcsx2/settings/ui/SettingsFragmentPresenter.kt:39-54 | A list comes back if and only if a tag is set and one of two things holds: the tag is CONFIG, or a settings object is present and both exception conditions are avoided (interface with a null game id, graphics with a backend setting that is not a string). |
| MenuProperties.LoadCrashes | app/src/main/java/kr/co/iefriends/pcsx2/settings/ui/SettingsFragmentPresenter.kt:39-54 | Every tag but CONFIG raises NullPointerException when settings are null. The interface menu raises it when the game id is null. The graphics menu raises ClassCastException when the stored backend setting is not a string. |
| MenuProperties.GeneralSound | app/src/main/java/kr/co/iefriends/pcsx2/settings/ui/SettingsFragmentPresenter.kt:67-250 | On a sound list, the general menu appends only sound rows. A sound row carries the store's value under its own section and key, and has the shape its kind requires. |
| MenuProperties.EnhanceSound | app/src/main/java/kr/co/iefriends/pcsx2/settings/ui/SettingsFragmentPresenter.kt:565-712 | The enhancements menu keeps a list sound. |
| MenuProperties.HackSound | app/src/main/java/kr/co/iefriends/pcsx2/settings/ui/SettingsFragmentPresenter.kt:714-866 | The hacks menu keeps a list sound. |
| MenuProperties.ControllerSound | app/src/main/java/kr/co/iefriends/pcsx2/settings/ui/SettingsFragmentPresenter.kt:962-1174 | The controller menu keeps a list sound, in either shape. |
| MenuProperties.GraphicsSound | app/src/main/java/kr/co/iefriends/pcsx2/settings/ui/SettingsFragmentPresenter.kt:493-563 | Every graphics row is well formed. Every row but the backend choice, which carries the getter's ordinal, is bound to the store. |
| MenuProperties.MenuSound | app/src/main/java/kr/co/iefriends/pcsx2/settings/ui/SettingsFragmentPresenter.kt:42-52 | Every menu but the graphics one, when it succeeds, is sound. |
| MenuProperties.LoadSound | app/src/main/java/kr/co/iefriends/pcsx2/settings/ui/SettingsFragmentPresenter.kt:39-54 | Every list `loadSettingsList` returns for a non-graphics tag is sound with respect to the settings it was given. |
| MenuProperties.ConfigTargets | app/src/main/java/kr/co/iefriends/pcsx2/settings/ui/SettingsFragmentPresenter.kt:56-65 | The top-level menu has eight submenu rows. Their declared targets are exactly the tags other than CONFIG and CONTROLLER. |
| MenuProperties.GeneralShape | app/src/main/java/kr/co/iefriends/pcsx2/settings/ui/SettingsFragmentPresenter.kt:95-218 | The general menu has 20 rows. Row 0 is the CPU-core choice with the native default core as default. Its lists are the AArch64 pair exactly when that core is the AArch64 one, and the generic pair otherwise. Row 15 offers the native audio backends as labels and values, with the native default selected. Row 16 is the memory header. |
| MenuProperties.InterfaceShape | app/src/main/java/kr/co/iefriends/pcsx2/settings/ui/SettingsFragmentPresenter.kt:252-309 | Length is 4 + [SDK ≥ P] + [game id empty]. The panic-handler, OSD, title-database and back-button rows close the menu in that order. |
| MenuProperties.InterfaceCutoutIff | app/src/main/java/kr/co/iefriends/pcsx2/settings/ui/SettingsFragmentPresenter.kt:262-272 | The cutout toggle is present if and only if SDK ≥ Android 9. |
| MenuProperties.InterfaceDesignIff | app/src/main/java/kr/co/iefriends/pcsx2/settings/ui/SettingsFragmentPresenter.kt:275-285 | The design chooser is present if and only if the game id is empty. |
| MenuProperties.GcPadSound | app/src/main/java/kr/co/iefriends/pcsx2/settings/ui/SettingsFragmentPresenter.kt:420-457 | The four pad rows are sound. |
| MenuProperties.GcPadShape | app/src/main/java/kr/co/iefriends/pcsx2/settings/ui/SettingsFragmentPresenter.kt:420-457 | There are exactly four rows, titled `controller_0 + i` and linked to pad menu i. Globally the key is `KEY_GCPAD_TYPE + i` in the core section; per game it is `KEY_GCPAD_G_TYPE + i` in the controls section. |
| MenuProperties.GcPadKeysDistinct | app/src/main/java/kr/co/iefriends/pcsx2/settings/ui/SettingsFragmentPresenter.kt:420-457 | Distinct slots never share a key. |
| MenuProperties.WiimoteSound | app/src/main/java/kr/co/iefriends/pcsx2/settings/ui/SettingsFragmentPresenter.kt:459-491 | The four Wiimote rows are sound. |
| MenuProperties.WiimoteShape | app/src/main/java/kr/co/iefriends/pcsx2/settings/ui/SettingsFragmentPresenter.kt:459-491 | There are exactly four rows, titled `wiimote_4 + i` and linked to Wiimote menu i + 4. Globally the key is `KEY_WIIMOTE_TYPE` in section `SECTION_WIIMOTE + (i + 1)`; per game it is `KEY_WIIMOTE_G_TYPE + i` in the controls section. |
| MenuProperties.WiimoteLocationsDistinct | app/src/main/java/kr/co/iefriends/pcsx2/settings/ui/SettingsFragmentPresenter.kt:459-491 | Distinct slots never share a (section, key) location. |
| MenuProperties.GraphicsShape | app/src/main/java/kr/co/iefriends/pcsx2/settings/ui/SettingsFragmentPresenter.kt:493-563 | There are 7 rows, plus the GPU-driver submenu. The submenu is present if and only if a driver is loaded, the game id is null or empty, and custom drivers are supported. Row 0 shows the backend ordinal. |
| MenuProperties.GraphicsBackendRow | app/src/main/java/kr/co/iefriends/pcsx2/settings/ui/SettingsFragmentPresenter.kt:493-512 | When the getter succeeds, the graphics list is returned and its first row shows the getter's ordinal. |
| MenuProperties.GraphicsStoredBackend | app/src/main/java/kr/co/iefriends/pcsx2/settings/ui/SettingsFragmentPresenter.kt:493-512 | When the store holds a backend name, the graphics list is returned and its first row shows that name's ordinal. |
| MenuProperties.GraphicsBackendExamples | app/src/main/java/kr/co/iefriends/pcsx2/settings/ui/SettingsFragmentPresenter.kt:1176-1208 | A stored "Vulkan" shows as 1 in the graphics menu; no stored backend shows as 0. |
| MenuProperties.ShaderListsShape | app/src/main/java/kr/co/iefriends/pcsx2/settings/ui/SettingsFragmentPresenter.kt:614-621 | Both lists have length \|shaders\| + 1. They start with the "off" label and "" respectively, followed by the shaders in order. |
| MenuProperties.EnhanceShape | app/src/main/java/kr/co/iefriends/pcsx2/settings/ui/SettingsFragmentPresenter.kt:565-712 | There are 14 rows. Row 3 is the post-shader choice over those lists, with default "". |
| MenuProperties.HackShape | app/src/main/java/kr/co/iefriends/pcsx2/settings/ui/SettingsFragmentPresenter.kt:736-865 | There are 19 rows. Headers are exactly at 0, 6, 9 and 13, titled embedded frame buffer, texture cache, external frame buffer and other, and carry no key, section or value. The other 15 rows are checkboxes or choices. |
| MenuProperties.DebugShape | app/src/main/java/kr/co/iefriends/pcsx2/settings/ui/SettingsFragmentPresenter.kt:868-960 | The warning header comes first, then ten checkboxes in the debug section, each off by default. |
| MenuProperties.ControllerBindingsShape | app/src/main/java/kr/co/iefriends/pcsx2/settings/ui/SettingsFragmentPresenter.kt:1004-1153 | In the bindings shape there are 29 rows, with headers exactly at 0, 7, 12, 17, 22 and 27. Every other row is in the bindings section under a key suffixed with the pad number. |
| MenuProperties.ControllerAdapterShape | app/src/main/java/kr/co/iefriends/pcsx2/settings/ui/SettingsFragmentPresenter.kt:1154-1173 | In the adapter shape there are two rows: the rumble and bongo checkboxes, in the core section under pad-suffixed keys, off by default. |
| MenuProperties.BackendOrdinalTable | app/src/main/java/kr/co/iefriends/pcsx2/settings/ui/SettingsFragmentPresenter.kt:1186-1202 | "OGL", "Vulkan", "Software Renderer" and "Null" map to 0 to 3. Other names, case included, map to 0. |

## Left out

- The view holders (`InputBindingSettingViewHolder.kt`, `HeaderViewHolder.kt`) and `onAttach` / `activity.setSettings` are left out. They are Android UI and lifecycle code.
- `addGameCubeSettings` and `addWiiSettings` are left out because dispatch never reaches them. `addGcPadSettings` and `addWiimoteSettings` are not reached either, but are modelled as standalone routines.
- `getGCPadMenuTag`, `getWiimoteMenuTag` and the tags `CONFIG_GAME_CUBE`, `CONFIG_WII` and `GPU_DRIVERS` are not defined in the sources. A row that links to one records the link as a `MenuLink` value and gives it no meaning.
- The controller routine reads an undefined `gcPadNumber` and has an `else` with no `if`. Both are inputs (`PadChoice`). The unused `controllerNumber` parameter is left out.
- Decimal.ParseInt: it accepts only ASCII digits, while the JVM also accepts other Unicode decimal digits.
- The settings store, `getSection`, `getSetting` and the descriptor classes come from another package. They are an abstract map read plus a row datatype, and no constructor validation is claimed.
- Resource ids and `SettingsFile.KEY_*` / `Settings.SECTION_*` names are opaque. They are modelled as distinct integers, not as their real values.
- Platform and native queries are parameters: SDK level, GPU driver, default core and audio backend, backend and shader lists, and the "off" label.
- Presenter.ArrayCopy: it requires in-bounds ranges and distinct arrays, the only way the routines call it. The exceptions `System.arraycopy` raises otherwise are not modelled.
- The null elements of `arrayOfNulls` are not modelled. Every slot is overwritten before the array is read.
- Every `settings!!` check happens in `loadSettingsList` before dispatch. Each routine except the top-level one makes that check before it appends anything, so nothing observable changes.
- Presenter.BuildMenu: it creates the fresh list itself; in the source, `loadSettingsList` creates `sl`.
- MenuProperties.GraphicsSound: the backend choice row is not bound to the store. Its current value is the getter's ordinal, not a stored value.
- MenuProperties.LoadSound: graphics is excluded for the same reason.
