/** Properties of the menus of the settings screen and of their dispatch:
    which rows appear under which conditions, in which order, under which
    store keys, and how `loadSettingsList` ends. */
module MenuProperties {
  import opened Kotlin
  import opened Decimal
  import opened MenuTags
  import opened SettingsModel
  import SettingsFile
  import Settings
  import RString
  import RArray
  import opened Menus

  // ---------------------------------------------------------------------------
  // Dispatch

  /** `loadSettingsList` returns null exactly when no menu tag is set, and
      otherwise either a list or one of the two exceptions that escape it. */
  lemma LoadNullIff(menuTag: Option<MenuTag>, gameId: Option<string>, settings: Option<Store>,
                    platform: Platform, choice: PadChoice)
    ensures Assemble(menuTag, gameId, settings, platform, choice).NoList? <==> menuTag.None?
    ensures Assemble(menuTag, gameId, settings, platform, choice).Crashed? ==>
              Assemble(menuTag, gameId, settings, platform, choice).error == NullPointerException ||
              Assemble(menuTag, gameId, settings, platform, choice).error == ClassCastException
  {
  }

  /** When `loadSettingsList` yields a list: for the top-level menu always, and
      for any other menu given a settings object, unless the interface menu
      meets a null game id or the graphics menu a stored backend of another
      class than string. */
  lemma LoadListIff(menuTag: Option<MenuTag>, gameId: Option<string>, settings: Option<Store>,
                    platform: Platform, choice: PadChoice)
    ensures Assemble(menuTag, gameId, settings, platform, choice).List? <==>
              menuTag.Some? &&
              (menuTag.value == Config ||
               (settings.Some? &&
                (menuTag.value == ConfigInterface ==> gameId.Some?) &&
                (menuTag.value == Graphics ==> VideoBackendValue(settings.value).Success?)))
  {
  }

  /** Any menu tag other than the top-level one makes `loadSettingsList`
      raise NullPointerException when the settings object is null; a stored
      video backend of another class than string makes the graphics menu
      raise ClassCastException. */
  lemma LoadCrashes(tag: MenuTag, gameId: Option<string>, store: Store, platform: Platform, choice: PadChoice)
    ensures tag != Config ==> Assemble(Some(tag), gameId, None, platform, choice) == Crashed(NullPointerException)
    ensures Assemble(Some(ConfigInterface), None, Some(store), platform, choice) == Crashed(NullPointerException)
    ensures Lookup(store, IniCore, Key(SettingsFile.KEY_VIDEO_BACKEND)).Some? &&
            !Lookup(store, IniCore, Key(SettingsFile.KEY_VIDEO_BACKEND)).value.StringValue? ==>
              Assemble(Some(Graphics), gameId, Some(store), platform, choice) == Crashed(ClassCastException)
  {
    MenuSettingsInterface(None, store, platform, choice);
    MenuSettingsGraphics(gameId, store, platform, choice);
  }

  // ---------------------------------------------------------------------------
  // Every row is bound to the store and well formed

  /** Every row of `items` carries the value the store holds under its own
      section and key, and has the shape its kind calls for. */
  predicate Sound(items: seq<Item>, store: Store) {
    AllBound(items, store) && AllWellFormed(items)
  }

  lemma ConfigSound(sl: seq<Item>, store: Store)
    requires Sound(sl, store)
    ensures Sound(ConfigRows(sl), store)
  {
  }

  lemma GeneralCpuSound(sl: seq<Item>, store: Store, platform: Platform)
    requires Sound(sl, store)
    ensures Sound(GeneralCpuRows(sl, store, platform), store)
  {
  }

  lemma GeneralEmulationSound(sl: seq<Item>, store: Store)
    requires Sound(sl, store)
    ensures Sound(GeneralEmulationRows(sl, store), store)
  {
  }

  lemma GeneralMiscSound(sl: seq<Item>, store: Store, platform: Platform)
    requires Sound(sl, store)
    ensures Sound(GeneralMiscRows(sl, store, platform), store)
  {
  }

  lemma GeneralMemorySound(sl: seq<Item>, store: Store)
    requires Sound(sl, store)
    ensures Sound(GeneralMemoryRows(sl, store), store)
  {
  }

  /** The general menu appends only sound rows. */
  lemma GeneralSound(sl: seq<Item>, store: Store, platform: Platform)
    requires Sound(sl, store)
    ensures Sound(GeneralRows(sl, store, platform), store)
  {
    GeneralCpuSound(sl, store, platform);
    var s1 := GeneralCpuRows(sl, store, platform);
    GeneralEmulationSound(s1, store);
    var s2 := GeneralEmulationRows(s1, store);
    GeneralMiscSound(s2, store, platform);
    GeneralMemorySound(GeneralMiscRows(s2, store, platform), store);
  }

  lemma InterfaceSound(sl: seq<Item>, store: Store, sdkInt: int, gameId: string)
    requires Sound(sl, store)
    ensures Sound(InterfaceRows(sl, store, sdkInt, gameId), store)
  {
  }

  lemma GcPadSound(store: Store, gameId: Option<string>)
    ensures Sound(GcPadSettings(store, gameId), store)
  {
  }

  lemma WiimoteSound(store: Store, gameId: Option<string>)
    ensures Sound(WiimoteSettings(store, gameId), store)
  {
  }

  /** Every row of the graphics menu is well formed, and every row but the
      backend choice, which carries the ordinal it was given, is bound to the
      store. */
  lemma GraphicsSound(sl: seq<Item>, store: Store, platform: Platform, gameId: Option<string>, videoBackend: int)
    requires Sound(sl, store)
    ensures AllWellFormed(GraphicsRows(sl, store, platform, gameId, videoBackend))
    ensures forall k :: 0 <= k < |GraphicsRows(sl, store, platform, gameId, videoBackend)| && k != |sl| ==>
              BoundToStore(GraphicsRows(sl, store, platform, gameId, videoBackend)[k], store)
  {
  }

  lemma EnhanceScalingSound(sl: seq<Item>, store: Store, platform: Platform)
    requires Sound(sl, store)
    ensures Sound(EnhanceScalingRows(sl, store, platform), store)
  {
  }

  lemma EnhanceTextureSound(sl: seq<Item>, store: Store)
    requires Sound(sl, store)
    ensures Sound(EnhanceTextureRows(sl, store), store)
  {
  }

  lemma EnhanceColorSound(sl: seq<Item>, store: Store)
    requires Sound(sl, store)
    ensures Sound(EnhanceColorRows(sl, store), store)
  {
  }

  /** The enhancements menu appends only sound rows. */
  lemma EnhanceSound(sl: seq<Item>, store: Store, platform: Platform)
    requires Sound(sl, store)
    ensures Sound(EnhanceRows(sl, store, platform), store)
  {
    EnhanceScalingSound(sl, store, platform);
    var s1 := EnhanceScalingRows(sl, store, platform);
    EnhanceTextureSound(s1, store);
    EnhanceColorSound(EnhanceTextureRows(s1, store), store);
  }

  lemma EfbHackSound(sl: seq<Item>, store: Store)
    requires Sound(sl, store)
    ensures Sound(EfbHackRows(sl, store), store)
  {
  }

  lemma TextureCacheHackSound(sl: seq<Item>, store: Store)
    requires Sound(sl, store)
    ensures Sound(TextureCacheHackRows(sl, store), store)
  {
  }

  lemma XfbHackSound(sl: seq<Item>, store: Store)
    requires Sound(sl, store)
    ensures Sound(XfbHackRows(sl, store), store)
  {
  }

  lemma OtherHackSound(sl: seq<Item>, store: Store)
    requires Sound(sl, store)
    ensures Sound(OtherHackRows(sl, store), store)
  {
  }

  /** The hacks menu appends only sound rows. */
  lemma HackSound(sl: seq<Item>, store: Store)
    requires Sound(sl, store)
    ensures Sound(HackRows(sl, store), store)
  {
    EfbHackSound(sl, store);
    var s1 := EfbHackRows(sl, store);
    TextureCacheHackSound(s1, store);
    var s2 := TextureCacheHackRows(s1, store);
    XfbHackSound(s2, store);
    OtherHackSound(XfbHackRows(s2, store), store);
  }

  lemma DebugSound(sl: seq<Item>, store: Store)
    requires Sound(sl, store)
    ensures Sound(DebugRows(sl, store), store)
  {
  }

  lemma ButtonSound(sl: seq<Item>, store: Store, pad: int)
    requires Sound(sl, store)
    ensures Sound(ButtonRows(sl, store, pad), store)
  {
  }

  lemma ControlStickSound(sl: seq<Item>, store: Store, pad: int)
    requires Sound(sl, store)
    ensures Sound(ControlStickRows(sl, store, pad), store)
  {
  }

  lemma CStickSound(sl: seq<Item>, store: Store, pad: int)
    requires Sound(sl, store)
    ensures Sound(CStickRows(sl, store, pad), store)
  {
  }

  lemma TriggerSound(sl: seq<Item>, store: Store, pad: int)
    requires Sound(sl, store)
    ensures Sound(TriggerRows(sl, store, pad), store)
  {
  }

  lemma DpadSound(sl: seq<Item>, store: Store, pad: int)
    requires Sound(sl, store)
    ensures Sound(DpadRows(sl, store, pad), store)
  {
  }

  lemma RumbleSound(sl: seq<Item>, store: Store, pad: int)
    requires Sound(sl, store)
    ensures Sound(RumbleRows(sl, store, pad), store)
  {
  }

  lemma AdapterSound(sl: seq<Item>, store: Store, pad: int)
    requires Sound(sl, store)
    ensures Sound(AdapterRows(sl, store, pad), store)
  {
  }

  /** The controller menu appends only sound rows, in either shape. */
  lemma ControllerSound(sl: seq<Item>, store: Store, choice: PadChoice)
    requires Sound(sl, store)
    ensures Sound(ControllerRows(sl, store, choice), store)
  {
    var pad := choice.number;
    if choice.adapter {
      AdapterSound(sl, store, pad);
    } else {
      ButtonSound(sl, store, pad);
      var s1 := ButtonRows(sl, store, pad);
      ControlStickSound(s1, store, pad);
      var s2 := ControlStickRows(s1, store, pad);
      CStickSound(s2, store, pad);
      var s3 := CStickRows(s2, store, pad);
      TriggerSound(s3, store, pad);
      var s4 := TriggerRows(s3, store, pad);
      DpadSound(s4, store, pad);
      RumbleSound(DpadRows(s4, store, pad), store, pad);
    }
  }

  /** Every menu but the graphics one is sound. */
  lemma MenuSound(tag: MenuTag, gameId: Option<string>, store: Store, platform: Platform, choice: PadChoice)
    requires tag != Graphics && MenuSettings(tag, gameId, store, platform, choice).Success?
    ensures Sound(MenuSettings(tag, gameId, store, platform, choice).value, store)
  {
    match tag
    case Config => MenuSettingsConfig(gameId, store, platform, choice); ConfigSound([], store);
    case ConfigGeneral => MenuSettingsGeneral(gameId, store, platform, choice); GeneralSound([], store, platform);
    case ConfigInterface =>
      MenuSettingsInterface(gameId, store, platform, choice);
      InterfaceSound([], store, platform.sdkInt, gameId.value);
    case Controller => MenuSettingsController(gameId, store, platform, choice); ControllerSound([], store, choice);
    case Enhancements => MenuSettingsEnhancements(gameId, store, platform, choice); EnhanceSound([], store, platform);
    case Hacks => MenuSettingsHacks(gameId, store, platform, choice); HackSound([], store);
    case Debug => MenuSettingsDebug(gameId, store, platform, choice); DebugSound([], store);
  }

  /** Every list `loadSettingsList` yields is sound, but for the backend
      choice of the graphics menu. */
  lemma LoadSound(menuTag: Option<MenuTag>, gameId: Option<string>, settings: Option<Store>,
                  platform: Platform, choice: PadChoice)
    requires settings.Some? && menuTag != Some(Graphics)
    requires Assemble(menuTag, gameId, settings, platform, choice).List?
    ensures Sound(Assemble(menuTag, gameId, settings, platform, choice).items, settings.value)
  {
    MenuSound(menuTag.value, gameId, settings.value, platform, choice);
  }

  // ---------------------------------------------------------------------------
  // The top-level menu

  /** The top-level menu has eight submenu rows and no setting; its declared
      targets are exactly the menus other than itself and the controller menu,
      so every one of those is reachable from it. */
  lemma ConfigTargets()
    ensures |ConfigSettings()| == 8
    ensures forall k :: 0 <= k < 8 ==> ConfigSettings()[k].kind.Submenu?
    ensures forall t: MenuTag ::
              (exists k :: 0 <= k < 8 && ConfigSettings()[k].kind.target == Declared(t)) <==>
              t != Config && t != Controller
  {
    var c := ConfigSettings();
    forall t: MenuTag | t != Config && t != Controller
      ensures exists k :: 0 <= k < 8 && c[k].kind.target == Declared(t)
    {
      var k := match t
        case ConfigGeneral => 0
        case ConfigInterface => 1
        case Graphics => 2
        case Enhancements => 3
        case Hacks => 4
        case Debug => 7
        case _ => 0;
      assert c[k].kind.target == Declared(t);
    }
  }

  // ---------------------------------------------------------------------------
  // The general menu

  /** The general menu has twenty rows. Its first row is the CPU-core choice
      with that core as default, over the AArch64 lists exactly when the native
      default core is the AArch64 one and over the generic lists otherwise; the
      audio backend row offers the backend names both as labels and as values,
      with the native default backend; a header opens the memory block. */
  lemma GeneralShape(store: Store, platform: Platform)
    ensures var g := GeneralSettings(store, platform);
            |g| == 20 &&
            g[0].key == Some(Key(SettingsFile.KEY_CPU_CORE)) && g[0].section == Some(IniCore) &&
            g[0].kind.SingleChoice? && g[0].kind.defaultInt == platform.defaultCpuCore && g[0].kind.link == None &&
            (var arm := (g[0].kind.choices, g[0].kind.values) == (RArray.emuCoresEntriesARM64, RArray.emuCoresValuesARM64);
             arm <==> platform.defaultCpuCore == AArch64Core) &&
            (platform.defaultCpuCore != AArch64Core ==>
               (g[0].kind.choices, g[0].kind.values) == (RArray.emuCoresEntriesGeneric, RArray.emuCoresValuesGeneric)) &&
            g[15].key == Some(Key(SettingsFile.KEY_AUDIO_BACKEND)) && g[15].section == Some(IniDsp) &&
            g[15].kind == StringSingleChoice(platform.audioBackends, platform.audioBackends,
                                             platform.defaultAudioBackend) &&
            IsHeader(g[16]) && g[16].title == RString.memory_override
  {
  }

  // ---------------------------------------------------------------------------
  // The interface menu

  /** The interface menu has the four fixed rows, plus one for the cutout
      toggle on Android 9 and later and one for the design chooser in the
      global context; the four fixed rows close the menu in a fixed order. */
  lemma InterfaceShape(store: Store, sdkInt: int, gameId: string)
    ensures var m := InterfaceSettings(store, sdkInt, gameId);
            |m| == 4 + (if sdkInt >= AndroidP then 1 else 0) + (if gameId == "" then 1 else 0) &&
            m[|m| - 4].key == Some(Key(SettingsFile.KEY_USE_PANIC_HANDLERS)) &&
            m[|m| - 3].key == Some(Key(SettingsFile.KEY_OSD_MESSAGES)) &&
            m[|m| - 2].key == Some(Key(SettingsFile.KEY_BUILTIN_TITLE_DATABASE)) &&
            m[|m| - 1].key == Some(Key(SettingsFile.KEY_SYSTEM_BACK)) &&
            m[|m| - 1].kind == InputBinding
  {
  }

  /** The cutout toggle is offered exactly from Android 9 on. */
  lemma InterfaceCutoutIff(store: Store, sdkInt: int, gameId: string)
    ensures HasKey(InterfaceSettings(store, sdkInt, gameId), Key(SettingsFile.KEY_EXPAND_TO_CUTOUT_AREA)) <==>
            sdkInt >= AndroidP
  {
    var m := InterfaceSettings(store, sdkInt, gameId);
    if sdkInt >= AndroidP {
      assert m[0].key == Some(Key(SettingsFile.KEY_EXPAND_TO_CUTOUT_AREA));
    } else {
      assert forall k :: 0 <= k < |m| ==> m[k].key != Some(Key(SettingsFile.KEY_EXPAND_TO_CUTOUT_AREA));
    }
  }

  /** The design chooser is offered exactly in the global context. */
  lemma InterfaceDesignIff(store: Store, sdkInt: int, gameId: string)
    ensures HasKey(InterfaceSettings(store, sdkInt, gameId), Key(SettingsFile.KEY_DESIGN)) <==> gameId == ""
  {
    var m := InterfaceSettings(store, sdkInt, gameId);
    var at := if sdkInt >= AndroidP then 1 else 0;
    if gameId == "" {
      assert m[at].key == Some(Key(SettingsFile.KEY_DESIGN));
    } else {
      assert forall k :: 0 <= k < |m| ==> m[k].key != Some(Key(SettingsFile.KEY_DESIGN));
    }
  }

  // ---------------------------------------------------------------------------
  // The controller-type menus

  /** The GameCube-pad menu has one choice row per slot 0..3, titled
      `controller_0 + i` and linked to pad menu i. Its key is
      `KEY_GCPAD_TYPE + i` in the core section globally and
      `KEY_GCPAD_G_TYPE + i` in the controls section per game. */
  lemma GcPadShape(store: Store, gameId: Option<string>)
    ensures |GcPadSettings(store, gameId)| == 4
    ensures forall i :: 0 <= i < 4 ==>
              GcPadSettings(store, gameId)[i].title == RString.controller_0 + i &&
              GcPadSettings(store, gameId)[i].kind ==
                SingleChoice(RArray.gcpadTypeEntries, RArray.gcpadTypeValues, 0, Some(GcPadMenu(i)))
    ensures IsNullOrEmpty(gameId) ==> forall i :: 0 <= i < 4 ==>
              GcPadSettings(store, gameId)[i].key == Some(Indexed(SettingsFile.KEY_GCPAD_TYPE, i)) &&
              GcPadSettings(store, gameId)[i].section == Some(IniCore)
    ensures !IsNullOrEmpty(gameId) ==> forall i :: 0 <= i < 4 ==>
              GcPadSettings(store, gameId)[i].key == Some(Indexed(SettingsFile.KEY_GCPAD_G_TYPE, i)) &&
              GcPadSettings(store, gameId)[i].section == Some(Controls)
  {
  }

  /** Distinct pad slots never share a store key. */
  lemma GcPadKeysDistinct(store: Store, gameId: Option<string>, i: Int32, j: Int32)
    requires i != j
    ensures GcPadSlot(store, gameId, i).key != GcPadSlot(store, gameId, j).key
  {
    if IntToString(i) == IntToString(j) {
      RenderInjective(i, j);
    }
  }

  /** The Wiimote menu has one choice row per slot 0..3, titled
      `wiimote_4 + i` and linked to Wiimote menu i + 4. Globally every slot
      uses the key `KEY_WIIMOTE_TYPE` in its own section
      `SECTION_WIIMOTE + (i + 1)`; per game it uses `KEY_WIIMOTE_G_TYPE + i` in
      the controls section. */
  lemma WiimoteShape(store: Store, gameId: Option<string>)
    ensures |WiimoteSettings(store, gameId)| == 4
    ensures forall i :: 0 <= i < 4 ==>
              WiimoteSettings(store, gameId)[i].title == RString.wiimote_4 + i &&
              WiimoteSettings(store, gameId)[i].kind ==
                SingleChoice(RArray.wiimoteTypeEntries, RArray.wiimoteTypeValues, 0, Some(WiimoteMenu(i + 4)))
    ensures IsNullOrEmpty(gameId) ==> forall i :: 0 <= i < 4 ==>
              WiimoteSettings(store, gameId)[i].key == Some(Key(SettingsFile.KEY_WIIMOTE_TYPE)) &&
              WiimoteSettings(store, gameId)[i].section == Some(Indexed(Settings.SECTION_WIIMOTE, i + 1))
    ensures !IsNullOrEmpty(gameId) ==> forall i :: 0 <= i < 4 ==>
              WiimoteSettings(store, gameId)[i].key == Some(Indexed(SettingsFile.KEY_WIIMOTE_G_TYPE, i)) &&
              WiimoteSettings(store, gameId)[i].section == Some(Controls)
  {
  }

  /** Distinct Wiimote slots never share a store location: their sections
      differ globally, their keys differ per game. */
  lemma WiimoteLocationsDistinct(store: Store, gameId: Option<string>, i: Int32, j: Int32)
    requires i != j && i < MaxInt && j < MaxInt
    ensures (WiimoteSlot(store, gameId, i).section, WiimoteSlot(store, gameId, i).key) !=
            (WiimoteSlot(store, gameId, j).section, WiimoteSlot(store, gameId, j).key)
  {
    if IntToString(i) == IntToString(j) {
      RenderInjective(i, j);
    }
    if IntToString(i + 1) == IntToString(j + 1) {
      RenderInjective(i + 1, j + 1);
    }
  }

  // ---------------------------------------------------------------------------
  // The graphics menu

  /** The graphics menu has seven rows plus the GPU-driver submenu, which it
      offers exactly when a driver is loaded, the context is global and the
      device supports custom drivers. Its first row carries the backend
      ordinal it was given. */
  lemma GraphicsShape(store: Store, platform: Platform, gameId: Option<string>, videoBackend: int)
    ensures var m := GraphicsSettings(store, platform, gameId, videoBackend);
            |m| == 7 + (if GpuDriverOffered(platform, gameId) then 1 else 0) &&
            m[0].key == Some(Key(SettingsFile.KEY_VIDEO_BACKEND_INDEX)) &&
            m[0].current == Some(IntValue(videoBackend))
    ensures (exists k :: 0 <= k < |GraphicsSettings(store, platform, gameId, videoBackend)| &&
               GraphicsSettings(store, platform, gameId, videoBackend)[k].kind == Submenu(Undeclared("GPU_DRIVERS")))
            <==> GpuDriverOffered(platform, gameId)
  {
    var m := GraphicsSettings(store, platform, gameId, videoBackend);
    if GpuDriverOffered(platform, gameId) {
      assert m[5].kind == Submenu(Undeclared("GPU_DRIVERS"));
    } else {
      assert forall k :: 0 <= k < |m| ==> !m[k].kind.Submenu?;
    }
  }

  /** The graphics menu of `loadSettingsList` shows the ordinal of the stored
      backend name, 0 when none is stored. */
  lemma GraphicsBackendRow(gameId: Option<string>, store: Store, platform: Platform, choice: PadChoice)
    requires VideoBackendValue(store).Success?
    ensures var r := Assemble(Some(Graphics), gameId, Some(store), platform, choice);
            r.List? && r.items[0].current == Some(IntValue(VideoBackendValue(store).value))
  {
    MenuSettingsGraphics(gameId, store, platform, choice);
    GraphicsShape(store, platform, gameId, VideoBackendValue(store).value);
  }

  /** The graphics menu shows the ordinal of the backend name the store holds. */
  lemma GraphicsStoredBackend(gameId: Option<string>, store: Store, platform: Platform, choice: PadChoice,
                              name: string)
    requires Lookup(store, IniCore, Key(SettingsFile.KEY_VIDEO_BACKEND)) == Some(StringValue(name))
    ensures var r := Assemble(Some(Graphics), gameId, Some(store), platform, choice);
            r.List? && r.items[0].current == Some(IntValue(BackendOrdinal(name)))
  {
    GraphicsBackendRow(gameId, store, platform, choice);
  }

  /** A stored "Vulkan" shows as 1; no stored backend shows as 0. */
  lemma GraphicsBackendExamples(gameId: Option<string>, store: Store, platform: Platform, choice: PadChoice)
    ensures Lookup(store, IniCore, Key(SettingsFile.KEY_VIDEO_BACKEND)) == Some(StringValue("Vulkan")) ==>
              Assemble(Some(Graphics), gameId, Some(store), platform, choice).items[0].current == Some(IntValue(1))
    ensures Lookup(store, IniCore, Key(SettingsFile.KEY_VIDEO_BACKEND)).None? ==>
              Assemble(Some(Graphics), gameId, Some(store), platform, choice).items[0].current == Some(IntValue(0))
  {
    if Lookup(store, IniCore, Key(SettingsFile.KEY_VIDEO_BACKEND)) == Some(StringValue("Vulkan")) {
      GraphicsStoredBackend(gameId, store, platform, choice, "Vulkan");
    }
    if Lookup(store, IniCore, Key(SettingsFile.KEY_VIDEO_BACKEND)).None? {
      GraphicsBackendRow(gameId, store, platform, choice);
    }
  }

  // ---------------------------------------------------------------------------
  // The enhancements menu

  /** Both shader choice lists are one longer than the shader list: the "off"
      label, resp. the empty name, followed by the shaders in order. */
  lemma ShaderListsShape(platform: Platform)
    ensures |ShaderEntries(platform)| == |ShaderValues(platform)| == |platform.shaders| + 1
    ensures ShaderEntries(platform)[0] == platform.offLabel && ShaderValues(platform)[0] == ""
    ensures forall k :: 1 <= k <= |platform.shaders| ==>
              ShaderEntries(platform)[k] == platform.shaders[k - 1] &&
              ShaderValues(platform)[k] == platform.shaders[k - 1]
  {
  }

  /** The enhancements menu has fourteen rows; its fourth is the
      post-processing shader choice over those lists, with the empty name (no
      shader) as default. */
  lemma EnhanceShape(store: Store, platform: Platform)
    ensures var m := EnhanceSettings(store, platform);
            |m| == 14 &&
            m[3].key == Some(Key(SettingsFile.KEY_POST_SHADER)) && m[3].section == Some(GfxEnhancements) &&
            m[3].kind == StringSingleChoice(ShaderEntries(platform), ShaderValues(platform), "")
  {
  }

  // ---------------------------------------------------------------------------
  // Headers and blocks

  /** The rows of `items` that are headers are exactly those at the positions
      in `at`. */
  predicate HeadersExactlyAt(items: seq<Item>, at: set<int>) {
    forall k :: 0 <= k < |items| ==> (IsHeader(items[k]) <==> k in at)
  }

  /** Every row of `items` is a header, a checkbox or a choice. */
  predicate SwitchesOnly(items: seq<Item>) {
    forall k :: 0 <= k < |items| ==>
      IsHeader(items[k]) || items[k].kind.CheckBox? || items[k].kind.SingleChoice?
  }

  /** Every row of `items` that is not a header is a binding in the bindings
      section under a key suffixed with the pad number. */
  predicate BindingsOf(items: seq<Item>, pad: int) {
    forall k :: 0 <= k < |items| && !IsHeader(items[k]) ==>
      items[k].section == Some(Bindings) && items[k].key.Some? &&
      items[k].key.value.suffix == IntToString(pad)
  }

  // ---------------------------------------------------------------------------
  // The hacks menu

  /** A block appends `n` rows to `sl`, the first of them a header titled
      `title` and no other a header. */
  predicate HeaderBlock(sl: seq<Item>, out: seq<Item>, n: int, at: set<int>, title: ResId) {
    0 < n && |out| == |sl| + n && HeadersExactlyAt(out, at + {|sl|}) && out[|sl|].title == title
  }

  lemma EfbHackShape(sl: seq<Item>, store: Store, at: set<int>)
    requires HeadersExactlyAt(sl, at) && SwitchesOnly(sl) && forall x :: x in at ==> x < |sl|
    ensures HeaderBlock(sl, EfbHackRows(sl, store), 6, at, RString.embedded_frame_buffer)
    ensures SwitchesOnly(EfbHackRows(sl, store))
  {
  }

  lemma TextureCacheHackShape(sl: seq<Item>, store: Store, at: set<int>)
    requires HeadersExactlyAt(sl, at) && SwitchesOnly(sl) && forall x :: x in at ==> x < |sl|
    ensures HeaderBlock(sl, TextureCacheHackRows(sl, store), 3, at, RString.texture_cache)
    ensures SwitchesOnly(TextureCacheHackRows(sl, store))
  {
  }

  lemma XfbHackShape(sl: seq<Item>, store: Store, at: set<int>)
    requires HeadersExactlyAt(sl, at) && SwitchesOnly(sl) && forall x :: x in at ==> x < |sl|
    ensures HeaderBlock(sl, XfbHackRows(sl, store), 4, at, RString.external_frame_buffer)
    ensures SwitchesOnly(XfbHackRows(sl, store))
  {
  }

  lemma OtherHackShape(sl: seq<Item>, store: Store, at: set<int>)
    requires HeadersExactlyAt(sl, at) && SwitchesOnly(sl) && forall x :: x in at ==> x < |sl|
    ensures HeaderBlock(sl, OtherHackRows(sl, store), 6, at, RString.other)
    ensures SwitchesOnly(OtherHackRows(sl, store))
  {
  }

  /** The hacks menu has nineteen rows: headers exactly at 0, 6, 9 and 13,
      titled embedded frame buffer, texture cache, external frame buffer and
      other, with no key, section or value; the fifteen others are checkboxes
      or choices. */
  lemma HackShape(store: Store)
    ensures |HackSettings(store)| == 19
    ensures forall k :: 0 <= k < 19 ==>
              (IsHeader(HackSettings(store)[k]) <==> k == 0 || k == 6 || k == 9 || k == 13)
    ensures HackSettings(store)[0].title == RString.embedded_frame_buffer &&
            HackSettings(store)[6].title == RString.texture_cache &&
            HackSettings(store)[9].title == RString.external_frame_buffer &&
            HackSettings(store)[13].title == RString.other
    ensures forall k :: 0 <= k < 19 && IsHeader(HackSettings(store)[k]) ==>
              HackSettings(store)[k].key.None? && HackSettings(store)[k].section.None? &&
              HackSettings(store)[k].current.None?
    ensures forall k :: 0 <= k < 19 && !IsHeader(HackSettings(store)[k]) ==>
              HackSettings(store)[k].kind.CheckBox? || HackSettings(store)[k].kind.SingleChoice?
  {
    var s0: seq<Item> := [];
    EfbHackShape(s0, store, {});
    var s1 := EfbHackRows(s0, store);
    TextureCacheHackShape(s1, store, {0});
    var s2 := TextureCacheHackRows(s1, store);
    XfbHackShape(s2, store, {0, 6});
    var s3 := XfbHackRows(s2, store);
    OtherHackShape(s3, store, {0, 6, 9});
    var s4 := OtherHackRows(s3, store);
    assert {0, 6, 9} + {13} == {0, 6, 9, 13};
    HackSound(s0, store);
  }

  // ---------------------------------------------------------------------------
  // The debug menu

  /** The debug menu is a warning header followed by ten switches in the debug
      section, all off by default. */
  lemma DebugShape(store: Store)
    ensures |DebugSettings(store)| == 11
    ensures IsHeader(DebugSettings(store)[0]) && DebugSettings(store)[0].title == RString.debug_warning
    ensures forall k :: 1 <= k < 11 ==>
              DebugSettings(store)[k].kind == CheckBox(false) &&
              DebugSettings(store)[k].section == Some(DebugSection)
  {
  }

  // ---------------------------------------------------------------------------
  // The controller menu

  lemma ButtonShape(sl: seq<Item>, store: Store, pad: int, at: set<int>)
    requires HeadersExactlyAt(sl, at) && BindingsOf(sl, pad) && forall x :: x in at ==> x < |sl|
    ensures HeaderBlock(sl, ButtonRows(sl, store, pad), 7, at, RString.generic_buttons)
    ensures BindingsOf(ButtonRows(sl, store, pad), pad)
  {
  }

  lemma ControlStickShape(sl: seq<Item>, store: Store, pad: int, at: set<int>)
    requires HeadersExactlyAt(sl, at) && BindingsOf(sl, pad) && forall x :: x in at ==> x < |sl|
    ensures HeaderBlock(sl, ControlStickRows(sl, store, pad), 5, at, RString.controller_control)
    ensures BindingsOf(ControlStickRows(sl, store, pad), pad)
  {
  }

  lemma CStickShape(sl: seq<Item>, store: Store, pad: int, at: set<int>)
    requires HeadersExactlyAt(sl, at) && BindingsOf(sl, pad) && forall x :: x in at ==> x < |sl|
    ensures HeaderBlock(sl, CStickRows(sl, store, pad), 5, at, RString.controller_c)
    ensures BindingsOf(CStickRows(sl, store, pad), pad)
  {
  }

  lemma TriggerShape(sl: seq<Item>, store: Store, pad: int, at: set<int>)
    requires HeadersExactlyAt(sl, at) && BindingsOf(sl, pad) && forall x :: x in at ==> x < |sl|
    ensures HeaderBlock(sl, TriggerRows(sl, store, pad), 5, at, RString.controller_trig)
    ensures BindingsOf(TriggerRows(sl, store, pad), pad)
  {
  }

  lemma DpadShape(sl: seq<Item>, store: Store, pad: int, at: set<int>)
    requires HeadersExactlyAt(sl, at) && BindingsOf(sl, pad) && forall x :: x in at ==> x < |sl|
    ensures HeaderBlock(sl, DpadRows(sl, store, pad), 5, at, RString.controller_dpad)
    ensures BindingsOf(DpadRows(sl, store, pad), pad)
  {
  }

  lemma RumbleShape(sl: seq<Item>, store: Store, pad: int, at: set<int>)
    requires HeadersExactlyAt(sl, at) && BindingsOf(sl, pad) && forall x :: x in at ==> x < |sl|
    ensures HeaderBlock(sl, RumbleRows(sl, store, pad), 2, at, RString.emulation_control_rumble)
    ensures BindingsOf(RumbleRows(sl, store, pad), pad)
  {
  }

  /** For an emulated pad the controller menu has twenty-nine rows: headers
      exactly at 0, 7, 12, 17, 22 and 27, and between them bindings in the
      bindings section whose keys carry the pad number as suffix. */
  lemma ControllerBindingsShape(store: Store, choice: PadChoice)
    requires !choice.adapter
    ensures |ControllerSettings(store, choice)| == 29
    ensures forall k :: 0 <= k < 29 ==>
              (IsHeader(ControllerSettings(store, choice)[k]) <==>
               k == 0 || k == 7 || k == 12 || k == 17 || k == 22 || k == 27)
    ensures BindingsOf(ControllerSettings(store, choice), choice.number)
  {
    var pad := choice.number;
    var s0: seq<Item> := [];
    ButtonShape(s0, store, pad, {});
    var s1 := ButtonRows(s0, store, pad);
    ControlStickShape(s1, store, pad, {0});
    var s2 := ControlStickRows(s1, store, pad);
    CStickShape(s2, store, pad, {0, 7});
    var s3 := CStickRows(s2, store, pad);
    TriggerShape(s3, store, pad, {0, 7, 12});
    var s4 := TriggerRows(s3, store, pad);
    DpadShape(s4, store, pad, {0, 7, 12, 17});
    var s5 := DpadRows(s4, store, pad);
    RumbleShape(s5, store, pad, {0, 7, 12, 17, 22});
    assert {0, 7, 12, 17, 22} + {27} == {0, 7, 12, 17, 22, 27};
  }

  /** For a pad behind the GameCube adapter the controller menu is its rumble
      and bongo switches in the core section, off by default. */
  lemma ControllerAdapterShape(store: Store, choice: PadChoice)
    requires choice.adapter
    ensures var m := ControllerSettings(store, choice);
            |m| == 2 &&
            m[0].key == Some(Indexed(SettingsFile.KEY_GCADAPTER_RUMBLE, choice.number)) &&
            m[1].key == Some(Indexed(SettingsFile.KEY_GCADAPTER_BONGOS, choice.number)) &&
            m[0].section == Some(IniCore) && m[1].section == Some(IniCore) &&
            m[0].kind == CheckBox(false) && m[1].kind == CheckBox(false)
  {
  }

  // ---------------------------------------------------------------------------
  // The video backend getter

  /** The backend names the getter knows, and a fallback to 0 for the rest. */
  lemma BackendOrdinalTable()
    ensures BackendOrdinal("OGL") == 0 && BackendOrdinal("Vulkan") == 1
    ensures BackendOrdinal("Software Renderer") == 2 && BackendOrdinal("Null") == 3
    ensures BackendOrdinal("D3D") == 0 && BackendOrdinal("") == 0 && BackendOrdinal("vulkan") == 0
  {
  }
}
