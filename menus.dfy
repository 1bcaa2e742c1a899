/** The menus of the settings screen. Each `add*Settings` routine of
    SettingsFragmentPresenter appends rows to the list `sl` it is given; its
    specification here is a function from that list to the list the routine
    leaves, with the appends in the routine's order, as a function of the
    store it reads and of the platform answers it asks for. The menu built
    from an empty list (`ConfigSettings()`, `HackSettings(store)`, ...) is
    what module MenuProperties states properties about; the routines
    themselves are the methods of module Presenter, proved to match. */
module Menus {
  import opened Kotlin
  import opened Decimal
  import opened MenuTags
  import opened SettingsModel
  import SettingsFile
  import Settings
  import RString
  import RArray

  // ---------------------------------------------------------------------------
  // The top-level menu

  /** `sl` followed by the eight submenu rows of the top-level menu, which
      reads no setting. Two of the targets name `MenuTag` constants the
      enumeration does not declare. */
  function ConfigRows(sl: seq<Item>): seq<Item> {
    sl
    + [SubmenuItem(RString.general_submenu, Declared(ConfigGeneral))]
    + [SubmenuItem(RString.interface_submenu, Declared(ConfigInterface))]
    + [SubmenuItem(RString.graphics_submenu, Declared(Graphics))]
    + [SubmenuItem(RString.enhancements_submenu, Declared(Enhancements))]
    + [SubmenuItem(RString.hacks_submenu, Declared(Hacks))]
    + [SubmenuItem(RString.gamecube_submenu, Undeclared("CONFIG_GAME_CUBE"))]
    + [SubmenuItem(RString.wii_submenu, Undeclared("CONFIG_WII"))]
    + [SubmenuItem(RString.debug_submenu, Declared(Debug))]
  }

  function ConfigSettings(): seq<Item> {
    ConfigRows([])
  }

  // ---------------------------------------------------------------------------
  // The general menu

  /** The CPU-core choice lists: the AArch64 table when the native default core
      is the AArch64 one, the generic table otherwise. */
  function CoreChoices(defaultCpuCore: int): (lists: (ResId, ResId))
    ensures defaultCpuCore == AArch64Core ==>
              lists == (RArray.emuCoresEntriesARM64, RArray.emuCoresValuesARM64)
    ensures defaultCpuCore != AArch64Core ==>
              lists == (RArray.emuCoresEntriesGeneric, RArray.emuCoresValuesGeneric)
  {
    if defaultCpuCore == AArch64Core then (RArray.emuCoresEntriesARM64, RArray.emuCoresValuesARM64)
    else (RArray.emuCoresEntriesGeneric, RArray.emuCoresValuesGeneric)
  }

  /** The CPU rows of the general menu: the core choice, dual core,
      overclocking and the speed limit. */
  function GeneralCpuRows(sl: seq<Item>, store: Store, platform: Platform): seq<Item> {
    var core := GetSection(store, IniCore);
    var coresEntries := CoreChoices(platform.defaultCpuCore).0;
    var coresValues := CoreChoices(platform.defaultCpuCore).1;
    sl
    + [SingleChoiceItem(Key(SettingsFile.KEY_CPU_CORE), IniCore, RString.cpu_core, 0,
          coresEntries, coresValues, platform.defaultCpuCore, GetSetting(core, Key(SettingsFile.KEY_CPU_CORE)), None)]
    + [CheckBoxItem(Key(SettingsFile.KEY_DUAL_CORE), IniCore, RString.dual_core, RString.dual_core_description, true,
          GetSetting(core, Key(SettingsFile.KEY_DUAL_CORE)))]
    + [CheckBoxItem(Key(SettingsFile.KEY_OVERCLOCK_ENABLE), IniCore, RString.overclock_enable, RString.overclock_enable_description, false,
          GetSetting(core, Key(SettingsFile.KEY_OVERCLOCK_ENABLE)))]
    + [SliderItem(Key(SettingsFile.KEY_OVERCLOCK_PERCENT), IniCore, RString.overclock_title, RString.overclock_title_description, 400, "%", 100,
          GetSetting(core, Key(SettingsFile.KEY_OVERCLOCK_PERCENT)))]
    + [SliderItem(Key(SettingsFile.KEY_SPEED_LIMIT), IniCore, RString.speed_limit, 0, 200, "%", 100,
          GetSetting(core, Key(SettingsFile.KEY_SPEED_LIMIT)))]
  }

  /** The emulation switches of the general menu. */
  function GeneralEmulationRows(sl: seq<Item>, store: Store): seq<Item> {
    var core := GetSection(store, IniCore);
    sl
    + [CheckBoxItem(Key(SettingsFile.KEY_SYNC_ON_SKIP_IDLE), IniCore, RString.sync_on_skip_idle, RString.sync_on_skip_idle_description, true,
          GetSetting(core, Key(SettingsFile.KEY_SYNC_ON_SKIP_IDLE)))]
    + [CheckBoxItem(Key(SettingsFile.KEY_MMU), IniCore, RString.mmu_enable, RString.mmu_enable_description, false,
          GetSetting(core, Key(SettingsFile.KEY_MMU)))]
    + [CheckBoxItem(Key(SettingsFile.KEY_FAST_DISC_SPEED), IniCore, RString.fast_disc_speed, RString.fast_disc_speed_description, false,
          GetSetting(core, Key(SettingsFile.KEY_FAST_DISC_SPEED)))]
    + [CheckBoxItem(Key(SettingsFile.KEY_JIT_FOLLOW_BRANCH), IniCore, RString.jit_follow_branch, RString.jit_follow_branch_description, true,
          GetSetting(core, Key(SettingsFile.KEY_JIT_FOLLOW_BRANCH)))]
    + [CheckBoxItem(Key(SettingsFile.KEY_OVERRIDE_REGION_SETTINGS), IniCore, RString.override_region_settings, 0, false,
          GetSetting(core, Key(SettingsFile.KEY_OVERRIDE_REGION_SETTINGS)))]
  }

  /** The display, cheat, disc and audio rows of the general menu. The audio
      backend values are a copy of the backend names. */
  function GeneralMiscRows(sl: seq<Item>, store: Store, platform: Platform): seq<Item> {
    var core := GetSection(store, IniCore);
    var hw := GetSection(store, GfxHardware);
    var dsp := GetSection(store, IniDsp);
    var audioValues := platform.audioBackends;
    sl
    + [CheckBoxItem(Key(SettingsFile.KEY_VSYNC), GfxHardware, RString.vsync, RString.vsync_description, false,
          GetSetting(hw, Key(SettingsFile.KEY_VSYNC)))]
    + [CheckBoxItem(Key(SettingsFile.KEY_ENABLE_CHEATS), IniCore, RString.enable_cheats, RString.enable_cheats_description, false,
          GetSetting(core, Key(SettingsFile.KEY_ENABLE_CHEATS)))]
    + [CheckBoxItem(Key(SettingsFile.KEY_AUTO_DISC_CHANGE), IniCore, RString.auto_disc_change, 0, false,
          GetSetting(core, Key(SettingsFile.KEY_AUTO_DISC_CHANGE)))]
    + [CheckBoxItem(Key(SettingsFile.KEY_AUDIO_STRETCH), IniCore, RString.audio_stretch, RString.audio_stretch_description, false,
          GetSetting(core, Key(SettingsFile.KEY_AUDIO_STRETCH)))]
    + [SliderItem(Key(SettingsFile.KEY_AUDIO_STRETCH_MAX_LATENCY), IniCore, RString.audio_stretch_max_latency, RString.audio_stretch_max_latency_description, 300, "", 80,
          GetSetting(core, Key(SettingsFile.KEY_AUDIO_STRETCH_MAX_LATENCY)))]
    + [StringSingleChoiceItem(Key(SettingsFile.KEY_AUDIO_BACKEND), IniDsp, RString.audio_backend, 0,
          platform.audioBackends, audioValues, platform.defaultAudioBackend,
          GetSetting(dsp, Key(SettingsFile.KEY_AUDIO_BACKEND)))]
  }

  /** The memory-override block of the general menu: its header, the switch
      and the two memory sizes. */
  function GeneralMemoryRows(sl: seq<Item>, store: Store): seq<Item> {
    var core := GetSection(store, IniCore);
    sl
    + [HeaderItem(RString.memory_override)]
    + [CheckBoxItem(Key(SettingsFile.KEY_RAM_OVERRIDE_ENABLE), IniCore, RString.enable_memory_size_override, RString.enable_memory_size_override_description, false,
          GetSetting(core, Key(SettingsFile.KEY_RAM_OVERRIDE_ENABLE)))]
    + [SliderItem(Key(SettingsFile.KEY_MEM1_SIZE), IniCore, RString.main_mem1_size, 0, 64, "MB", 24,
          GetSetting(core, Key(SettingsFile.KEY_MEM1_SIZE)))]
    + [SliderItem(Key(SettingsFile.KEY_MEM2_SIZE), IniCore, RString.main_mem2_size, 0, 128, "MB", 64,
          GetSetting(core, Key(SettingsFile.KEY_MEM2_SIZE)))]
  }

  /** `sl` followed by the general menu: CPU, emulation, audio and memory
      settings. */
  function GeneralRows(sl: seq<Item>, store: Store, platform: Platform): seq<Item> {
    GeneralMemoryRows(GeneralMiscRows(GeneralEmulationRows(GeneralCpuRows(sl, store, platform), store), store, platform), store)
  }

  function GeneralSettings(store: Store, platform: Platform): seq<Item> {
    GeneralRows([], store, platform)
  }

  // ---------------------------------------------------------------------------
  // The interface menu

  /** `sl` followed by the interface menu for a non-null game id: the
      display-cutout toggle on Android 9 and later, the design chooser in the
      global (empty game id) context, then four rows that are always shown. */
  function InterfaceRows(sl: seq<Item>, store: Store, sdkInt: int, gameId: string): seq<Item> {
    var ui := GetSection(store, IniInterface);
    var withCutout :=
      if sdkInt >= AndroidP then
        sl
        + [CheckBoxItem(Key(SettingsFile.KEY_EXPAND_TO_CUTOUT_AREA), IniInterface, RString.expand_to_cutout_area, RString.expand_to_cutout_area_description, false,
              GetSetting(ui, Key(SettingsFile.KEY_EXPAND_TO_CUTOUT_AREA)))]
      else sl;
    var withDesign :=
      if gameId == "" then
        withCutout
        + [SingleChoiceItem(Key(SettingsFile.KEY_DESIGN), IniInterface, RString.design, 0,
              RArray.designNames, RArray.designValues, 2, GetSetting(ui, Key(SettingsFile.KEY_DESIGN)), None)]
      else withCutout;
    withDesign
    + [CheckBoxItem(Key(SettingsFile.KEY_USE_PANIC_HANDLERS), IniInterface, RString.panic_handlers, RString.panic_handlers_description, true,
          GetSetting(ui, Key(SettingsFile.KEY_USE_PANIC_HANDLERS)))]
    + [CheckBoxItem(Key(SettingsFile.KEY_OSD_MESSAGES), IniInterface, RString.osd_messages, RString.osd_messages_description, true,
          GetSetting(ui, Key(SettingsFile.KEY_OSD_MESSAGES)))]
    + [CheckBoxItem(Key(SettingsFile.KEY_BUILTIN_TITLE_DATABASE), IniInterface, RString.use_builtin_title_database, 0, true,
          GetSetting(ui, Key(SettingsFile.KEY_BUILTIN_TITLE_DATABASE)))]
    + [InputBindingItem(Key(SettingsFile.KEY_SYSTEM_BACK), IniInterface, RString.system_back, GetSetting(ui, Key(SettingsFile.KEY_SYSTEM_BACK)))]
  }

  function InterfaceSettings(store: Store, sdkInt: int, gameId: string): seq<Item> {
    InterfaceRows([], store, sdkInt, gameId)
  }

  // ---------------------------------------------------------------------------
  // The controller-type menus

  /** Row `i` of the GameCube-pad loop. The global configuration (null or empty
      game id) uses `KEY_GCPAD_TYPE + i` in the core section; a per-game one
      uses `KEY_GCPAD_G_TYPE + i` in the controls section. */
  function GcPadSlot(store: Store, gameId: Option<string>, i: int): Item {
    if IsNullOrEmpty(gameId) then
      SingleChoiceItem(Indexed(SettingsFile.KEY_GCPAD_TYPE, i), IniCore, RString.controller_0 + i, 0,
        RArray.gcpadTypeEntries, RArray.gcpadTypeValues, 0,
        Lookup(store, IniCore, Indexed(SettingsFile.KEY_GCPAD_TYPE, i)), Some(GcPadMenu(i)))
    else
      SingleChoiceItem(Indexed(SettingsFile.KEY_GCPAD_G_TYPE, i), Controls, RString.controller_0 + i, 0,
        RArray.gcpadTypeEntries, RArray.gcpadTypeValues, 0,
        Lookup(store, Controls, Indexed(SettingsFile.KEY_GCPAD_G_TYPE, i)), Some(GcPadMenu(i)))
  }

  /** The GameCube-pad menu: one row per slot 0..3. */
  function GcPadSettings(store: Store, gameId: Option<string>): seq<Item> {
    seq(4, i => GcPadSlot(store, gameId, i))
  }

  /** Row `i` of the Wiimote loop. The global configuration keeps one key,
      `KEY_WIIMOTE_TYPE`, in the sections `SECTION_WIIMOTE + (i + 1)`; a
      per-game one uses `KEY_WIIMOTE_G_TYPE + i` in the controls section. Either
      way the row links to Wiimote menu `i + 4`. */
  function WiimoteSlot(store: Store, gameId: Option<string>, i: int): Item {
    if IsNullOrEmpty(gameId) then
      SingleChoiceItem(Key(SettingsFile.KEY_WIIMOTE_TYPE), Indexed(Settings.SECTION_WIIMOTE, i + 1), RString.wiimote_4 + i,
        0, RArray.wiimoteTypeEntries, RArray.wiimoteTypeValues, 0,
        Lookup(store, Indexed(Settings.SECTION_WIIMOTE, i + 1), Key(SettingsFile.KEY_WIIMOTE_TYPE)), Some(WiimoteMenu(i + 4)))
    else
      SingleChoiceItem(Indexed(SettingsFile.KEY_WIIMOTE_G_TYPE, i), Controls, RString.wiimote_4 + i, 0,
        RArray.wiimoteTypeEntries, RArray.wiimoteTypeValues, 0,
        Lookup(store, Controls, Indexed(SettingsFile.KEY_WIIMOTE_G_TYPE, i)), Some(WiimoteMenu(i + 4)))
  }

  /** The Wiimote menu: one row per slot 0..3. */
  function WiimoteSettings(store: Store, gameId: Option<string>): seq<Item> {
    seq(4, i => WiimoteSlot(store, gameId, i))
  }

  // ---------------------------------------------------------------------------
  // The graphics menu

  /** The condition under which the graphics menu offers the GPU-driver
      submenu: a driver is loaded, the context is global, and the device
      supports loading a custom driver. */
  predicate GpuDriverOffered(platform: Platform, gameId: Option<string>) {
    platform.gpuDriverLoaded && IsNullOrEmpty(gameId) && platform.customDriverLoading
  }

  /** `sl` followed by the graphics menu, given the backend ordinal computed
      from the store. The backend row carries a fresh integer setting that
      holds the ordinal, not a stored value. */
  function GraphicsRows(sl: seq<Item>, store: Store, platform: Platform, gameId: Option<string>,
                        videoBackend: int): seq<Item> {
    var gfx := GetSection(store, GfxSettings);
    var head :=
      sl
      + [SingleChoiceItem(Key(SettingsFile.KEY_VIDEO_BACKEND_INDEX), IniCore, RString.video_backend, 0,
            RArray.videoBackendEntries, RArray.videoBackendValues, 0,
            Some(IntValue(videoBackend)), None)]
      + [CheckBoxItem(Key(SettingsFile.KEY_SHOW_FPS), GfxSettings, RString.show_fps, RString.show_fps_description, false,
            GetSetting(gfx, Key(SettingsFile.KEY_SHOW_FPS)))]
      + [SingleChoiceItem(Key(SettingsFile.KEY_SHADER_COMPILATION_MODE), GfxSettings, RString.shader_compilation_mode, RString.shader_compilation_mode_description,
            RArray.shaderCompilationModeEntries, RArray.shaderCompilationModeValues, 0, GetSetting(gfx, Key(SettingsFile.KEY_SHADER_COMPILATION_MODE)), None)]
      + [CheckBoxItem(Key(SettingsFile.KEY_WAIT_FOR_SHADERS), GfxSettings, RString.wait_for_shaders, RString.wait_for_shaders_description, false,
            GetSetting(gfx, Key(SettingsFile.KEY_WAIT_FOR_SHADERS)))]
      + [CheckBoxItem(Key(SettingsFile.KEY_BACKEND_MULTITHREADING), GfxSettings, RString.backend_multithreading, RString.backend_multithreading_description, true,
            GetSetting(gfx, Key(SettingsFile.KEY_BACKEND_MULTITHREADING)))];
    var withDriver :=
      if GpuDriverOffered(platform, gameId) then
        head
        + [SubmenuItem(RString.gpu_driver_submenu, Undeclared("GPU_DRIVERS"))]
      else head;
    withDriver
    + [SingleChoiceItem(Key(SettingsFile.KEY_ASPECT_RATIO), GfxSettings, RString.aspect_ratio, 0,
          RArray.aspectRatioEntries, RArray.aspectRatioValues, 0, GetSetting(gfx, Key(SettingsFile.KEY_ASPECT_RATIO)), None)]
    + [SliderItem(Key(SettingsFile.KEY_DISPLAY_SCALE), GfxSettings, RString.setting_display_scale, 0, 200, "%", 100,
          GetSetting(gfx, Key(SettingsFile.KEY_DISPLAY_SCALE)))]
  }

  function GraphicsSettings(store: Store, platform: Platform, gameId: Option<string>, videoBackend: int): seq<Item> {
    GraphicsRows([], store, platform, gameId, videoBackend)
  }

  // ---------------------------------------------------------------------------
  // The enhancements menu

  /** The post-processing shader choice lists: the "off" label, resp. the
      empty shader name, followed by the installed shaders. */
  function ShaderEntries(platform: Platform): seq<string> {
    [platform.offLabel] + platform.shaders
  }

  function ShaderValues(platform: Platform): seq<string> {
    [""] + platform.shaders
  }

  /** The resolution, anti-aliasing, filtering and post-processing rows of
      the enhancements menu. */
  function EnhanceScalingRows(sl: seq<Item>, store: Store, platform: Platform): seq<Item> {
    var gfx := GetSection(store, GfxSettings);
    var enhancements := GetSection(store, GfxEnhancements);
    var shaderEntries := ShaderEntries(platform);
    var shaderValues := ShaderValues(platform);
    sl
    + [SliderItem(Key(SettingsFile.KEY_INTERNAL_RES), GfxSettings, RString.internal_resolution, RString.internal_resolution_description, 400, "x", 100,
          GetSetting(gfx, Key(SettingsFile.KEY_INTERNAL_RES)))]
    + [SingleChoiceItem(Key(SettingsFile.KEY_FSAA), GfxSettings, RString.FSAA, RString.FSAA_description,
          RArray.FSAAEntries, RArray.FSAAValues, 1, GetSetting(gfx, Key(SettingsFile.KEY_FSAA)), None)]
    + [SingleChoiceItem(Key(SettingsFile.KEY_ANISOTROPY), GfxEnhancements, RString.anisotropic_filtering, RString.anisotropic_filtering_description,
          RArray.anisotropicFilteringEntries, RArray.anisotropicFilteringValues, 0, GetSetting(enhancements, Key(SettingsFile.KEY_ANISOTROPY)), None)]
    + [StringSingleChoiceItem(Key(SettingsFile.KEY_POST_SHADER), GfxEnhancements, RString.post_processing_shader, 0,
          shaderEntries, shaderValues, "", GetSetting(enhancements, Key(SettingsFile.KEY_POST_SHADER)))]
  }

  /** The texture and lighting switches of the enhancements menu. */
  function EnhanceTextureRows(sl: seq<Item>, store: Store): seq<Item> {
    var gfx := GetSection(store, GfxSettings);
    var enhancements := GetSection(store, GfxEnhancements);
    var hacks := GetSection(store, GfxHacks);
    sl
    + [CheckBoxItem(Key(SettingsFile.KEY_HIRES_TEXTURES), GfxSettings, RString.load_custom_texture, RString.load_custom_texture_description, false,
          GetSetting(gfx, Key(SettingsFile.KEY_HIRES_TEXTURES)))]
    + [CheckBoxItem(Key(SettingsFile.KEY_CACHE_HIRES_TEXTURES), GfxSettings, RString.cache_custom_texture, RString.cache_custom_texture_description, false,
          GetSetting(gfx, Key(SettingsFile.KEY_CACHE_HIRES_TEXTURES)))]
    + [CheckBoxItem(Key(SettingsFile.KEY_SCALED_EFB), GfxHacks, RString.scaled_efb_copy, RString.scaled_efb_copy_description, true,
          GetSetting(hacks, Key(SettingsFile.KEY_SCALED_EFB)))]
    + [CheckBoxItem(Key(SettingsFile.KEY_PER_PIXEL), GfxSettings, RString.per_pixel_lighting, RString.per_pixel_lighting_description, false,
          GetSetting(gfx, Key(SettingsFile.KEY_PER_PIXEL)))]
    + [CheckBoxItem(Key(SettingsFile.KEY_FORCE_FILTERING), GfxEnhancements, RString.force_texture_filtering, RString.force_texture_filtering_description, false,
          GetSetting(enhancements, Key(SettingsFile.KEY_FORCE_FILTERING)))]
  }

  /** The colour, fog, copy-filter, mipmap and widescreen switches of the
      enhancements menu. */
  function EnhanceColorRows(sl: seq<Item>, store: Store): seq<Item> {
    var gfx := GetSection(store, GfxSettings);
    var enhancements := GetSection(store, GfxEnhancements);
    sl
    + [CheckBoxItem(Key(SettingsFile.KEY_FORCE_24_BIT_COLOR), GfxEnhancements, RString.force_24bit_color, RString.force_24bit_color_description, true,
          GetSetting(enhancements, Key(SettingsFile.KEY_FORCE_24_BIT_COLOR)))]
    + [CheckBoxItem(Key(SettingsFile.KEY_DISABLE_FOG), GfxSettings, RString.disable_fog, RString.disable_fog_description, false,
          GetSetting(gfx, Key(SettingsFile.KEY_DISABLE_FOG)))]
    + [CheckBoxItem(Key(SettingsFile.KEY_DISABLE_COPY_FILTER), GfxEnhancements, RString.disable_copy_filter, RString.disable_copy_filter_description, false,
          GetSetting(enhancements, Key(SettingsFile.KEY_DISABLE_COPY_FILTER)))]
    + [CheckBoxItem(Key(SettingsFile.KEY_ARBITRARY_MIPMAP_DETECTION), GfxEnhancements, RString.arbitrary_mipmap_detection, RString.arbitrary_mipmap_detection_description, true,
          GetSetting(enhancements, Key(SettingsFile.KEY_ARBITRARY_MIPMAP_DETECTION)))]
    + [CheckBoxItem(Key(SettingsFile.KEY_WIDE_SCREEN_HACK), GfxSettings, RString.wide_screen_hack, RString.wide_screen_hack_description, false,
          GetSetting(gfx, Key(SettingsFile.KEY_WIDE_SCREEN_HACK)))]
  }

  /** `sl` followed by the enhancements menu. */
  function EnhanceRows(sl: seq<Item>, store: Store, platform: Platform): seq<Item> {
    EnhanceColorRows(EnhanceTextureRows(EnhanceScalingRows(sl, store, platform), store), store)
  }

  function EnhanceSettings(store: Store, platform: Platform): seq<Item> {
    EnhanceRows([], store, platform)
  }

  // ---------------------------------------------------------------------------
  // The hacks menu

  /** The embedded-frame-buffer block: its header and five switches. */
  function EfbHackRows(sl: seq<Item>, store: Store): seq<Item> {
    var hacks := GetSection(store, GfxHacks);
    sl
    + [HeaderItem(RString.embedded_frame_buffer)]
    + [CheckBoxItem(Key(SettingsFile.KEY_SKIP_EFB), GfxHacks, RString.skip_efb_access, RString.skip_efb_access_description, true,
          GetSetting(hacks, Key(SettingsFile.KEY_SKIP_EFB)))]
    + [CheckBoxItem(Key(SettingsFile.KEY_IGNORE_FORMAT), GfxHacks, RString.ignore_format_changes, RString.ignore_format_changes_description, true,
          GetSetting(hacks, Key(SettingsFile.KEY_IGNORE_FORMAT)))]
    + [CheckBoxItem(Key(SettingsFile.KEY_EFB_TEXTURE), GfxHacks, RString.efb_copy_method, RString.efb_copy_method_description, true,
          GetSetting(hacks, Key(SettingsFile.KEY_EFB_TEXTURE)))]
    + [CheckBoxItem(Key(SettingsFile.KEY_DEFER_EFB_COPIES), GfxHacks, RString.defer_efb_copies, RString.defer_efb_copies_description, true,
          GetSetting(hacks, Key(SettingsFile.KEY_DEFER_EFB_COPIES)))]
    + [CheckBoxItem(Key(SettingsFile.KEY_EFB_DEFER_INVALIDATION), GfxHacks, RString.efb_defer_invalidation, RString.efb_defer_invalidation_description, false,
          GetSetting(hacks, Key(SettingsFile.KEY_EFB_DEFER_INVALIDATION)))]
  }

  /** The texture-cache block: its header, the accuracy choice and GPU
      decoding. */
  function TextureCacheHackRows(sl: seq<Item>, store: Store): seq<Item> {
    var gfx := GetSection(store, GfxSettings);
    sl
    + [HeaderItem(RString.texture_cache)]
    + [SingleChoiceItem(Key(SettingsFile.KEY_TEXCACHE_ACCURACY), GfxSettings, RString.texture_cache_accuracy, RString.texture_cache_accuracy_description,
          RArray.textureCacheAccuracyEntries, RArray.textureCacheAccuracyValues, 128, GetSetting(gfx, Key(SettingsFile.KEY_TEXCACHE_ACCURACY)), None)]
    + [CheckBoxItem(Key(SettingsFile.KEY_GPU_TEXTURE_DECODING), GfxSettings, RString.gpu_texture_decoding, RString.gpu_texture_decoding_description, false,
          GetSetting(gfx, Key(SettingsFile.KEY_GPU_TEXTURE_DECODING)))]
  }

  /** The external-frame-buffer block: its header and three switches. */
  function XfbHackRows(sl: seq<Item>, store: Store): seq<Item> {
    var hacks := GetSection(store, GfxHacks);
    sl
    + [HeaderItem(RString.external_frame_buffer)]
    + [CheckBoxItem(Key(SettingsFile.KEY_XFB_TEXTURE), GfxHacks, RString.xfb_copy_method, RString.xfb_copy_method_description, true,
          GetSetting(hacks, Key(SettingsFile.KEY_XFB_TEXTURE)))]
    + [CheckBoxItem(Key(SettingsFile.KEY_IMMEDIATE_XFB), GfxHacks, RString.immediate_xfb, RString.immediate_xfb_description, false,
          GetSetting(hacks, Key(SettingsFile.KEY_IMMEDIATE_XFB)))]
    + [CheckBoxItem(Key(SettingsFile.KEY_SKIP_DUPLICATE_XFBS), GfxHacks, RString.skip_duplicate_xfbs, RString.skip_duplicate_xfbs_description, true,
          GetSetting(hacks, Key(SettingsFile.KEY_SKIP_DUPLICATE_XFBS)))]
  }

  /** The block of other hacks: its header and five switches. */
  function OtherHackRows(sl: seq<Item>, store: Store): seq<Item> {
    var gfx := GetSection(store, GfxSettings);
    var hacks := GetSection(store, GfxHacks);
    sl
    + [HeaderItem(RString.other)]
    + [CheckBoxItem(Key(SettingsFile.KEY_APPROX_LOGIC_OP_WITH_BLENDING), GfxHacks, RString.approx_logic_op_with_blending, RString.approx_logic_op_with_blending_description, false,
          GetSetting(hacks, Key(SettingsFile.KEY_APPROX_LOGIC_OP_WITH_BLENDING)))]
    + [CheckBoxItem(Key(SettingsFile.KEY_VI_SKIP), GfxHacks, RString.vi_skip, RString.vi_skip_description, false,
          GetSetting(hacks, Key(SettingsFile.KEY_VI_SKIP)))]
    + [CheckBoxItem(Key(SettingsFile.KEY_SAVE_TEXTURE_CACHE_TO_STATE), GfxSettings, RString.texture_cache_to_state, RString.texture_cache_to_state_description, true,
          GetSetting(gfx, Key(SettingsFile.KEY_SAVE_TEXTURE_CACHE_TO_STATE)))]
    + [CheckBoxItem(Key(SettingsFile.KEY_FAST_DEPTH), GfxSettings, RString.fast_depth_calculation, RString.fast_depth_calculation_description, true,
          GetSetting(gfx, Key(SettingsFile.KEY_FAST_DEPTH)))]
    + [CheckBoxItem(Key(SettingsFile.KEY_TMEM_CACHE_EMULATION), GfxHacks, RString.tmem_cache_emulation, RString.tmem_cache_emulation_description, true,
          GetSetting(hacks, Key(SettingsFile.KEY_TMEM_CACHE_EMULATION)))]
  }

  /** `sl` followed by the hacks menu: four headers, each followed by its
      block of rows. */
  function HackRows(sl: seq<Item>, store: Store): seq<Item> {
    OtherHackRows(XfbHackRows(TextureCacheHackRows(EfbHackRows(sl, store), store), store), store)
  }

  function HackSettings(store: Store): seq<Item> {
    HackRows([], store)
  }

  // ---------------------------------------------------------------------------
  // The debug menu

  /** `sl` followed by the debug menu: a warning header and ten JIT switches,
      all off by default. */
  function DebugRows(sl: seq<Item>, store: Store): seq<Item> {
    var debug := GetSection(store, DebugSection);
    sl
    + [HeaderItem(RString.debug_warning)]
    + [CheckBoxItem(Key(SettingsFile.KEY_DEBUG_JITOFF), DebugSection, RString.debug_jitoff, 0, false,
          GetSetting(debug, Key(SettingsFile.KEY_DEBUG_JITOFF)))]
    + [CheckBoxItem(Key(SettingsFile.KEY_DEBUG_JITLOADSTOREOFF), DebugSection, RString.debug_jitloadstoreoff, 0, false,
          GetSetting(debug, Key(SettingsFile.KEY_DEBUG_JITLOADSTOREOFF)))]
    + [CheckBoxItem(Key(SettingsFile.KEY_DEBUG_JITLOADSTOREFLOATINGPOINTOFF), DebugSection, RString.debug_jitloadstorefloatingoff, 0, false,
          GetSetting(debug, Key(SettingsFile.KEY_DEBUG_JITLOADSTOREFLOATINGPOINTOFF)))]
    + [CheckBoxItem(Key(SettingsFile.KEY_DEBUG_JITLOADSTOREPAIREDOFF), DebugSection, RString.debug_jitloadstorepairedoff, 0, false,
          GetSetting(debug, Key(SettingsFile.KEY_DEBUG_JITLOADSTOREPAIREDOFF)))]
    + [CheckBoxItem(Key(SettingsFile.KEY_DEBUG_JITFLOATINGPOINTOFF), DebugSection, RString.debug_jitfloatingpointoff, 0, false,
          GetSetting(debug, Key(SettingsFile.KEY_DEBUG_JITFLOATINGPOINTOFF)))]
    + [CheckBoxItem(Key(SettingsFile.KEY_DEBUG_JITINTEGEROFF), DebugSection, RString.debug_jitintegeroff, 0, false,
          GetSetting(debug, Key(SettingsFile.KEY_DEBUG_JITINTEGEROFF)))]
    + [CheckBoxItem(Key(SettingsFile.KEY_DEBUG_JITPAIREDOFF), DebugSection, RString.debug_jitpairedoff, 0, false,
          GetSetting(debug, Key(SettingsFile.KEY_DEBUG_JITPAIREDOFF)))]
    + [CheckBoxItem(Key(SettingsFile.KEY_DEBUG_JITSYSTEMREGISTEROFF), DebugSection, RString.debug_jitsystemregistersoffr, 0, false,
          GetSetting(debug, Key(SettingsFile.KEY_DEBUG_JITSYSTEMREGISTEROFF)))]
    + [CheckBoxItem(Key(SettingsFile.KEY_DEBUG_JITBRANCHOFF), DebugSection, RString.debug_jitbranchoff, 0, false,
          GetSetting(debug, Key(SettingsFile.KEY_DEBUG_JITBRANCHOFF)))]
    + [CheckBoxItem(Key(SettingsFile.KEY_DEBUG_JITREGISTERCACHEOFF), DebugSection, RString.debug_jitregistercacheoff, 0, false,
          GetSetting(debug, Key(SettingsFile.KEY_DEBUG_JITREGISTERCACHEOFF)))]
  }

  function DebugSettings(store: Store): seq<Item> {
    DebugRows([], store)
  }

  // ---------------------------------------------------------------------------
  // The controller menu

  /** The buttons block: its header and the six button bindings. */
  function ButtonRows(sl: seq<Item>, store: Store, pad: int): seq<Item> {
    var bindings := GetSection(store, Bindings);
    sl
    + [HeaderItem(RString.generic_buttons)]
    + [InputBindingItem(Indexed(SettingsFile.KEY_GCBIND_A, pad), Bindings, RString.button_a, GetSetting(bindings, Indexed(SettingsFile.KEY_GCBIND_A, pad)))]
    + [InputBindingItem(Indexed(SettingsFile.KEY_GCBIND_B, pad), Bindings, RString.button_b, GetSetting(bindings, Indexed(SettingsFile.KEY_GCBIND_B, pad)))]
    + [InputBindingItem(Indexed(SettingsFile.KEY_GCBIND_X, pad), Bindings, RString.button_x, GetSetting(bindings, Indexed(SettingsFile.KEY_GCBIND_X, pad)))]
    + [InputBindingItem(Indexed(SettingsFile.KEY_GCBIND_Y, pad), Bindings, RString.button_y, GetSetting(bindings, Indexed(SettingsFile.KEY_GCBIND_Y, pad)))]
    + [InputBindingItem(Indexed(SettingsFile.KEY_GCBIND_Z, pad), Bindings, RString.button_z, GetSetting(bindings, Indexed(SettingsFile.KEY_GCBIND_Z, pad)))]
    + [InputBindingItem(Indexed(SettingsFile.KEY_GCBIND_START, pad), Bindings, RString.button_start, GetSetting(bindings, Indexed(SettingsFile.KEY_GCBIND_START, pad)))]
  }

  /** The control-stick block: its header and the four directions. */
  function ControlStickRows(sl: seq<Item>, store: Store, pad: int): seq<Item> {
    var bindings := GetSection(store, Bindings);
    sl
    + [HeaderItem(RString.controller_control)]
    + [InputBindingItem(Indexed(SettingsFile.KEY_GCBIND_CONTROL_UP, pad), Bindings, RString.generic_up, GetSetting(bindings, Indexed(SettingsFile.KEY_GCBIND_CONTROL_UP, pad)))]
    + [InputBindingItem(Indexed(SettingsFile.KEY_GCBIND_CONTROL_DOWN, pad), Bindings, RString.generic_down, GetSetting(bindings, Indexed(SettingsFile.KEY_GCBIND_CONTROL_DOWN, pad)))]
    + [InputBindingItem(Indexed(SettingsFile.KEY_GCBIND_CONTROL_LEFT, pad), Bindings, RString.generic_left, GetSetting(bindings, Indexed(SettingsFile.KEY_GCBIND_CONTROL_LEFT, pad)))]
    + [InputBindingItem(Indexed(SettingsFile.KEY_GCBIND_CONTROL_RIGHT, pad), Bindings, RString.generic_right, GetSetting(bindings, Indexed(SettingsFile.KEY_GCBIND_CONTROL_RIGHT, pad)))]
  }

  /** The C-stick block: its header and the four directions. */
  function CStickRows(sl: seq<Item>, store: Store, pad: int): seq<Item> {
    var bindings := GetSection(store, Bindings);
    sl
    + [HeaderItem(RString.controller_c)]
    + [InputBindingItem(Indexed(SettingsFile.KEY_GCBIND_C_UP, pad), Bindings, RString.generic_up, GetSetting(bindings, Indexed(SettingsFile.KEY_GCBIND_C_UP, pad)))]
    + [InputBindingItem(Indexed(SettingsFile.KEY_GCBIND_C_DOWN, pad), Bindings, RString.generic_down, GetSetting(bindings, Indexed(SettingsFile.KEY_GCBIND_C_DOWN, pad)))]
    + [InputBindingItem(Indexed(SettingsFile.KEY_GCBIND_C_LEFT, pad), Bindings, RString.generic_left, GetSetting(bindings, Indexed(SettingsFile.KEY_GCBIND_C_LEFT, pad)))]
    + [InputBindingItem(Indexed(SettingsFile.KEY_GCBIND_C_RIGHT, pad), Bindings, RString.generic_right, GetSetting(bindings, Indexed(SettingsFile.KEY_GCBIND_C_RIGHT, pad)))]
  }

  /** The triggers block: its header and the digital and analog triggers. */
  function TriggerRows(sl: seq<Item>, store: Store, pad: int): seq<Item> {
    var bindings := GetSection(store, Bindings);
    sl
    + [HeaderItem(RString.controller_trig)]
    + [InputBindingItem(Indexed(SettingsFile.KEY_GCBIND_TRIGGER_L, pad), Bindings, RString.trigger_left, GetSetting(bindings, Indexed(SettingsFile.KEY_GCBIND_TRIGGER_L, pad)))]
    + [InputBindingItem(Indexed(SettingsFile.KEY_GCBIND_TRIGGER_R, pad), Bindings, RString.trigger_right, GetSetting(bindings, Indexed(SettingsFile.KEY_GCBIND_TRIGGER_R, pad)))]
    + [InputBindingItem(Indexed(SettingsFile.KEY_GCBIND_TRIGGER_L_ANALOG, pad), Bindings, RString.trigger_left_analog, GetSetting(bindings, Indexed(SettingsFile.KEY_GCBIND_TRIGGER_L_ANALOG, pad)))]
    + [InputBindingItem(Indexed(SettingsFile.KEY_GCBIND_TRIGGER_R_ANALOG, pad), Bindings, RString.trigger_right_analog, GetSetting(bindings, Indexed(SettingsFile.KEY_GCBIND_TRIGGER_R_ANALOG, pad)))]
  }

  /** The D-pad block: its header and the four directions. */
  function DpadRows(sl: seq<Item>, store: Store, pad: int): seq<Item> {
    var bindings := GetSection(store, Bindings);
    sl
    + [HeaderItem(RString.controller_dpad)]
    + [InputBindingItem(Indexed(SettingsFile.KEY_GCBIND_DPAD_UP, pad), Bindings, RString.generic_up, GetSetting(bindings, Indexed(SettingsFile.KEY_GCBIND_DPAD_UP, pad)))]
    + [InputBindingItem(Indexed(SettingsFile.KEY_GCBIND_DPAD_DOWN, pad), Bindings, RString.generic_down, GetSetting(bindings, Indexed(SettingsFile.KEY_GCBIND_DPAD_DOWN, pad)))]
    + [InputBindingItem(Indexed(SettingsFile.KEY_GCBIND_DPAD_LEFT, pad), Bindings, RString.generic_left, GetSetting(bindings, Indexed(SettingsFile.KEY_GCBIND_DPAD_LEFT, pad)))]
    + [InputBindingItem(Indexed(SettingsFile.KEY_GCBIND_DPAD_RIGHT, pad), Bindings, RString.generic_right, GetSetting(bindings, Indexed(SettingsFile.KEY_GCBIND_DPAD_RIGHT, pad)))]
  }

  /** The rumble block: its header and the rumble binding. */
  function RumbleRows(sl: seq<Item>, store: Store, pad: int): seq<Item> {
    var bindings := GetSection(store, Bindings);
    sl
    + [HeaderItem(RString.emulation_control_rumble)]
    + [RumbleBindingItem(Indexed(SettingsFile.KEY_EMU_RUMBLE, pad), Bindings, RString.emulation_control_rumble, GetSetting(bindings, Indexed(SettingsFile.KEY_EMU_RUMBLE, pad)))]
  }

  /** The adapter switches of a pad behind the GameCube adapter. */
  function AdapterRows(sl: seq<Item>, store: Store, pad: int): seq<Item> {
    var core := GetSection(store, IniCore);
    sl
    + [CheckBoxItem(Indexed(SettingsFile.KEY_GCADAPTER_RUMBLE, pad), IniCore, RString.gc_adapter_rumble, RString.gc_adapter_rumble_description, false,
          GetSetting(core, Indexed(SettingsFile.KEY_GCADAPTER_RUMBLE, pad)))]
    + [CheckBoxItem(Indexed(SettingsFile.KEY_GCADAPTER_BONGOS, pad), IniCore, RString.gc_adapter_bongos, RString.gc_adapter_bongos_description, false,
          GetSetting(core, Indexed(SettingsFile.KEY_GCADAPTER_BONGOS, pad)))]
  }

  /** `sl` followed by the controller menu for pad `choice.number`: the
      emulated-pad bindings, in the bindings section under keys suffixed with
      the pad number, or, for a pad behind the GameCube adapter, its rumble and
      bongo switches in the core section. */
  function ControllerRows(sl: seq<Item>, store: Store, choice: PadChoice): seq<Item> {
    var pad := choice.number;
    if !choice.adapter then
      RumbleRows(DpadRows(TriggerRows(CStickRows(ControlStickRows(ButtonRows(sl, store, pad), store, pad),
        store, pad), store, pad), store, pad), store, pad)
    else
      AdapterRows(sl, store, pad)
  }

  function ControllerSettings(store: Store, choice: PadChoice): seq<Item> {
    ControllerRows([], store, choice)
  }

  // ---------------------------------------------------------------------------
  // The video backend getter

  /** The `when` over backend names; every unknown name maps to 0. */
  function BackendOrdinal(name: string): (n: int)
    ensures 0 <= n <= 3
    ensures n == 1 <==> name == "Vulkan"
    ensures n == 2 <==> name == "Software Renderer"
    ensures n == 3 <==> name == "Null"
  {
    if name == "OGL" then 0
    else if name == "Vulkan" then 1
    else if name == "Software Renderer" then 2
    else if name == "Null" then 3
    else 0
  }

  /** The `videoBackendValue` getter. It casts the stored `KEY_VIDEO_BACKEND`
      setting of the core section to a string setting: a missing setting makes
      the cast raise NullPointerException, which the getter catches and turns
      into 0; a setting of another class makes it raise ClassCastException,
      which the getter does not catch. */
  function VideoBackendValue(store: Store): (r: Result<int>)
    ensures r.Success? ==> 0 <= r.value <= 3
    ensures r.Failure? <==> Lookup(store, IniCore, Key(SettingsFile.KEY_VIDEO_BACKEND)).Some? &&
                            !Lookup(store, IniCore, Key(SettingsFile.KEY_VIDEO_BACKEND)).value.StringValue?
    ensures r.Failure? ==> r.error == ClassCastException
    ensures Lookup(store, IniCore, Key(SettingsFile.KEY_VIDEO_BACKEND)).None? ==> r == Success(0)
    ensures Lookup(store, IniCore, Key(SettingsFile.KEY_VIDEO_BACKEND)).Some? &&
            Lookup(store, IniCore, Key(SettingsFile.KEY_VIDEO_BACKEND)).value.StringValue? ==>
              r == Success(BackendOrdinal(Lookup(store, IniCore, Key(SettingsFile.KEY_VIDEO_BACKEND)).value.s))
  {
    match Lookup(store, IniCore, Key(SettingsFile.KEY_VIDEO_BACKEND))
    case None => Success(0)
    case Some(StringValue(name)) => Success(BackendOrdinal(name))
    case Some(_) => Failure(ClassCastException)
  }

  // ---------------------------------------------------------------------------
  // Dispatch

  /** What `loadSettingsList` yields: null, a list, or an exception that
      escapes it. */
  datatype Loaded = NoList | List(items: seq<Item>) | Crashed(error: Exception)

  /** The menu of a declared tag, for a non-null settings object. The interface
      menu dereferences the game id with `!!`, and the graphics menu propagates
      the exception of the video backend getter. */
  function MenuSettings(tag: MenuTag, gameId: Option<string>, store: Store, platform: Platform,
                        choice: PadChoice): Result<seq<Item>> {
    match tag
    case Config => Success(ConfigSettings())
    case ConfigGeneral => Success(GeneralSettings(store, platform))
    case ConfigInterface =>
      if gameId.None? then Failure(NullPointerException)
      else Success(InterfaceSettings(store, platform.sdkInt, gameId.value))
    case Graphics =>
      (match VideoBackendValue(store)
       case Failure(e) => Failure(e)
       case Success(v) => Success(GraphicsSettings(store, platform, gameId, v)))
    case Controller => Success(ControllerSettings(store, choice))
    case Enhancements => Success(EnhanceSettings(store, platform))
    case Hacks => Success(HackSettings(store))
    case Debug => Success(DebugSettings(store))
  }

  /** `loadSettingsList`: null without a menu tag; the top-level menu needs no
      settings; every other menu dereferences the settings object with `!!`
      before it appends anything. */
  function Assemble(menuTag: Option<MenuTag>, gameId: Option<string>, settings: Option<Store>,
                    platform: Platform, choice: PadChoice): Loaded {
    if menuTag.None? then NoList
    else if menuTag.value == Config then List(ConfigSettings())
    else if settings.None? then Crashed(NullPointerException)
    else match MenuSettings(menuTag.value, gameId, settings.value, platform, choice)
      case Success(items) => List(items)
      case Failure(e) => Crashed(e)
  }

  // The `when` of `loadSettingsList`, one menu at a time.

  lemma MenuSettingsConfig(gameId: Option<string>, store: Store, platform: Platform, choice: PadChoice)
    ensures MenuSettings(Config, gameId, store, platform, choice) == Success(ConfigRows([]))
  {}

  lemma MenuSettingsGeneral(gameId: Option<string>, store: Store, platform: Platform, choice: PadChoice)
    ensures MenuSettings(ConfigGeneral, gameId, store, platform, choice) == Success(GeneralRows([], store, platform))
  {}

  lemma MenuSettingsInterface(gameId: Option<string>, store: Store, platform: Platform, choice: PadChoice)
    ensures gameId.None? ==> MenuSettings(ConfigInterface, gameId, store, platform, choice) == Failure(NullPointerException)
    ensures gameId.Some? ==> MenuSettings(ConfigInterface, gameId, store, platform, choice)
                             == Success(InterfaceRows([], store, platform.sdkInt, gameId.value))
  {}

  lemma MenuSettingsGraphics(gameId: Option<string>, store: Store, platform: Platform, choice: PadChoice)
    ensures VideoBackendValue(store).Failure? ==>
              MenuSettings(Graphics, gameId, store, platform, choice) == Failure(VideoBackendValue(store).error)
    ensures VideoBackendValue(store).Success? ==>
              MenuSettings(Graphics, gameId, store, platform, choice)
              == Success(GraphicsRows([], store, platform, gameId, VideoBackendValue(store).value))
  {}

  lemma MenuSettingsController(gameId: Option<string>, store: Store, platform: Platform, choice: PadChoice)
    ensures MenuSettings(Controller, gameId, store, platform, choice) == Success(ControllerRows([], store, choice))
  {}

  lemma MenuSettingsEnhancements(gameId: Option<string>, store: Store, platform: Platform, choice: PadChoice)
    ensures MenuSettings(Enhancements, gameId, store, platform, choice) == Success(EnhanceRows([], store, platform))
  {}

  lemma MenuSettingsHacks(gameId: Option<string>, store: Store, platform: Platform, choice: PadChoice)
    ensures MenuSettings(Hacks, gameId, store, platform, choice) == Success(HackRows([], store))
  {}

  lemma MenuSettingsDebug(gameId: Option<string>, store: Store, platform: Platform, choice: PadChoice)
    ensures MenuSettings(Debug, gameId, store, platform, choice) == Success(DebugRows([], store))
  {}
}
