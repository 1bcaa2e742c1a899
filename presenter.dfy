/** SettingsFragmentPresenter: the routines that build a menu by appending
    rows to a list one at a time, and the presenter object whose fields
    `onCreate` and `loadSettingsList` set. The list `sl` is local to
    `loadSettingsList`, so each routine takes the list built so far and returns
    it extended; each is proved to append exactly the rows of its
    specification function in module Menus. Routines that read the settings
    object receive it already dereferenced: `loadSettingsList` makes the
    `settings!!` test in their place, since each of them makes it before it
    appends its first row. Each method thus writes its rows a second time, as
    appends in the routine's order; every property of the menus is proved
    about the functions, and the methods inherit it through their `ensures`. */
module Presenter {
  import opened Kotlin
  import opened Decimal
  import opened MenuTags
  import opened SettingsModel
  import SettingsFile
  import Settings
  import RString
  import RArray
  import opened Menus

  // ---------------------------------------------------------------------------
  // Arrays

  /** `System.arraycopy(src, srcPos, dst, dstPos, length)` between two distinct
      arrays: the `length` elements from `srcPos` on replace those from `dstPos`
      on, and the rest of `dst` is untouched. */
  method ArrayCopy(src: array<string>, srcPos: int, dst: array<string>, dstPos: int, length: int)
    requires src != dst
    requires 0 <= srcPos && 0 <= dstPos && 0 <= length
    requires srcPos + length <= src.Length && dstPos + length <= dst.Length
    modifies dst
    ensures dst[..dstPos] == old(dst[..dstPos])
    ensures dst[dstPos..dstPos + length] == src[srcPos..srcPos + length]
    ensures dst[dstPos + length..] == old(dst[dstPos + length..])
  {
    for k := 0 to length
      invariant forall j :: 0 <= j < dst.Length ==>
                  dst[j] == if dstPos <= j < dstPos + k then src[srcPos + (j - dstPos)] else old(dst[j])
    {
      dst[dstPos + k] := src[srcPos + k];
    }
  }

  /** A Kotlin `Array<String>` holding `s`. */
  method ArrayOf(s: seq<string>) returns (a: array<string>)
    ensures fresh(a) && a[..] == s
  {
    a := new string[|s|](i requires 0 <= i < |s| => s[i]);
  }

  /** The audio backend values: a fresh array of the size of the entries,
      filled by one `System.arraycopy` of all of them. */
  method CopyOfList(entries: array<string>) returns (values: seq<string>)
    ensures values == entries[..]
  {
    var a := new string[entries.Length];
    ArrayCopy(entries, 0, a, 0, entries.Length);
    assert a[..] == a[0..entries.Length];
    values := a[..];
  }

  /** A post-processing shader choice list: `first` in slot 0, then the shader
      list copied into slots 1.. by `System.arraycopy`. */
  method ShaderChoiceList(first: string, shaderList: array<string>) returns (list: seq<string>)
    ensures |list| == shaderList.Length + 1
    ensures list[0] == first
    ensures forall k :: 0 <= k < shaderList.Length ==> list[k + 1] == shaderList[k]
  {
    var a := new string[shaderList.Length + 1];
    a[0] := first;
    ArrayCopy(shaderList, 0, a, 1, shaderList.Length);
    list := a[..];
  }

  /** The two post-processing shader choice lists of `addEnhanceSettings`,
      built from the installed shader list by array copies. */
  method ShaderLists(platform: Platform) returns (entries: seq<string>, values: seq<string>)
    ensures entries == ShaderEntries(platform) && values == ShaderValues(platform)
  {
    var shaderList := ArrayOf(platform.shaders);
    entries := ShaderChoiceList(platform.offLabel, shaderList);
    values := ShaderChoiceList("", shaderList);
  }

  // ---------------------------------------------------------------------------
  // The menu routines

  /** `addConfigSettings`. */
  method AddConfigSettings(sl: seq<Item>) returns (out: seq<Item>)
    ensures out == ConfigRows(sl)
  {
    out := sl;
    out := out + [SubmenuItem(RString.general_submenu, Declared(ConfigGeneral))];
    out := out + [SubmenuItem(RString.interface_submenu, Declared(ConfigInterface))];
    out := out + [SubmenuItem(RString.graphics_submenu, Declared(Graphics))];
    out := out + [SubmenuItem(RString.enhancements_submenu, Declared(Enhancements))];
    out := out + [SubmenuItem(RString.hacks_submenu, Declared(Hacks))];
    out := out + [SubmenuItem(RString.gamecube_submenu, Undeclared("CONFIG_GAME_CUBE"))];
    out := out + [SubmenuItem(RString.wii_submenu, Undeclared("CONFIG_WII"))];
    out := out + [SubmenuItem(RString.debug_submenu, Declared(Debug))];
  }

  /** `addGeneralSettings`: the CPU-core lists depend on the native default
      core, and the audio backend values are an array copy of the names. */
  method AddGeneralSettings(sl: seq<Item>, store: Store, platform: Platform) returns (out: seq<Item>)
    ensures out == GeneralRows(sl, store, platform)
  {
    var core := GetSection(store, IniCore);
    var hw := GetSection(store, GfxHardware);
    var dsp := GetSection(store, IniDsp);
    var coresEntries: ResId, coresValues: ResId;
    if platform.defaultCpuCore == AArch64Core {
      coresEntries, coresValues := RArray.emuCoresEntriesARM64, RArray.emuCoresValuesARM64;
    } else {
      coresEntries, coresValues := RArray.emuCoresEntriesGeneric, RArray.emuCoresValuesGeneric;
    }
    out := sl;
    out := out + [SingleChoiceItem(Key(SettingsFile.KEY_CPU_CORE), IniCore, RString.cpu_core, 0,
        coresEntries, coresValues, platform.defaultCpuCore, GetSetting(core, Key(SettingsFile.KEY_CPU_CORE)), None)];
    out := out + [CheckBoxItem(Key(SettingsFile.KEY_DUAL_CORE), IniCore, RString.dual_core, RString.dual_core_description, true,
        GetSetting(core, Key(SettingsFile.KEY_DUAL_CORE)))];
    out := out + [CheckBoxItem(Key(SettingsFile.KEY_OVERCLOCK_ENABLE), IniCore, RString.overclock_enable, RString.overclock_enable_description, false,
        GetSetting(core, Key(SettingsFile.KEY_OVERCLOCK_ENABLE)))];
    out := out + [SliderItem(Key(SettingsFile.KEY_OVERCLOCK_PERCENT), IniCore, RString.overclock_title, RString.overclock_title_description, 400, "%", 100,
        GetSetting(core, Key(SettingsFile.KEY_OVERCLOCK_PERCENT)))];
    out := out + [SliderItem(Key(SettingsFile.KEY_SPEED_LIMIT), IniCore, RString.speed_limit, 0, 200, "%", 100,
        GetSetting(core, Key(SettingsFile.KEY_SPEED_LIMIT)))];
    out := out + [CheckBoxItem(Key(SettingsFile.KEY_SYNC_ON_SKIP_IDLE), IniCore, RString.sync_on_skip_idle, RString.sync_on_skip_idle_description, true,
        GetSetting(core, Key(SettingsFile.KEY_SYNC_ON_SKIP_IDLE)))];
    out := out + [CheckBoxItem(Key(SettingsFile.KEY_MMU), IniCore, RString.mmu_enable, RString.mmu_enable_description, false,
        GetSetting(core, Key(SettingsFile.KEY_MMU)))];
    out := out + [CheckBoxItem(Key(SettingsFile.KEY_FAST_DISC_SPEED), IniCore, RString.fast_disc_speed, RString.fast_disc_speed_description, false,
        GetSetting(core, Key(SettingsFile.KEY_FAST_DISC_SPEED)))];
    out := out + [CheckBoxItem(Key(SettingsFile.KEY_JIT_FOLLOW_BRANCH), IniCore, RString.jit_follow_branch, RString.jit_follow_branch_description, true,
        GetSetting(core, Key(SettingsFile.KEY_JIT_FOLLOW_BRANCH)))];
    out := out + [CheckBoxItem(Key(SettingsFile.KEY_OVERRIDE_REGION_SETTINGS), IniCore, RString.override_region_settings, 0, false,
        GetSetting(core, Key(SettingsFile.KEY_OVERRIDE_REGION_SETTINGS)))];
    out := out + [CheckBoxItem(Key(SettingsFile.KEY_VSYNC), GfxHardware, RString.vsync, RString.vsync_description, false,
        GetSetting(hw, Key(SettingsFile.KEY_VSYNC)))];
    out := out + [CheckBoxItem(Key(SettingsFile.KEY_ENABLE_CHEATS), IniCore, RString.enable_cheats, RString.enable_cheats_description, false,
        GetSetting(core, Key(SettingsFile.KEY_ENABLE_CHEATS)))];
    out := out + [CheckBoxItem(Key(SettingsFile.KEY_AUTO_DISC_CHANGE), IniCore, RString.auto_disc_change, 0, false,
        GetSetting(core, Key(SettingsFile.KEY_AUTO_DISC_CHANGE)))];
    out := out + [CheckBoxItem(Key(SettingsFile.KEY_AUDIO_STRETCH), IniCore, RString.audio_stretch, RString.audio_stretch_description, false,
        GetSetting(core, Key(SettingsFile.KEY_AUDIO_STRETCH)))];
    out := out + [SliderItem(Key(SettingsFile.KEY_AUDIO_STRETCH_MAX_LATENCY), IniCore, RString.audio_stretch_max_latency, RString.audio_stretch_max_latency_description, 300, "", 80,
        GetSetting(core, Key(SettingsFile.KEY_AUDIO_STRETCH_MAX_LATENCY)))];
    var audioListEntries := ArrayOf(platform.audioBackends);
    var audioValues := CopyOfList(audioListEntries);
    out := out + [StringSingleChoiceItem(Key(SettingsFile.KEY_AUDIO_BACKEND), IniDsp, RString.audio_backend, 0,
        platform.audioBackends, audioValues, platform.defaultAudioBackend,
        GetSetting(dsp, Key(SettingsFile.KEY_AUDIO_BACKEND)))];
    out := out + [HeaderItem(RString.memory_override)];
    out := out + [CheckBoxItem(Key(SettingsFile.KEY_RAM_OVERRIDE_ENABLE), IniCore, RString.enable_memory_size_override, RString.enable_memory_size_override_description, false,
        GetSetting(core, Key(SettingsFile.KEY_RAM_OVERRIDE_ENABLE)))];
    out := out + [SliderItem(Key(SettingsFile.KEY_MEM1_SIZE), IniCore, RString.main_mem1_size, 0, 64, "MB", 24,
        GetSetting(core, Key(SettingsFile.KEY_MEM1_SIZE)))];
    out := out + [SliderItem(Key(SettingsFile.KEY_MEM2_SIZE), IniCore, RString.main_mem2_size, 0, 128, "MB", 64,
        GetSetting(core, Key(SettingsFile.KEY_MEM2_SIZE)))];
  }

  /** `addInterfaceSettings`: the `gameId!!` of the design test raises
      NullPointerException when the game id is null, after the cutout row may
      have been appended; the exception discards the list. */
  method AddInterfaceSettings(sl: seq<Item>, store: Store, sdkInt: int, gameId: Option<string>)
    returns (r: Result<seq<Item>>)
    ensures gameId.None? ==> r == Failure(NullPointerException)
    ensures gameId.Some? ==> r == Success(InterfaceRows(sl, store, sdkInt, gameId.value))
  {
    var ui := GetSection(store, IniInterface);
    var out := sl;
    if sdkInt >= AndroidP {
      out := out + [CheckBoxItem(Key(SettingsFile.KEY_EXPAND_TO_CUTOUT_AREA), IniInterface, RString.expand_to_cutout_area, RString.expand_to_cutout_area_description, false,
          GetSetting(ui, Key(SettingsFile.KEY_EXPAND_TO_CUTOUT_AREA)))];
    }
    if gameId.None? {
      return Failure(NullPointerException);
    }
    if gameId.value == "" {
      out := out + [SingleChoiceItem(Key(SettingsFile.KEY_DESIGN), IniInterface, RString.design, 0,
          RArray.designNames, RArray.designValues, 2, GetSetting(ui, Key(SettingsFile.KEY_DESIGN)), None)];
    }
    out := out + [CheckBoxItem(Key(SettingsFile.KEY_USE_PANIC_HANDLERS), IniInterface, RString.panic_handlers, RString.panic_handlers_description, true,
        GetSetting(ui, Key(SettingsFile.KEY_USE_PANIC_HANDLERS)))];
    out := out + [CheckBoxItem(Key(SettingsFile.KEY_OSD_MESSAGES), IniInterface, RString.osd_messages, RString.osd_messages_description, true,
        GetSetting(ui, Key(SettingsFile.KEY_OSD_MESSAGES)))];
    out := out + [CheckBoxItem(Key(SettingsFile.KEY_BUILTIN_TITLE_DATABASE), IniInterface, RString.use_builtin_title_database, 0, true,
        GetSetting(ui, Key(SettingsFile.KEY_BUILTIN_TITLE_DATABASE)))];
    out := out + [InputBindingItem(Key(SettingsFile.KEY_SYSTEM_BACK), IniInterface, RString.system_back, GetSetting(ui, Key(SettingsFile.KEY_SYSTEM_BACK)))];
    r := Success(out);
  }

  /** `addGcPadSettings`: one row per slot, `for (i in 0..3)`. */
  method AddGcPadSettings(sl: seq<Item>, store: Store, gameId: Option<string>) returns (out: seq<Item>)
    ensures out == sl + GcPadSettings(store, gameId)
  {
    ghost var rows := GcPadSettings(store, gameId);
    out := sl;
    for i := 0 to 4
      invariant out == sl + rows[..i]
    {
      if IsNullOrEmpty(gameId) {
        var gcPadSetting := GetSetting(GetSection(store, IniCore), Indexed(SettingsFile.KEY_GCPAD_TYPE, i));
        out := out + [SingleChoiceItem(Indexed(SettingsFile.KEY_GCPAD_TYPE, i), IniCore, RString.controller_0 + i, 0,
                        RArray.gcpadTypeEntries, RArray.gcpadTypeValues, 0, gcPadSetting,
                        Some(GcPadMenu(i)))];
      } else {
        var gcPadSetting := GetSetting(GetSection(store, Controls), Indexed(SettingsFile.KEY_GCPAD_G_TYPE, i));
        out := out + [SingleChoiceItem(Indexed(SettingsFile.KEY_GCPAD_G_TYPE, i), Controls, RString.controller_0 + i, 0,
                        RArray.gcpadTypeEntries, RArray.gcpadTypeValues, 0, gcPadSetting,
                        Some(GcPadMenu(i)))];
      }
      assert rows[i] == GcPadSlot(store, gameId, i);
      assert rows[..i + 1] == rows[..i] + [rows[i]];
    }
    assert rows[..4] == rows;
  }

  /** `addWiimoteSettings`: one row per slot, `for (i in 0..3)`. */
  method AddWiimoteSettings(sl: seq<Item>, store: Store, gameId: Option<string>) returns (out: seq<Item>)
    ensures out == sl + WiimoteSettings(store, gameId)
  {
    ghost var rows := WiimoteSettings(store, gameId);
    out := sl;
    for i := 0 to 4
      invariant out == sl + rows[..i]
    {
      if IsNullOrEmpty(gameId) {
        var wiimoteSetting := GetSetting(GetSection(store, Indexed(Settings.SECTION_WIIMOTE, i + 1)), Key(SettingsFile.KEY_WIIMOTE_TYPE));
        out := out + [SingleChoiceItem(Key(SettingsFile.KEY_WIIMOTE_TYPE), Indexed(Settings.SECTION_WIIMOTE, i + 1),
                        RString.wiimote_4 + i, 0, RArray.wiimoteTypeEntries,
                        RArray.wiimoteTypeValues, 0, wiimoteSetting, Some(WiimoteMenu(i + 4)))];
      } else {
        var wiimoteSetting := GetSetting(GetSection(store, Controls), Indexed(SettingsFile.KEY_WIIMOTE_G_TYPE, i));
        out := out + [SingleChoiceItem(Indexed(SettingsFile.KEY_WIIMOTE_G_TYPE, i), Controls, RString.wiimote_4 + i,
                        0, RArray.wiimoteTypeEntries, RArray.wiimoteTypeValues, 0,
                        wiimoteSetting, Some(WiimoteMenu(i + 4)))];
      }
      assert rows[i] == WiimoteSlot(store, gameId, i);
      assert rows[..i + 1] == rows[..i] + [rows[i]];
    }
    assert rows[..4] == rows;
  }

  /** `addGraphicsSettings`: the video backend getter runs first, and a
      ClassCastException it raises escapes before anything is appended. */
  method AddGraphicsSettings(sl: seq<Item>, store: Store, platform: Platform, gameId: Option<string>)
    returns (r: Result<seq<Item>>)
    ensures VideoBackendValue(store).Failure? ==> r == Failure(VideoBackendValue(store).error)
    ensures VideoBackendValue(store).Success? ==>
              r == Success(GraphicsRows(sl, store, platform, gameId, VideoBackendValue(store).value))
  {
    var backend := VideoBackendValue(store);
    if backend.Failure? {
      return Failure(backend.error);
    }
    var videoBackend := backend.value;
    var gfx := GetSection(store, GfxSettings);
    var out := sl;
    out := out + [SingleChoiceItem(Key(SettingsFile.KEY_VIDEO_BACKEND_INDEX), IniCore, RString.video_backend, 0,
        RArray.videoBackendEntries, RArray.videoBackendValues, 0,
        Some(IntValue(videoBackend)), None)];
    out := out + [CheckBoxItem(Key(SettingsFile.KEY_SHOW_FPS), GfxSettings, RString.show_fps, RString.show_fps_description, false,
        GetSetting(gfx, Key(SettingsFile.KEY_SHOW_FPS)))];
    out := out + [SingleChoiceItem(Key(SettingsFile.KEY_SHADER_COMPILATION_MODE), GfxSettings, RString.shader_compilation_mode, RString.shader_compilation_mode_description,
        RArray.shaderCompilationModeEntries, RArray.shaderCompilationModeValues, 0, GetSetting(gfx, Key(SettingsFile.KEY_SHADER_COMPILATION_MODE)), None)];
    out := out + [CheckBoxItem(Key(SettingsFile.KEY_WAIT_FOR_SHADERS), GfxSettings, RString.wait_for_shaders, RString.wait_for_shaders_description, false,
        GetSetting(gfx, Key(SettingsFile.KEY_WAIT_FOR_SHADERS)))];
    out := out + [CheckBoxItem(Key(SettingsFile.KEY_BACKEND_MULTITHREADING), GfxSettings, RString.backend_multithreading, RString.backend_multithreading_description, true,
        GetSetting(gfx, Key(SettingsFile.KEY_BACKEND_MULTITHREADING)))];
    if platform.gpuDriverLoaded && IsNullOrEmpty(gameId) && platform.customDriverLoading {
      out := out + [SubmenuItem(RString.gpu_driver_submenu, Undeclared("GPU_DRIVERS"))];
    }
    out := out + [SingleChoiceItem(Key(SettingsFile.KEY_ASPECT_RATIO), GfxSettings, RString.aspect_ratio, 0,
        RArray.aspectRatioEntries, RArray.aspectRatioValues, 0, GetSetting(gfx, Key(SettingsFile.KEY_ASPECT_RATIO)), None)];
    out := out + [SliderItem(Key(SettingsFile.KEY_DISPLAY_SCALE), GfxSettings, RString.setting_display_scale, 0, 200, "%", 100,
        GetSetting(gfx, Key(SettingsFile.KEY_DISPLAY_SCALE)))];
    r := Success(out);
  }

  /** `addEnhanceSettings`: the shader choice lists are built by array copies
      of the installed shader list. */
  method AddEnhanceSettings(sl: seq<Item>, store: Store, platform: Platform) returns (out: seq<Item>)
    ensures out == EnhanceRows(sl, store, platform)
  {
    var gfx := GetSection(store, GfxSettings);
    var enhancements := GetSection(store, GfxEnhancements);
    var hacks := GetSection(store, GfxHacks);
    out := sl;
    out := out + [SliderItem(Key(SettingsFile.KEY_INTERNAL_RES), GfxSettings, RString.internal_resolution, RString.internal_resolution_description, 400, "x", 100,
        GetSetting(gfx, Key(SettingsFile.KEY_INTERNAL_RES)))];
    out := out + [SingleChoiceItem(Key(SettingsFile.KEY_FSAA), GfxSettings, RString.FSAA, RString.FSAA_description,
        RArray.FSAAEntries, RArray.FSAAValues, 1, GetSetting(gfx, Key(SettingsFile.KEY_FSAA)), None)];
    out := out + [SingleChoiceItem(Key(SettingsFile.KEY_ANISOTROPY), GfxEnhancements, RString.anisotropic_filtering, RString.anisotropic_filtering_description,
        RArray.anisotropicFilteringEntries, RArray.anisotropicFilteringValues, 0, GetSetting(enhancements, Key(SettingsFile.KEY_ANISOTROPY)), None)];
    var shaderEntries, shaderValues := ShaderLists(platform);
    out := out + [StringSingleChoiceItem(Key(SettingsFile.KEY_POST_SHADER), GfxEnhancements, RString.post_processing_shader, 0,
        shaderEntries, shaderValues, "", GetSetting(enhancements, Key(SettingsFile.KEY_POST_SHADER)))];
    out := out + [CheckBoxItem(Key(SettingsFile.KEY_HIRES_TEXTURES), GfxSettings, RString.load_custom_texture, RString.load_custom_texture_description, false,
        GetSetting(gfx, Key(SettingsFile.KEY_HIRES_TEXTURES)))];
    out := out + [CheckBoxItem(Key(SettingsFile.KEY_CACHE_HIRES_TEXTURES), GfxSettings, RString.cache_custom_texture, RString.cache_custom_texture_description, false,
        GetSetting(gfx, Key(SettingsFile.KEY_CACHE_HIRES_TEXTURES)))];
    out := out + [CheckBoxItem(Key(SettingsFile.KEY_SCALED_EFB), GfxHacks, RString.scaled_efb_copy, RString.scaled_efb_copy_description, true,
        GetSetting(hacks, Key(SettingsFile.KEY_SCALED_EFB)))];
    out := out + [CheckBoxItem(Key(SettingsFile.KEY_PER_PIXEL), GfxSettings, RString.per_pixel_lighting, RString.per_pixel_lighting_description, false,
        GetSetting(gfx, Key(SettingsFile.KEY_PER_PIXEL)))];
    out := out + [CheckBoxItem(Key(SettingsFile.KEY_FORCE_FILTERING), GfxEnhancements, RString.force_texture_filtering, RString.force_texture_filtering_description, false,
        GetSetting(enhancements, Key(SettingsFile.KEY_FORCE_FILTERING)))];
    out := out + [CheckBoxItem(Key(SettingsFile.KEY_FORCE_24_BIT_COLOR), GfxEnhancements, RString.force_24bit_color, RString.force_24bit_color_description, true,
        GetSetting(enhancements, Key(SettingsFile.KEY_FORCE_24_BIT_COLOR)))];
    out := out + [CheckBoxItem(Key(SettingsFile.KEY_DISABLE_FOG), GfxSettings, RString.disable_fog, RString.disable_fog_description, false,
        GetSetting(gfx, Key(SettingsFile.KEY_DISABLE_FOG)))];
    out := out + [CheckBoxItem(Key(SettingsFile.KEY_DISABLE_COPY_FILTER), GfxEnhancements, RString.disable_copy_filter, RString.disable_copy_filter_description, false,
        GetSetting(enhancements, Key(SettingsFile.KEY_DISABLE_COPY_FILTER)))];
    out := out + [CheckBoxItem(Key(SettingsFile.KEY_ARBITRARY_MIPMAP_DETECTION), GfxEnhancements, RString.arbitrary_mipmap_detection, RString.arbitrary_mipmap_detection_description, true,
        GetSetting(enhancements, Key(SettingsFile.KEY_ARBITRARY_MIPMAP_DETECTION)))];
    out := out + [CheckBoxItem(Key(SettingsFile.KEY_WIDE_SCREEN_HACK), GfxSettings, RString.wide_screen_hack, RString.wide_screen_hack_description, false,
        GetSetting(gfx, Key(SettingsFile.KEY_WIDE_SCREEN_HACK)))];
  }

  /** `addHackSettings`. */
  method AddHackSettings(sl: seq<Item>, store: Store) returns (out: seq<Item>)
    ensures out == HackRows(sl, store)
  {
    var gfx := GetSection(store, GfxSettings);
    var hacks := GetSection(store, GfxHacks);
    out := sl;
    out := out + [HeaderItem(RString.embedded_frame_buffer)];
    out := out + [CheckBoxItem(Key(SettingsFile.KEY_SKIP_EFB), GfxHacks, RString.skip_efb_access, RString.skip_efb_access_description, true,
        GetSetting(hacks, Key(SettingsFile.KEY_SKIP_EFB)))];
    out := out + [CheckBoxItem(Key(SettingsFile.KEY_IGNORE_FORMAT), GfxHacks, RString.ignore_format_changes, RString.ignore_format_changes_description, true,
        GetSetting(hacks, Key(SettingsFile.KEY_IGNORE_FORMAT)))];
    out := out + [CheckBoxItem(Key(SettingsFile.KEY_EFB_TEXTURE), GfxHacks, RString.efb_copy_method, RString.efb_copy_method_description, true,
        GetSetting(hacks, Key(SettingsFile.KEY_EFB_TEXTURE)))];
    out := out + [CheckBoxItem(Key(SettingsFile.KEY_DEFER_EFB_COPIES), GfxHacks, RString.defer_efb_copies, RString.defer_efb_copies_description, true,
        GetSetting(hacks, Key(SettingsFile.KEY_DEFER_EFB_COPIES)))];
    out := out + [CheckBoxItem(Key(SettingsFile.KEY_EFB_DEFER_INVALIDATION), GfxHacks, RString.efb_defer_invalidation, RString.efb_defer_invalidation_description, false,
        GetSetting(hacks, Key(SettingsFile.KEY_EFB_DEFER_INVALIDATION)))];
    out := out + [HeaderItem(RString.texture_cache)];
    out := out + [SingleChoiceItem(Key(SettingsFile.KEY_TEXCACHE_ACCURACY), GfxSettings, RString.texture_cache_accuracy, RString.texture_cache_accuracy_description,
        RArray.textureCacheAccuracyEntries, RArray.textureCacheAccuracyValues, 128, GetSetting(gfx, Key(SettingsFile.KEY_TEXCACHE_ACCURACY)), None)];
    out := out + [CheckBoxItem(Key(SettingsFile.KEY_GPU_TEXTURE_DECODING), GfxSettings, RString.gpu_texture_decoding, RString.gpu_texture_decoding_description, false,
        GetSetting(gfx, Key(SettingsFile.KEY_GPU_TEXTURE_DECODING)))];
    out := out + [HeaderItem(RString.external_frame_buffer)];
    out := out + [CheckBoxItem(Key(SettingsFile.KEY_XFB_TEXTURE), GfxHacks, RString.xfb_copy_method, RString.xfb_copy_method_description, true,
        GetSetting(hacks, Key(SettingsFile.KEY_XFB_TEXTURE)))];
    out := out + [CheckBoxItem(Key(SettingsFile.KEY_IMMEDIATE_XFB), GfxHacks, RString.immediate_xfb, RString.immediate_xfb_description, false,
        GetSetting(hacks, Key(SettingsFile.KEY_IMMEDIATE_XFB)))];
    out := out + [CheckBoxItem(Key(SettingsFile.KEY_SKIP_DUPLICATE_XFBS), GfxHacks, RString.skip_duplicate_xfbs, RString.skip_duplicate_xfbs_description, true,
        GetSetting(hacks, Key(SettingsFile.KEY_SKIP_DUPLICATE_XFBS)))];
    out := out + [HeaderItem(RString.other)];
    out := out + [CheckBoxItem(Key(SettingsFile.KEY_APPROX_LOGIC_OP_WITH_BLENDING), GfxHacks, RString.approx_logic_op_with_blending, RString.approx_logic_op_with_blending_description, false,
        GetSetting(hacks, Key(SettingsFile.KEY_APPROX_LOGIC_OP_WITH_BLENDING)))];
    out := out + [CheckBoxItem(Key(SettingsFile.KEY_VI_SKIP), GfxHacks, RString.vi_skip, RString.vi_skip_description, false,
        GetSetting(hacks, Key(SettingsFile.KEY_VI_SKIP)))];
    out := out + [CheckBoxItem(Key(SettingsFile.KEY_SAVE_TEXTURE_CACHE_TO_STATE), GfxSettings, RString.texture_cache_to_state, RString.texture_cache_to_state_description, true,
        GetSetting(gfx, Key(SettingsFile.KEY_SAVE_TEXTURE_CACHE_TO_STATE)))];
    out := out + [CheckBoxItem(Key(SettingsFile.KEY_FAST_DEPTH), GfxSettings, RString.fast_depth_calculation, RString.fast_depth_calculation_description, true,
        GetSetting(gfx, Key(SettingsFile.KEY_FAST_DEPTH)))];
    out := out + [CheckBoxItem(Key(SettingsFile.KEY_TMEM_CACHE_EMULATION), GfxHacks, RString.tmem_cache_emulation, RString.tmem_cache_emulation_description, true,
        GetSetting(hacks, Key(SettingsFile.KEY_TMEM_CACHE_EMULATION)))];
  }

  /** `addDebugSettings`. */
  method AddDebugSettings(sl: seq<Item>, store: Store) returns (out: seq<Item>)
    ensures out == DebugRows(sl, store)
  {
    var debug := GetSection(store, DebugSection);
    out := sl;
    out := out + [HeaderItem(RString.debug_warning)];
    out := out + [CheckBoxItem(Key(SettingsFile.KEY_DEBUG_JITOFF), DebugSection, RString.debug_jitoff, 0, false,
        GetSetting(debug, Key(SettingsFile.KEY_DEBUG_JITOFF)))];
    out := out + [CheckBoxItem(Key(SettingsFile.KEY_DEBUG_JITLOADSTOREOFF), DebugSection, RString.debug_jitloadstoreoff, 0, false,
        GetSetting(debug, Key(SettingsFile.KEY_DEBUG_JITLOADSTOREOFF)))];
    out := out + [CheckBoxItem(Key(SettingsFile.KEY_DEBUG_JITLOADSTOREFLOATINGPOINTOFF), DebugSection, RString.debug_jitloadstorefloatingoff, 0, false,
        GetSetting(debug, Key(SettingsFile.KEY_DEBUG_JITLOADSTOREFLOATINGPOINTOFF)))];
    out := out + [CheckBoxItem(Key(SettingsFile.KEY_DEBUG_JITLOADSTOREPAIREDOFF), DebugSection, RString.debug_jitloadstorepairedoff, 0, false,
        GetSetting(debug, Key(SettingsFile.KEY_DEBUG_JITLOADSTOREPAIREDOFF)))];
    out := out + [CheckBoxItem(Key(SettingsFile.KEY_DEBUG_JITFLOATINGPOINTOFF), DebugSection, RString.debug_jitfloatingpointoff, 0, false,
        GetSetting(debug, Key(SettingsFile.KEY_DEBUG_JITFLOATINGPOINTOFF)))];
    out := out + [CheckBoxItem(Key(SettingsFile.KEY_DEBUG_JITINTEGEROFF), DebugSection, RString.debug_jitintegeroff, 0, false,
        GetSetting(debug, Key(SettingsFile.KEY_DEBUG_JITINTEGEROFF)))];
    out := out + [CheckBoxItem(Key(SettingsFile.KEY_DEBUG_JITPAIREDOFF), DebugSection, RString.debug_jitpairedoff, 0, false,
        GetSetting(debug, Key(SettingsFile.KEY_DEBUG_JITPAIREDOFF)))];
    out := out + [CheckBoxItem(Key(SettingsFile.KEY_DEBUG_JITSYSTEMREGISTEROFF), DebugSection, RString.debug_jitsystemregistersoffr, 0, false,
        GetSetting(debug, Key(SettingsFile.KEY_DEBUG_JITSYSTEMREGISTEROFF)))];
    out := out + [CheckBoxItem(Key(SettingsFile.KEY_DEBUG_JITBRANCHOFF), DebugSection, RString.debug_jitbranchoff, 0, false,
        GetSetting(debug, Key(SettingsFile.KEY_DEBUG_JITBRANCHOFF)))];
    out := out + [CheckBoxItem(Key(SettingsFile.KEY_DEBUG_JITREGISTERCACHEOFF), DebugSection, RString.debug_jitregistercacheoff, 0, false,
        GetSetting(debug, Key(SettingsFile.KEY_DEBUG_JITREGISTERCACHEOFF)))];
  }

  /** `addControllerSettings` for pad `choice.number`. */
  method AddControllerSettings(sl: seq<Item>, store: Store, choice: PadChoice) returns (out: seq<Item>)
    ensures out == ControllerRows(sl, store, choice)
  {
    var bindings := GetSection(store, Bindings);
    var core := GetSection(store, IniCore);
    var pad := choice.number;
    out := sl;
    if !choice.adapter {
      out := out + [HeaderItem(RString.generic_buttons)];
      out := out + [InputBindingItem(Indexed(SettingsFile.KEY_GCBIND_A, pad), Bindings, RString.button_a, GetSetting(bindings, Indexed(SettingsFile.KEY_GCBIND_A, pad)))];
      out := out + [InputBindingItem(Indexed(SettingsFile.KEY_GCBIND_B, pad), Bindings, RString.button_b, GetSetting(bindings, Indexed(SettingsFile.KEY_GCBIND_B, pad)))];
      out := out + [InputBindingItem(Indexed(SettingsFile.KEY_GCBIND_X, pad), Bindings, RString.button_x, GetSetting(bindings, Indexed(SettingsFile.KEY_GCBIND_X, pad)))];
      out := out + [InputBindingItem(Indexed(SettingsFile.KEY_GCBIND_Y, pad), Bindings, RString.button_y, GetSetting(bindings, Indexed(SettingsFile.KEY_GCBIND_Y, pad)))];
      out := out + [InputBindingItem(Indexed(SettingsFile.KEY_GCBIND_Z, pad), Bindings, RString.button_z, GetSetting(bindings, Indexed(SettingsFile.KEY_GCBIND_Z, pad)))];
      out := out + [InputBindingItem(Indexed(SettingsFile.KEY_GCBIND_START, pad), Bindings, RString.button_start, GetSetting(bindings, Indexed(SettingsFile.KEY_GCBIND_START, pad)))];
      out := out + [HeaderItem(RString.controller_control)];
      out := out + [InputBindingItem(Indexed(SettingsFile.KEY_GCBIND_CONTROL_UP, pad), Bindings, RString.generic_up, GetSetting(bindings, Indexed(SettingsFile.KEY_GCBIND_CONTROL_UP, pad)))];
      out := out + [InputBindingItem(Indexed(SettingsFile.KEY_GCBIND_CONTROL_DOWN, pad), Bindings, RString.generic_down, GetSetting(bindings, Indexed(SettingsFile.KEY_GCBIND_CONTROL_DOWN, pad)))];
      out := out + [InputBindingItem(Indexed(SettingsFile.KEY_GCBIND_CONTROL_LEFT, pad), Bindings, RString.generic_left, GetSetting(bindings, Indexed(SettingsFile.KEY_GCBIND_CONTROL_LEFT, pad)))];
      out := out + [InputBindingItem(Indexed(SettingsFile.KEY_GCBIND_CONTROL_RIGHT, pad), Bindings, RString.generic_right, GetSetting(bindings, Indexed(SettingsFile.KEY_GCBIND_CONTROL_RIGHT, pad)))];
      out := out + [HeaderItem(RString.controller_c)];
      out := out + [InputBindingItem(Indexed(SettingsFile.KEY_GCBIND_C_UP, pad), Bindings, RString.generic_up, GetSetting(bindings, Indexed(SettingsFile.KEY_GCBIND_C_UP, pad)))];
      out := out + [InputBindingItem(Indexed(SettingsFile.KEY_GCBIND_C_DOWN, pad), Bindings, RString.generic_down, GetSetting(bindings, Indexed(SettingsFile.KEY_GCBIND_C_DOWN, pad)))];
      out := out + [InputBindingItem(Indexed(SettingsFile.KEY_GCBIND_C_LEFT, pad), Bindings, RString.generic_left, GetSetting(bindings, Indexed(SettingsFile.KEY_GCBIND_C_LEFT, pad)))];
      out := out + [InputBindingItem(Indexed(SettingsFile.KEY_GCBIND_C_RIGHT, pad), Bindings, RString.generic_right, GetSetting(bindings, Indexed(SettingsFile.KEY_GCBIND_C_RIGHT, pad)))];
      out := out + [HeaderItem(RString.controller_trig)];
      out := out + [InputBindingItem(Indexed(SettingsFile.KEY_GCBIND_TRIGGER_L, pad), Bindings, RString.trigger_left, GetSetting(bindings, Indexed(SettingsFile.KEY_GCBIND_TRIGGER_L, pad)))];
      out := out + [InputBindingItem(Indexed(SettingsFile.KEY_GCBIND_TRIGGER_R, pad), Bindings, RString.trigger_right, GetSetting(bindings, Indexed(SettingsFile.KEY_GCBIND_TRIGGER_R, pad)))];
      out := out + [InputBindingItem(Indexed(SettingsFile.KEY_GCBIND_TRIGGER_L_ANALOG, pad), Bindings, RString.trigger_left_analog, GetSetting(bindings, Indexed(SettingsFile.KEY_GCBIND_TRIGGER_L_ANALOG, pad)))];
      out := out + [InputBindingItem(Indexed(SettingsFile.KEY_GCBIND_TRIGGER_R_ANALOG, pad), Bindings, RString.trigger_right_analog, GetSetting(bindings, Indexed(SettingsFile.KEY_GCBIND_TRIGGER_R_ANALOG, pad)))];
      out := out + [HeaderItem(RString.controller_dpad)];
      out := out + [InputBindingItem(Indexed(SettingsFile.KEY_GCBIND_DPAD_UP, pad), Bindings, RString.generic_up, GetSetting(bindings, Indexed(SettingsFile.KEY_GCBIND_DPAD_UP, pad)))];
      out := out + [InputBindingItem(Indexed(SettingsFile.KEY_GCBIND_DPAD_DOWN, pad), Bindings, RString.generic_down, GetSetting(bindings, Indexed(SettingsFile.KEY_GCBIND_DPAD_DOWN, pad)))];
      out := out + [InputBindingItem(Indexed(SettingsFile.KEY_GCBIND_DPAD_LEFT, pad), Bindings, RString.generic_left, GetSetting(bindings, Indexed(SettingsFile.KEY_GCBIND_DPAD_LEFT, pad)))];
      out := out + [InputBindingItem(Indexed(SettingsFile.KEY_GCBIND_DPAD_RIGHT, pad), Bindings, RString.generic_right, GetSetting(bindings, Indexed(SettingsFile.KEY_GCBIND_DPAD_RIGHT, pad)))];
      out := out + [HeaderItem(RString.emulation_control_rumble)];
      out := out + [RumbleBindingItem(Indexed(SettingsFile.KEY_EMU_RUMBLE, pad), Bindings, RString.emulation_control_rumble, GetSetting(bindings, Indexed(SettingsFile.KEY_EMU_RUMBLE, pad)))];
    } else {
      out := out + [CheckBoxItem(Indexed(SettingsFile.KEY_GCADAPTER_RUMBLE, pad), IniCore, RString.gc_adapter_rumble, RString.gc_adapter_rumble_description, false,
          GetSetting(core, Indexed(SettingsFile.KEY_GCADAPTER_RUMBLE, pad)))];
      out := out + [CheckBoxItem(Indexed(SettingsFile.KEY_GCADAPTER_BONGOS, pad), IniCore, RString.gc_adapter_bongos, RString.gc_adapter_bongos_description, false,
          GetSetting(core, Indexed(SettingsFile.KEY_GCADAPTER_BONGOS, pad)))];
    }
  }

  /** The `when` of `loadSettingsList` for a declared tag and a non-null
      settings object: runs the routine of `tag` on the fresh list `sl`. */
  method BuildMenu(tag: MenuTag, gameId: Option<string>, store: Store, platform: Platform, choice: PadChoice)
    returns (r: Result<seq<Item>>)
    ensures r == MenuSettings(tag, gameId, store, platform, choice)
  {
    var sl: seq<Item> := [];
    match tag {
      case Config =>
        sl := AddConfigSettings(sl);
        MenuSettingsConfig(gameId, store, platform, choice);
      case ConfigGeneral =>
        sl := AddGeneralSettings(sl, store, platform);
        MenuSettingsGeneral(gameId, store, platform, choice);
      case ConfigInterface =>
        MenuSettingsInterface(gameId, store, platform, choice);
        var res := AddInterfaceSettings(sl, store, platform.sdkInt, gameId);
        if res.Failure? {
          return Failure(res.error);
        }
        sl := res.value;
      case Graphics =>
        MenuSettingsGraphics(gameId, store, platform, choice);
        var res := AddGraphicsSettings(sl, store, platform, gameId);
        if res.Failure? {
          return Failure(res.error);
        }
        sl := res.value;
      case Controller =>
        sl := AddControllerSettings(sl, store, choice);
        MenuSettingsController(gameId, store, platform, choice);
      case Enhancements =>
        sl := AddEnhanceSettings(sl, store, platform);
        MenuSettingsEnhancements(gameId, store, platform, choice);
      case Hacks =>
        sl := AddHackSettings(sl, store);
        MenuSettingsHacks(gameId, store, platform, choice);
      case Debug =>
        sl := AddDebugSettings(sl, store);
        MenuSettingsDebug(gameId, store, platform, choice);
    }
    r := Success(sl);
  }

  // ---------------------------------------------------------------------------
  // The presenter

  class SettingsFragmentPresenter {
    var menuTag: Option<MenuTag>
    var gameId: Option<string>
    var settings: Option<Store>
    var controllerNumber: int
    var controllerType: int

    /** A presenter before `onCreate`: every field at its initial value. */
    constructor ()
      ensures menuTag == None && gameId == None && settings == None
      ensures controllerNumber == 0 && controllerType == 0
    {
      menuTag := None;
      gameId := None;
      settings := None;
      controllerNumber := 0;
      controllerType := 0;
    }

    /** `onCreate`: records the menu to show and the game it is for. */
    method OnCreate(menuTag: MenuTag, gameId: Option<string>)
      modifies this
      ensures this.menuTag == Some(menuTag) && this.gameId == gameId
      ensures settings == old(settings)
      ensures controllerNumber == old(controllerNumber) && controllerType == old(controllerType)
    {
      this.gameId := gameId;
      this.menuTag := Some(menuTag);
    }

    /** `loadSettingsList`: stores the settings object, whatever happens next,
        then builds the list of the current menu. */
    method LoadSettingsList(settings: Option<Store>, platform: Platform, choice: PadChoice) returns (r: Loaded)
      modifies this
      ensures this.settings == settings
      ensures menuTag == old(menuTag) && gameId == old(gameId)
      ensures controllerNumber == old(controllerNumber) && controllerType == old(controllerType)
      ensures r == Assemble(menuTag, gameId, settings, platform, choice)
    {
      this.settings := settings;
      if menuTag.None? {
        return NoList;
      }
      var tag := menuTag.value;
      if tag != Config && settings.None? {
        // the `settings!!` each routine but the top-level one starts with
        return Crashed(NullPointerException);
      }
      // the top-level menu never reads the settings object
      var store: Store := if settings.Some? then settings.value else map[];
      var res := BuildMenu(tag, gameId, store, platform, choice);
      if res.Failure? {
        return Crashed(res.error);
      }
      r := List(res.value);
    }
  }
}
