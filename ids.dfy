/** The named constants of the settings code. Their values are not part of
    the code modelled here: each is an opaque id, and the only fact the
    model uses about the values is that distinct names have distinct values.
    The values are spaced 10 apart only so that the offsets the code adds to
    a resource id (`R.string.controller_0 + i`) never coincide with another
    constant by accident; nothing in the model depends on which resource an
    offset id denotes. */

/** The store key constants `SettingsFile.KEY_*`. */
module SettingsFile {
  const KEY_ANISOTROPY: int := 10
  const KEY_APPROX_LOGIC_OP_WITH_BLENDING: int := 20
  const KEY_ARBITRARY_MIPMAP_DETECTION: int := 30
  const KEY_ASPECT_RATIO: int := 40
  const KEY_AUDIO_BACKEND: int := 50
  const KEY_AUDIO_STRETCH: int := 60
  const KEY_AUDIO_STRETCH_MAX_LATENCY: int := 70
  const KEY_AUTO_DISC_CHANGE: int := 80
  const KEY_BACKEND_MULTITHREADING: int := 90
  const KEY_BUILTIN_TITLE_DATABASE: int := 100
  const KEY_CACHE_HIRES_TEXTURES: int := 110
  const KEY_CPU_CORE: int := 120
  const KEY_DEBUG_JITBRANCHOFF: int := 130
  const KEY_DEBUG_JITFLOATINGPOINTOFF: int := 140
  const KEY_DEBUG_JITINTEGEROFF: int := 150
  const KEY_DEBUG_JITLOADSTOREFLOATINGPOINTOFF: int := 160
  const KEY_DEBUG_JITLOADSTOREOFF: int := 170
  const KEY_DEBUG_JITLOADSTOREPAIREDOFF: int := 180
  const KEY_DEBUG_JITOFF: int := 190
  const KEY_DEBUG_JITPAIREDOFF: int := 200
  const KEY_DEBUG_JITREGISTERCACHEOFF: int := 210
  const KEY_DEBUG_JITSYSTEMREGISTEROFF: int := 220
  const KEY_DEFER_EFB_COPIES: int := 230
  const KEY_DESIGN: int := 240
  const KEY_DISABLE_COPY_FILTER: int := 250
  const KEY_DISABLE_FOG: int := 260
  const KEY_DISPLAY_SCALE: int := 270
  const KEY_DUAL_CORE: int := 280
  const KEY_EFB_DEFER_INVALIDATION: int := 290
  const KEY_EFB_TEXTURE: int := 300
  const KEY_EMU_RUMBLE: int := 310
  const KEY_ENABLE_CHEATS: int := 320
  const KEY_EXPAND_TO_CUTOUT_AREA: int := 330
  const KEY_FAST_DEPTH: int := 340
  const KEY_FAST_DISC_SPEED: int := 350
  const KEY_FORCE_24_BIT_COLOR: int := 360
  const KEY_FORCE_FILTERING: int := 370
  const KEY_FSAA: int := 380
  const KEY_GCADAPTER_BONGOS: int := 390
  const KEY_GCADAPTER_RUMBLE: int := 400
  const KEY_GCBIND_A: int := 410
  const KEY_GCBIND_B: int := 420
  const KEY_GCBIND_CONTROL_DOWN: int := 430
  const KEY_GCBIND_CONTROL_LEFT: int := 440
  const KEY_GCBIND_CONTROL_RIGHT: int := 450
  const KEY_GCBIND_CONTROL_UP: int := 460
  const KEY_GCBIND_C_DOWN: int := 470
  const KEY_GCBIND_C_LEFT: int := 480
  const KEY_GCBIND_C_RIGHT: int := 490
  const KEY_GCBIND_C_UP: int := 500
  const KEY_GCBIND_DPAD_DOWN: int := 510
  const KEY_GCBIND_DPAD_LEFT: int := 520
  const KEY_GCBIND_DPAD_RIGHT: int := 530
  const KEY_GCBIND_DPAD_UP: int := 540
  const KEY_GCBIND_START: int := 550
  const KEY_GCBIND_TRIGGER_L: int := 560
  const KEY_GCBIND_TRIGGER_L_ANALOG: int := 570
  const KEY_GCBIND_TRIGGER_R: int := 580
  const KEY_GCBIND_TRIGGER_R_ANALOG: int := 590
  const KEY_GCBIND_X: int := 600
  const KEY_GCBIND_Y: int := 610
  const KEY_GCBIND_Z: int := 620
  const KEY_GCPAD_G_TYPE: int := 630
  const KEY_GCPAD_TYPE: int := 640
  const KEY_GPU_TEXTURE_DECODING: int := 650
  const KEY_HIRES_TEXTURES: int := 660
  const KEY_IGNORE_FORMAT: int := 670
  const KEY_IMMEDIATE_XFB: int := 680
  const KEY_INTERNAL_RES: int := 690
  const KEY_JIT_FOLLOW_BRANCH: int := 700
  const KEY_MEM1_SIZE: int := 710
  const KEY_MEM2_SIZE: int := 720
  const KEY_MMU: int := 730
  const KEY_OSD_MESSAGES: int := 740
  const KEY_OVERCLOCK_ENABLE: int := 750
  const KEY_OVERCLOCK_PERCENT: int := 760
  const KEY_OVERRIDE_REGION_SETTINGS: int := 770
  const KEY_PER_PIXEL: int := 780
  const KEY_POST_SHADER: int := 790
  const KEY_RAM_OVERRIDE_ENABLE: int := 800
  const KEY_SAVE_TEXTURE_CACHE_TO_STATE: int := 810
  const KEY_SCALED_EFB: int := 820
  const KEY_SHADER_COMPILATION_MODE: int := 830
  const KEY_SHOW_FPS: int := 840
  const KEY_SKIP_DUPLICATE_XFBS: int := 850
  const KEY_SKIP_EFB: int := 860
  const KEY_SPEED_LIMIT: int := 870
  const KEY_SYNC_ON_SKIP_IDLE: int := 880
  const KEY_SYSTEM_BACK: int := 890
  const KEY_TEXCACHE_ACCURACY: int := 900
  const KEY_TMEM_CACHE_EMULATION: int := 910
  const KEY_USE_PANIC_HANDLERS: int := 920
  const KEY_VIDEO_BACKEND: int := 930
  const KEY_VIDEO_BACKEND_INDEX: int := 940
  const KEY_VI_SKIP: int := 950
  const KEY_VSYNC: int := 960
  const KEY_WAIT_FOR_SHADERS: int := 970
  const KEY_WIDE_SCREEN_HACK: int := 980
  const KEY_WIIMOTE_G_TYPE: int := 990
  const KEY_WIIMOTE_TYPE: int := 1000
  const KEY_XFB_TEXTURE: int := 1010
}

/** The section name constants `Settings.SECTION_*`. */
module Settings {
  const SECTION_BINDINGS: int := 1020
  const SECTION_CONTROLS: int := 1030
  const SECTION_DEBUG: int := 1040
  const SECTION_GFX_ENHANCEMENTS: int := 1050
  const SECTION_GFX_HACKS: int := 1060
  const SECTION_GFX_HARDWARE: int := 1070
  const SECTION_GFX_SETTINGS: int := 1080
  const SECTION_INI_CORE: int := 1090
  const SECTION_INI_DSP: int := 1100
  const SECTION_INI_INTERFACE: int := 1110
  const SECTION_WIIMOTE: int := 1120
}

/** The string resource ids `R.string.*`. */
module RString {
  const FSAA: int := 1130
  const FSAA_description: int := 1140
  const anisotropic_filtering: int := 1150
  const anisotropic_filtering_description: int := 1160
  const approx_logic_op_with_blending: int := 1170
  const approx_logic_op_with_blending_description: int := 1180
  const arbitrary_mipmap_detection: int := 1190
  const arbitrary_mipmap_detection_description: int := 1200
  const aspect_ratio: int := 1210
  const audio_backend: int := 1220
  const audio_stretch: int := 1230
  const audio_stretch_description: int := 1240
  const audio_stretch_max_latency: int := 1250
  const audio_stretch_max_latency_description: int := 1260
  const auto_disc_change: int := 1270
  const backend_multithreading: int := 1280
  const backend_multithreading_description: int := 1290
  const button_a: int := 1300
  const button_b: int := 1310
  const button_start: int := 1320
  const button_x: int := 1330
  const button_y: int := 1340
  const button_z: int := 1350
  const cache_custom_texture: int := 1360
  const cache_custom_texture_description: int := 1370
  const controller_0: int := 1380
  const controller_c: int := 1390
  const controller_control: int := 1400
  const controller_dpad: int := 1410
  const controller_trig: int := 1420
  const cpu_core: int := 1430
  const debug_jitbranchoff: int := 1440
  const debug_jitfloatingpointoff: int := 1450
  const debug_jitintegeroff: int := 1460
  const debug_jitloadstorefloatingoff: int := 1470
  const debug_jitloadstoreoff: int := 1480
  const debug_jitloadstorepairedoff: int := 1490
  const debug_jitoff: int := 1500
  const debug_jitpairedoff: int := 1510
  const debug_jitregistercacheoff: int := 1520
  const debug_jitsystemregistersoffr: int := 1530
  const debug_submenu: int := 1540
  const debug_warning: int := 1550
  const defer_efb_copies: int := 1560
  const defer_efb_copies_description: int := 1570
  const design: int := 1580
  const disable_copy_filter: int := 1590
  const disable_copy_filter_description: int := 1600
  const disable_fog: int := 1610
  const disable_fog_description: int := 1620
  const dual_core: int := 1630
  const dual_core_description: int := 1640
  const efb_copy_method: int := 1650
  const efb_copy_method_description: int := 1660
  const efb_defer_invalidation: int := 1670
  const efb_defer_invalidation_description: int := 1680
  const embedded_frame_buffer: int := 1690
  const emulation_control_rumble: int := 1700
  const enable_cheats: int := 1710
  const enable_cheats_description: int := 1720
  const enable_memory_size_override: int := 1730
  const enable_memory_size_override_description: int := 1740
  const enhancements_submenu: int := 1750
  const expand_to_cutout_area: int := 1760
  const expand_to_cutout_area_description: int := 1770
  const external_frame_buffer: int := 1780
  const fast_depth_calculation: int := 1790
  const fast_depth_calculation_description: int := 1800
  const fast_disc_speed: int := 1810
  const fast_disc_speed_description: int := 1820
  const force_24bit_color: int := 1830
  const force_24bit_color_description: int := 1840
  const force_texture_filtering: int := 1850
  const force_texture_filtering_description: int := 1860
  const gamecube_submenu: int := 1870
  const gc_adapter_bongos: int := 1880
  const gc_adapter_bongos_description: int := 1890
  const gc_adapter_rumble: int := 1900
  const gc_adapter_rumble_description: int := 1910
  const general_submenu: int := 1920
  const generic_buttons: int := 1930
  const generic_down: int := 1940
  const generic_left: int := 1950
  const generic_right: int := 1960
  const generic_up: int := 1970
  const gpu_driver_submenu: int := 1980
  const gpu_texture_decoding: int := 1990
  const gpu_texture_decoding_description: int := 2000
  const graphics_submenu: int := 2010
  const hacks_submenu: int := 2020
  const ignore_format_changes: int := 2030
  const ignore_format_changes_description: int := 2040
  const immediate_xfb: int := 2050
  const immediate_xfb_description: int := 2060
  const interface_submenu: int := 2070
  const internal_resolution: int := 2080
  const internal_resolution_description: int := 2090
  const jit_follow_branch: int := 2100
  const jit_follow_branch_description: int := 2110
  const load_custom_texture: int := 2120
  const load_custom_texture_description: int := 2130
  const main_mem1_size: int := 2140
  const main_mem2_size: int := 2150
  const memory_override: int := 2160
  const mmu_enable: int := 2170
  const mmu_enable_description: int := 2180
  const osd_messages: int := 2190
  const osd_messages_description: int := 2200
  const other: int := 2210
  const overclock_enable: int := 2220
  const overclock_enable_description: int := 2230
  const overclock_title: int := 2240
  const overclock_title_description: int := 2250
  const override_region_settings: int := 2260
  const panic_handlers: int := 2270
  const panic_handlers_description: int := 2280
  const per_pixel_lighting: int := 2290
  const per_pixel_lighting_description: int := 2300
  const post_processing_shader: int := 2310
  const scaled_efb_copy: int := 2320
  const scaled_efb_copy_description: int := 2330
  const setting_display_scale: int := 2340
  const shader_compilation_mode: int := 2350
  const shader_compilation_mode_description: int := 2360
  const show_fps: int := 2370
  const show_fps_description: int := 2380
  const skip_duplicate_xfbs: int := 2390
  const skip_duplicate_xfbs_description: int := 2400
  const skip_efb_access: int := 2410
  const skip_efb_access_description: int := 2420
  const speed_limit: int := 2430
  const sync_on_skip_idle: int := 2440
  const sync_on_skip_idle_description: int := 2450
  const system_back: int := 2460
  const texture_cache: int := 2470
  const texture_cache_accuracy: int := 2480
  const texture_cache_accuracy_description: int := 2490
  const texture_cache_to_state: int := 2500
  const texture_cache_to_state_description: int := 2510
  const tmem_cache_emulation: int := 2520
  const tmem_cache_emulation_description: int := 2530
  const trigger_left: int := 2540
  const trigger_left_analog: int := 2550
  const trigger_right: int := 2560
  const trigger_right_analog: int := 2570
  const use_builtin_title_database: int := 2580
  const vi_skip: int := 2590
  const vi_skip_description: int := 2600
  const video_backend: int := 2610
  const vsync: int := 2620
  const vsync_description: int := 2630
  const wait_for_shaders: int := 2640
  const wait_for_shaders_description: int := 2650
  const wide_screen_hack: int := 2660
  const wide_screen_hack_description: int := 2670
  const wii_submenu: int := 2680
  const wiimote_4: int := 2690
  const xfb_copy_method: int := 2700
  const xfb_copy_method_description: int := 2710
}

/** The array resource ids `R.array.*`. */
module RArray {
  const FSAAEntries: int := 2720
  const FSAAValues: int := 2730
  const anisotropicFilteringEntries: int := 2740
  const anisotropicFilteringValues: int := 2750
  const aspectRatioEntries: int := 2760
  const aspectRatioValues: int := 2770
  const designNames: int := 2780
  const designValues: int := 2790
  const emuCoresEntriesARM64: int := 2800
  const emuCoresEntriesGeneric: int := 2810
  const emuCoresValuesARM64: int := 2820
  const emuCoresValuesGeneric: int := 2830
  const gcpadTypeEntries: int := 2840
  const gcpadTypeValues: int := 2850
  const shaderCompilationModeEntries: int := 2860
  const shaderCompilationModeValues: int := 2870
  const textureCacheAccuracyEntries: int := 2880
  const textureCacheAccuracyValues: int := 2890
  const videoBackendEntries: int := 2900
  const videoBackendValues: int := 2910
  const wiimoteTypeEntries: int := 2920
  const wiimoteTypeValues: int := 2930
}
