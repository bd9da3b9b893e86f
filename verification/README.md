# RkISP1 black-level correction

A Dafny model of libcamera's RkISP1 black-level-correction algorithm
(`BlackLevelCorrection`, `src/ipa/rkisp1/algorithms/blc.cpp`). The algorithm
subtracts a fixed per-channel offset from every pixel so that black maps to
zero. It works in two steps:

- **`init`** resolves four black levels (R, Gr, Gb, B) from the tuning file's
  four independently optional `int16` values and the sensor helper's optional
  single level. Without a sensor level each channel takes its tuning value or
  the fallback 4096. With a sensor level, a complete set of tuning values
  still wins, and a partial set is ignored in favour of the sensor level on
  all four channels. `init` always returns 0 and latches the resolved state.
- **`prepare`** acts only on frame 0 and only once the levels are resolved.
  It clears `enable_auto`, writes each level shifted right by 4 (16-bit sample
  domain to 12-bit register domain) into `fixed_val`, and ORs the BLS module
  bit into `module_en_update`, `module_ens` and `module_cfg_update`.

Modules:

- `Optional` (`optional.dfy`): `Option` with `ValueOr`, the `std::optional` inputs.
- `IntTypes` (`int_types.dfy`): `int16` and `uint32`.
- `ArithShift` (`arith_shift.dfy`): the signed right shift as repeated halving
  toward negative infinity (`ShiftRight`), proved equal to floor division by
  2^n (`ShiftRightIsFloorDiv`, the statement of what `ShiftRight` computes).
- `IspParams` (`isp_params.dfy`): the parameter buffer. The three module masks
  are `bv32`. The BLS configuration is explicit. Everything else in the buffer
  is opaque bytes.
- `Blc` (`blc.dfy`): the algorithm state (`Unresolved` | `Resolved(levels)`),
  `Construct`, `Resolve`, `Init`, `ToRegister` and `Prepare`.
- `BlcProperties` (`blc_properties.dfy`): a per-channel reference statement of
  the precedence rule (`ChannelOrigin`), and lemmas relating it and the
  operations to one another.

The sensor helper's `blackLevel()` and the YAML lookups are inputs to `Init`.
The frame number and the parameter buffer are inputs to `Prepare`. Every
operation is a pure function: the mutated buffer and the updated algorithm are
returned, not modified in place.

Three facts about the code are worth spelling out. Without a sensor level,
tuning values are used per channel even when only some are present
(blc.cpp:67-70). On any frame other than 0, `prepare` returns without touching
the buffer (blc.cpp:110-111). `init` may be called again and then re-resolves
the levels (blc.cpp:46-100).

## Model

| member | source | states |
|---|---|---|
| Blc.Construct | src/ipa/rkisp1/algorithms/blc.cpp:38-41 | a new algorithm starts with the latch cleared, so `prepare` leaves every buffer unchanged on every frame |
| Blc.Resolve | src/ipa/rkisp1/algorithms/blc.cpp:49-89 | without a sensor level, each channel is its tuning value if present, else 4096; with one and all four tuning values, the tuning values; with one and any tuning value missing, the sensor level on all four channels |
| Blc.Init | src/ipa/rkisp1/algorithms/blc.cpp:46-100 | always returns 0, always leaves the algorithm resolved, and holds the levels of the precedence rule whatever the state was before |
| Blc.ToRegister | src/ipa/rkisp1/algorithms/blc.cpp:117-121 | `level >> 4` drops the four low bits: v*16 <= level < v*16+16, i.e. floor division by 16; the result fits a signed 12-bit field, and an unsigned 12-bit field for non-negative levels |
| Blc.Prepare | src/ipa/rkisp1/algorithms/blc.cpp:105-126 | on a frame after 0 or before `init`, the buffer is returned unchanged; on frame 0 once resolved, `enable_auto` is 0, each `fixed_val` field is its level scaled down by 16, the BLS bit is set in the three masks with their other bits kept, and the rest of the buffer is unchanged |
| ArithShift.ShiftRight | src/ipa/rkisp1/algorithms/blc.cpp:118-121 | the signed `>>` keeps the sign of its operand and never increases its magnitude; its value, floor division by 2^n, is proved by `ShiftRightIsFloorDiv` |
| ArithShift.ShiftRightIsFloorDiv | src/ipa/rkisp1/algorithms/blc.cpp:118-121 | the signed right shift by n bits equals floor division by 2^n, for negative values too |
| BlcProperties.ResolveFollowsOrigin | src/ipa/rkisp1/algorithms/blc.cpp:53-89 | on every channel and every input, the three-branch resolution agrees with the per-channel rule: sensor level iff sensor present and tuning incomplete, else the channel's tuning value, else 4096 |
| BlcProperties.FallbackUsedIff | src/ipa/rkisp1/algorithms/blc.cpp:56-70 | 4096 is used on a channel exactly when there is no sensor level and that channel has no tuning value |
| BlcProperties.SensorLevelUsedIff | src/ipa/rkisp1/algorithms/blc.cpp:53-89 | the sensor level is used on some channel exactly when it exists and the tuning file is incomplete, and then it is used on all four |
| BlcProperties.NoMixingWithSensorLevel | src/ipa/rkisp1/algorithms/blc.cpp:71-89 | with a sensor level, all four channels take their level from the same source |
| BlcProperties.CompleteTuningOverridesSensor | src/ipa/rkisp1/algorithms/blc.cpp:71-83 | a complete tuning file gives its own four values, the same as with no sensor level at all |
| BlcProperties.PartialTuningIgnored | src/ipa/rkisp1/algorithms/blc.cpp:84-89 | with a sensor level, any two incomplete tuning files give the same levels, the sensor level on every channel |
| BlcProperties.ToRegisterMonotonic | src/ipa/rkisp1/algorithms/blc.cpp:118-121 | scaling to the register domain preserves the order of levels |
| BlcProperties.PrepareIdempotent | src/ipa/rkisp1/algorithms/blc.cpp:110-125 | running `prepare` twice with the same frame number gives the same buffer as running it once |
| BlcProperties.PrepareOverwritesBls | src/ipa/rkisp1/algorithms/blc.cpp:116-121 | the values written into the BLS configuration on frame 0 do not depend on what the buffer held |
| BlcProperties.InitThenPrepare | src/ipa/rkisp1/algorithms/blc.cpp:91-121 | after `init`, frame 0 gets each resolved level divided by 16 (floor) and every later frame is left alone |
| BlcProperties.NothingProvidedScenario | src/ipa/rkisp1/algorithms/blc.cpp:56-125 | with no tuning values and no sensor level, the levels are 4096 and frame 0 gets 256 on every channel, `enable_auto` 0 and the BLS bit enabled |
| BlcProperties.TuningBeatsSensorScenario | src/ipa/rkisp1/algorithms/blc.cpp:71-83 | a sensor level of 256 is overridden by a complete tuning file with distinct values |

## Left out

- Logging: the warning and debug messages of `init` (blc.cpp:63-65, 77-78, 93-97) do not affect any value or branch.
- YAML access: the four `tuningData[...].get<int16_t>()` lookups (blc.cpp:49-52) are the four `Option<int16>` fields of `TuningLevels`. The parser is not part of this model.
- Stored levels: the members `blackLevelRed_` … `blackLevelBlue_` are declared in `blc.h`, which is not part of this model; they are taken to be `int16`, like the tuning values assigned to them, and `BlackLevels` and `ToRegister` rely on that range.
- Sensor helper: `context.camHelper->blackLevel()` (blc.cpp:55) is the `Option<int16>` input of `Init`. Its declared element type is not part of this model, so the `int16` range is assumed.
- Plugin registration: `REGISTER_IPA_ALGORITHM` (blc.cpp:128) is framework machinery.
- Register layout: the field widths of the parameter buffer and the value of `RKISP1_CIF_ISP_MODULE_BLS` come from the kernel uAPI header, which is not part of this model. `ModuleBls` is a fixed `bv32` mask, and no proof depends on which bit it is. Fields the algorithm does not touch are opaque bytes.
- Blc.ToRegister: the register fields are unbounded integers. The conversion of a negative shifted level into the fixed-width `fixed_val` field is not modelled, only the shifted value and its 12-bit range.
