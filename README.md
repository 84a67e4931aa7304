# Screen-space reflection pass — a verified model

This project models the screen-space reflection render feature of the
QuarkCore post-processing stack (`ScreenSpaceReflection.cs`). Each frame, the
pass:

1. traces reflections from the camera colour target into a reflection target;
2. publishes the raw result as the global texture `_SSRTexture`;
3. blurs the result through a pyramid of temporary render targets:
   - a downsample chain of `blurTimes` levels;
   - an upsample chain back up;
   - a resolve into the reflection target;
4. releases every temporary;
5. copies the reflection target back over the camera target.

When it is constructed, the pass also builds a 4×4 Bayer dither texture and
binds it to its material.

## Modules

- `RenderCommands` (`render_commands.dfy`) is the command vocabulary the pass
  records:
  - blits, with a plain copy or one of the material's sub-programs 0/1/2;
  - temporary allocation (`GetTemporaryRT`) and release (`ReleaseTemporaryRT`);
  - `SetGlobalTexture`.

  It also defines a `CommandBuffer` class whose methods append one command
  each, and the functions `Allocations` and `Releases`, which list the ids a
  command sequence allocates and releases.
- `DitherMap` (`dither_map.dfy`) holds the pass's private dither helpers
  (lines 58-92). They touch no field of the pass, so they are a module of
  their own, used by the pass's constructor. It holds:
  - `GetDitherColor`: the byte `(byte)(value / 16f * 255)` in all four
    channels;
  - `GenerateDitherMap`: fills a 16-element array cell by cell;
  - lemmas on the table: the cell values, the permutation, the recursive Bayer
    structure, and the range and distinctness of the bytes.
- `ScreenSpaceReflection` (`screen_space_reflection.dfy`) holds:
  - the `Settings` class (`downSampling`, `blurTimes` and their defaults);
  - the pass class `ScreenSpaceReflectionPass`, with its fields and the
    methods `SetupSrc`, `Configure` and `Execute`;
  - the specification functions `Execute` is proved against. `PassCommands`
    is the full command sequence of one enabled execution; `Downsample`,
    `Upsample` and `ReleaseAll` are its three loops.

  `Execute` is imperative. Its loops record into the command buffer and fill
  the pass's `downSampleID` and `upSampleID` arrays. Each loop is proved
  against the matching specification function.
- `ScreenSpaceReflectionProperties` (`screen_space_reflection_properties.dfy`)
  proves properties of the whole recorded sequence:
  - the early return;
  - the layout: trace, publish, pyramid, resolve, releases, copy back;
  - the pyramid's sizes;
  - the downsample and upsample chains;
  - the one-to-one pairing of the allocations with the releases;
  - a worked frame with the default settings on a 1920×1080 camera.

Modelling choices:

- Render target identifiers are abstract.
  - The two host-supplied targets (the camera colour target and the reflection
    target) have type `HostTarget`, which is never a pyramid temporary.
  - The property ids `_DownSample<i>` and `_UpSample<i>` are the tokens
    `DownSampleId(i)` and `UpSampleId(i)`.
- C#'s `int` division truncates toward zero, and `Div` models it explicitly
  (see `DivTruncatesTowardZero`).
- `Mathf.Max` on integers is `Max`.
- Both axes of the pyramid's base level are taken from the camera's width,
  as the code does (`HeightIsIgnored`).

### Two behaviours of the code worth knowing

- The cast to `byte` at line 90 truncates. For the dither value 1 the byte is
  15, where rounding would give 16. Each texel is `v * 255 / 16` in integer
  division (`DitherCell`, `GetDitherColor`).
- The base level `dst.width / downSampling` (lines 140-141) is not clamped;
  only the halved sizes are (`Mathf.Max(x / 2, 1)`, lines 155-156). A camera
  narrower than `downSampling` therefore allocates level 0 at side 0
  (`NarrowCameraBaseIsEmpty`), and every later level has side 1
  (`NonPositiveBaseLevels`, `LevelSizeClosedForm`).

## Model

All source paths below are `Assets/QuarkCore/Runtime/PostProcessing/ScreenSpaceReflection.cs`.

| member | source | states |
|---|---|---|
| ScreenSpaceReflection.Settings.constructor | Assets/QuarkCore/Runtime/PostProcessing/ScreenSpaceReflection.cs:8-17 | new settings have `downSampling == 4` and `blurTimes == 2` |
| ScreenSpaceReflection.ScreenSpaceReflectionPass.SetupSrc | Assets/QuarkCore/Runtime/PostProcessing/ScreenSpaceReflection.cs:51-56 | the pass stores the camera target, the settings and the reflection target it is given, and changes no other field |
| ScreenSpaceReflection.ScreenSpaceReflectionPass.constructor | Assets/QuarkCore/Runtime/PostProcessing/ScreenSpaceReflection.cs:94-106 | the material exists exactly when the shader was found; only then is the dither texture built, and it holds the 16 dither texels |
| ScreenSpaceReflection.ScreenSpaceReflectionPass.Configure | Assets/QuarkCore/Runtime/PostProcessing/ScreenSpaceReflection.cs:108-110 | the pass keeps the camera's descriptor for the frame |
| ScreenSpaceReflection.ScreenSpaceReflectionPass.Execute | Assets/QuarkCore/Runtime/PostProcessing/ScreenSpaceReflection.cs:116-177 | the buffer gains exactly `RecordedCommands(...)`: nothing when post-processing is off or the material is missing, otherwise the full pass. Enabled runs leave fresh id arrays of length `blurTimes`, holding every level's ids; skipped runs leave the arrays unchanged |
| ScreenSpaceReflection.ScreenSpaceReflectionPass.RecordPass | Assets/QuarkCore/Runtime/PostProcessing/ScreenSpaceReflection.cs:133-172 | an enabled execution appends exactly `PassCommands(src, ssr, dst, downSampling, blurTimes)` and fills both id arrays |
| ScreenSpaceReflection.NewLevelIds | Assets/QuarkCore/Runtime/PostProcessing/ScreenSpaceReflection.cs:142-149 | two fresh arrays of length `n`, where entry `i` is `_DownSample<i>` or `_UpSample<i>` |
| ScreenSpaceReflection.RecordBlur | Assets/QuarkCore/Runtime/PostProcessing/ScreenSpaceReflection.cs:150-172 | the pyramid, resolve, releases and copy back append exactly `BlurCommands(...)` |
| ScreenSpaceReflection.RecordDownsample | Assets/QuarkCore/Runtime/PostProcessing/ScreenSpaceReflection.cs:150-159 | the downsample loop appends `Downsample(ssr, base, depth, n)`; its running source ends at the last downsample level, or at the reflection target when `n == 0` |
| ScreenSpaceReflection.RecordUpsample | Assets/QuarkCore/Runtime/PostProcessing/ScreenSpaceReflection.cs:160-164 | the loop from `j = n - 2` down to 0 appends `Upsample(ssr, n, max(n-1, 0))`, and the running source ends at `UpSource` |
| ScreenSpaceReflection.RecordReleases | Assets/QuarkCore/Runtime/PostProcessing/ScreenSpaceReflection.cs:166-170 | the release loop appends `ReleaseAll(n)` |
| ScreenSpaceReflection.Halve | Assets/QuarkCore/Runtime/PostProcessing/ScreenSpaceReflection.cs:155-156 | the next side is at least 1, is exactly 1 for a side below 2 (zero or negative included), is not larger than a positive side, and is the floor of half of any side of at least 2 |
| ScreenSpaceReflection.Div | Assets/QuarkCore/Runtime/PostProcessing/ScreenSpaceReflection.cs:140-141 | C#'s `/` on `int`: for a non-negative dividend and a positive divisor it is the floor quotient; `DivTruncatesTowardZero` states truncation toward zero for every sign |
| ScreenSpaceReflection.BaseSize | Assets/QuarkCore/Runtime/PostProcessing/ScreenSpaceReflection.cs:140-141 | the base side, taken from the camera's width for both axes: for a non-negative width and positive `downSampling` it is the largest `r` with `r * downSampling <= width` |
| ScreenSpaceReflection.PassCommands | Assets/QuarkCore/Runtime/PostProcessing/ScreenSpaceReflection.cs:133-172 | one enabled execution records `4 + 5n + max(n-1, 0)` commands; `FrameLayout` places each of them |
| ScreenSpaceReflection.RecordedCommands | Assets/QuarkCore/Runtime/PostProcessing/ScreenSpaceReflection.cs:116-172 | an execution records nothing exactly when post-processing is off or the material is missing, and otherwise `4 + 5n + max(n-1, 0)` commands for `n = blurTimes` |
| ScreenSpaceReflection.LevelSize | Assets/QuarkCore/Runtime/PostProcessing/ScreenSpaceReflection.cs:140-156 | level 0 is the base side; every later level is at least 1 |
| ScreenSpaceReflection.Downsample | Assets/QuarkCore/Runtime/PostProcessing/ScreenSpaceReflection.cs:151-159 | `k` downsample iterations record `3k` commands |
| ScreenSpaceReflection.Upsample | Assets/QuarkCore/Runtime/PostProcessing/ScreenSpaceReflection.cs:160-164 | `t` upsample iterations record `t` blits |
| ScreenSpaceReflection.ReleaseAll | Assets/QuarkCore/Runtime/PostProcessing/ScreenSpaceReflection.cs:166-170 | `k` release iterations record `2k` releases |
| ScreenSpaceReflectionProperties.DivTruncatesTowardZero | Assets/QuarkCore/Runtime/PostProcessing/ScreenSpaceReflection.cs:140-141 | C# `/` truncates toward zero: the quotient's magnitude is the floor of the magnitudes' quotient, and negating either operand negates the quotient |
| ScreenSpaceReflectionProperties.NothingRecordedIffSkipped | Assets/QuarkCore/Runtime/PostProcessing/ScreenSpaceReflection.cs:118-125 | an execution records nothing if and only if post-processing is off or the material does not exist |
| ScreenSpaceReflectionProperties.FrameLayout | Assets/QuarkCore/Runtime/PostProcessing/ScreenSpaceReflection.cs:133-172 | an enabled execution records `4 + 5n + max(n-1, 0)` commands, in this order: the trace `Blit(src, ssr, pass 0)`; `SetGlobal("_SSRTexture", ssr)`; the downsample loop; the upsample loop; the resolve into `ssr`; the releases; the copy `Blit(ssr, src)` |
| ScreenSpaceReflectionProperties.FrameHead | Assets/QuarkCore/Runtime/PostProcessing/ScreenSpaceReflection.cs:133-165 | the command at any position up to the resolve: a downsample or upsample loop command, or else a blit or the publication |
| ScreenSpaceReflectionProperties.FrameTail | Assets/QuarkCore/Runtime/PostProcessing/ScreenSpaceReflection.cs:166-172 | after the resolve, every command but the last is the matching release of the release loop, and the last is the copy back |
| ScreenSpaceReflectionProperties.HeightIsIgnored | Assets/QuarkCore/Runtime/PostProcessing/ScreenSpaceReflection.cs:140-141 | both base sides come from `dst.width / downSampling`: cameras that differ only in height record the same commands |
| ScreenSpaceReflectionProperties.NarrowCameraBaseIsEmpty | Assets/QuarkCore/Runtime/PostProcessing/ScreenSpaceReflection.cs:140-141 | the base level is not clamped: a 3-pixel-wide camera with `downSampling == 4` gets base side 0 |
| ScreenSpaceReflectionProperties.LevelSizesNonIncreasing | Assets/QuarkCore/Runtime/PostProcessing/ScreenSpaceReflection.cs:151-156 | from level 1 on (from level 0 when the base is positive), levels are at least 1 and never grow |
| ScreenSpaceReflectionProperties.NonPositiveBaseLevels | Assets/QuarkCore/Runtime/PostProcessing/ScreenSpaceReflection.cs:151-156 | when the base side is below 1, every level after the first has side exactly 1 |
| ScreenSpaceReflectionProperties.LevelSizeClosedForm | Assets/QuarkCore/Runtime/PostProcessing/ScreenSpaceReflection.cs:151-156 | level `i` has side `max(base / 2^i, 1)` for a positive base, and so does every level after the first for any base |
| ScreenSpaceReflectionProperties.TemporarySizes | Assets/QuarkCore/Runtime/PostProcessing/ScreenSpaceReflection.cs:153-154 | every allocation of an enabled execution is square at its level's side, uses the camera's depth bits, and belongs to a level below `n` |
| ScreenSpaceReflectionProperties.DownsampleAt | Assets/QuarkCore/Runtime/PostProcessing/ScreenSpaceReflection.cs:151-159 | downsample level `i` allocates `_DownSample<i>` then `_UpSample<i>` at the level's side, then blurs with pass 1 from the reflection target (`i == 0`) or from `_DownSample<i-1>` into `_DownSample<i>` |
| ScreenSpaceReflectionProperties.DownsampleNoRelease | Assets/QuarkCore/Runtime/PostProcessing/ScreenSpaceReflection.cs:151-159 | every downsample command is an allocation or a blit into a `_DownSample` target |
| ScreenSpaceReflectionProperties.UpsampleAt | Assets/QuarkCore/Runtime/PostProcessing/ScreenSpaceReflection.cs:160-164 | upsample blit `s` draws with pass 2 into `_UpSample<n-2-s>`; its source is `_DownSample<n-1>` when `s == 0`, otherwise `_UpSample<n-1-s>` |
| ScreenSpaceReflectionProperties.PyramidChain | Assets/QuarkCore/Runtime/PostProcessing/ScreenSpaceReflection.cs:150-164 | the downsample and upsample blits at their positions in the full execution |
| ScreenSpaceReflectionProperties.TopUpSampleNeverWritten | Assets/QuarkCore/Runtime/PostProcessing/ScreenSpaceReflection.cs:160-164 | no blit of an execution draws into `_UpSample<n-1>`, which is allocated but never written |
| ScreenSpaceReflectionProperties.ResolveAndCopyBack | Assets/QuarkCore/Runtime/PostProcessing/ScreenSpaceReflection.cs:165-172 | the resolve copies `_UpSample0` (n ≥ 2), `_DownSample0` (n = 1) or the reflection target itself (n = 0) into the reflection target; then come the `2n` releases and the copy back into the camera target |
| ScreenSpaceReflectionProperties.LevelPairsAt | Assets/QuarkCore/Runtime/PostProcessing/ScreenSpaceReflection.cs:145-149 | the `t`-th id of the level-pair list is `_DownSample<t/2>` for even `t` and `_UpSample<t/2>` for odd `t` |
| ScreenSpaceReflectionProperties.LevelPairsDistinct | Assets/QuarkCore/Runtime/PostProcessing/ScreenSpaceReflection.cs:145-149 | the `2n` ids are pairwise distinct, and they are exactly the ids of levels below `n` |
| ScreenSpaceReflectionProperties.DownsampleAllocations | Assets/QuarkCore/Runtime/PostProcessing/ScreenSpaceReflection.cs:151-159 | the downsample loop allocates `_DownSample<i>`, `_UpSample<i>` for each level in order, and releases nothing |
| ScreenSpaceReflectionProperties.UpsampleAllocations | Assets/QuarkCore/Runtime/PostProcessing/ScreenSpaceReflection.cs:160-164 | the upsample loop neither allocates nor releases |
| ScreenSpaceReflectionProperties.ReleaseAllReleases | Assets/QuarkCore/Runtime/PostProcessing/ScreenSpaceReflection.cs:166-170 | the release loop releases the `2n` ids in allocation order and allocates nothing |
| ScreenSpaceReflectionProperties.ReleaseAllOnlyReleases | Assets/QuarkCore/Runtime/PostProcessing/ScreenSpaceReflection.cs:166-170 | every command of the release loop is a release |
| ScreenSpaceReflectionProperties.ReleaseAllAt | Assets/QuarkCore/Runtime/PostProcessing/ScreenSpaceReflection.cs:166-170 | release `t` frees the `t`-th allocated id |
| ScreenSpaceReflectionProperties.BlurCounts | Assets/QuarkCore/Runtime/PostProcessing/ScreenSpaceReflection.cs:150-172 | the blur allocates the `2n` level ids and releases the same ids in the same order |
| ScreenSpaceReflectionProperties.AllocationsBalanced | Assets/QuarkCore/Runtime/PostProcessing/ScreenSpaceReflection.cs:133-172 | an enabled execution allocates `2n` ids and releases exactly the same ids (the same multiset, in fact the same order), so the net change in temporaries is zero |
| ScreenSpaceReflectionProperties.PrefixAllocations | Assets/QuarkCore/Runtime/PostProcessing/ScreenSpaceReflection.cs:133-165 | everything up to and including the resolve allocates all `2n` ids |
| ScreenSpaceReflectionProperties.NoReleaseBeforeResolve | Assets/QuarkCore/Runtime/PostProcessing/ScreenSpaceReflection.cs:133-165 | nothing is released up to and including the resolve |
| ScreenSpaceReflectionProperties.ReleaseOfAllocated | Assets/QuarkCore/Runtime/PostProcessing/ScreenSpaceReflection.cs:166-170 | each command of the release loop releases an id allocated earlier in the same execution |
| ScreenSpaceReflectionProperties.ReleasesFollowAllocations | Assets/QuarkCore/Runtime/PostProcessing/ScreenSpaceReflection.cs:151-170 | every release comes after the resolve and frees an id allocated earlier; every allocation comes before the resolve |
| ScreenSpaceReflectionProperties.DefaultSettingsOn1080p | Assets/QuarkCore/Runtime/PostProcessing/ScreenSpaceReflection.cs:133-172 | with the default settings (4, 2) on a 1920×1080 camera, the execution records exactly the 15 listed commands: 480×480 and 240×240 levels, one upsample blit, the resolve from `_UpSample0`, four releases, the copy back |
| ScreenSpaceReflectionProperties.DefaultDownsample | Assets/QuarkCore/Runtime/PostProcessing/ScreenSpaceReflection.cs:151-159 | the two downsample levels of that worked frame, command by command |
| ScreenSpaceReflectionProperties.DefaultReleases | Assets/QuarkCore/Runtime/PostProcessing/ScreenSpaceReflection.cs:166-170 | the four releases of a two-level pyramid, in allocation order |
| DitherMap.GetDitherColor | Assets/QuarkCore/Runtime/PostProcessing/ScreenSpaceReflection.cs:88-92 | all four channels are equal, and the byte is the truncation of `255 * value / 16` |
| DitherMap.DitherTable | Assets/QuarkCore/Runtime/PostProcessing/ScreenSpaceReflection.cs:65-80 | the texture has 16 texels; `DitherCell` states texel `i` is the dither colour of the `i`-th Bayer value |
| DitherMap.GenerateDitherMap | Assets/QuarkCore/Runtime/PostProcessing/ScreenSpaceReflection.cs:58-86 | a fresh 16-texel array holding the dither table, cell by cell |
| DitherMap.DitherCell | Assets/QuarkCore/Runtime/PostProcessing/ScreenSpaceReflection.cs:65-90 | texel `i` is `BayerOrder[i] * 255 / 16` in every channel, with `BayerOrder[i] < 16` |
| DitherMap.BayerOrderIsPermutation | Assets/QuarkCore/Runtime/PostProcessing/ScreenSpaceReflection.cs:65-80 | the 16 dither values are a permutation of 0..15 |
| DitherMap.BayerOrderIsRecursiveBayer | Assets/QuarkCore/Runtime/PostProcessing/ScreenSpaceReflection.cs:65-80 | cell (row, col) holds `4 * M2[row%2][col%2] + M2[row/2][col/2]`, where `M2` is the 2×2 Bayer matrix |
| DitherMap.DitherBytesInRange | Assets/QuarkCore/Runtime/PostProcessing/ScreenSpaceReflection.cs:65-91 | all 16 texel bytes are at most 239 and pairwise distinct |
| DitherMap.ScaledByteInjective | Assets/QuarkCore/Runtime/PostProcessing/ScreenSpaceReflection.cs:90 | distinct dither values below 16 scale to distinct bytes |

## Left out

- The host engine's API is reduced to the recorded command sequence:
  - drawing, texture creation, `SetPixels32`/`Apply`;
  - the command-buffer pool;
  - `ProfilingScope`;
  - `context.ExecuteCommandBuffer`.

  The pass's own logic is unchanged.
- `Shader.PropertyToID` hashing is left out. The ids are the abstract tokens
  `DownSampleId(i)` and `UpSampleId(i)`, assumed distinct from one another
  and from the host's targets.
- The float settings and the `SetFloat` calls that forward them are left out:
  `MaxStep`, `StepSize`, `MaxDistance`, `Thickness`, `blurRange`. They do not
  affect which commands are recorded, and floating point is not modelled.
- The feature's `Create` and `AddRenderPasses` are left out. They are host
  glue: they construct the pass, name the reflection handle `_SSRTexture`
  and call `SetupSrc`.
- `renderPassEvent` is left out; the engine only uses it for scheduling.
- ScreenSpaceReflection.ScreenSpaceReflectionPass.Configure: models only the
  descriptor assignment. The reflection target's allocation, `ConfigureTarget`
  and `ConfigureClear` are host calls, and that allocation is not matched by a
  release anywhere in this pass.
- The filter modes and texture formats passed to `GetTemporaryRT` are left
  out.
- `Debug.LogError` messages are left out; only the early return they
  accompany is modelled.
- ScreenSpaceReflection.ScreenSpaceReflectionPass.Execute: requires a
  non-null `settings`, `downSampling != 0` and `blurTimes >= 0` whenever it
  gets past the early returns. In the source, these cases throw a null
  reference, a division by zero, or an overflow when the id arrays are
  allocated. Those exceptions are not modelled.
- DitherMap.GetDitherColor: takes the dither value as a natural number
  below 17 rather than a `float`. Every call site passes a whole number from
  0 to 15, and for those the float arithmetic is exact.
- ScreenSpaceReflection.Div: its contract states only the positive case.
  Truncation for the other signs is proved separately by
  `DivTruncatesTowardZero`.
- `int` is unbounded in the model. The only 32-bit overflow the pass could
  reach is `int.MinValue / -1` at line 140, which throws an
  `OverflowException` in C# where `Div` returns 2^31. No camera has a
  negative width, so this is not modelled.
