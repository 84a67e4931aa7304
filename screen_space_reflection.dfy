/** The screen-space reflection render pass: its settings, the per-frame
    command sequence it records, and the pass object that records it. */
module ScreenSpaceReflection {
  import opened RenderCommands
  import DitherMap

  /** C#'s `/` on `int`: the quotient truncated toward zero. */
  function Div(a: int, b: int): (q: int)
    requires b != 0
    ensures a >= 0 && b > 0 ==> q == a / b
  {
    if a >= 0 && b > 0 then a / b
    else if a < 0 && b < 0 then (-a) / (-b)
    else if a >= 0 then -(a / (-b))
    else -((-a) / b)
  }

  /** `Mathf.Max` on integers. */
  function Max(a: int, b: int): int
  {
    if a < b then b else a
  }

  /** The pass's user-editable settings (a serialized class of the host). */
  class Settings {
    var downSampling: int
    var blurTimes: int

    constructor ()
      ensures downSampling == 4 && blurTimes == 2
    {
      downSampling := 4;
      blurTimes := 2;
    }
  }

  /** The camera target's descriptor, as far as the pass reads it. */
  datatype Descriptor = Descriptor(width: int, height: int, depthBufferBits: int)

  /** The next pyramid level's side: half the current one, at least 1. */
  function Halve(x: int): (r: int)
    ensures r >= 1
    ensures x < 2 ==> r == 1
    ensures x >= 1 ==> r <= x
    ensures x >= 2 ==> 2 * r <= x < 2 * r + 2
  {
    Max(Div(x, 2), 1)
  }

  /** The global texture name under which the raw reflection is published. */
  const SsrTextureName: string := "_SSRTexture"

  /** The base pyramid side: both axes are taken from the camera's width. */
  function BaseSize(dst: Descriptor, downSampling: int): (r: int)
    requires downSampling != 0
    ensures dst.width >= 0 && downSampling > 0 ==> 0 <= r * downSampling <= dst.width < r * downSampling + downSampling
  {
    Div(dst.width, downSampling)
  }

  /** The side of pyramid level `i` for base side `base`. */
  function LevelSize(base: int, i: nat): (s: int)
    ensures i == 0 ==> s == base
    ensures i > 0 ==> s >= 1
  {
    if i == 0 then base else Halve(LevelSize(base, i - 1))
  }

  /** The running source of downsample level `i`. */
  function DownSource(ssr: HostTarget, i: nat): Target
  {
    if i == 0 then ssr else Temp(DownSampleId(i - 1))
  }

  /** One iteration of the downsample loop. */
  function DownsampleLevel(ssr: HostTarget, base: int, depth: int, i: nat): seq<Command>
  {
    var side := LevelSize(base, i);
    [ GetTemp(DownSampleId(i), side, side, depth),
      GetTemp(UpSampleId(i), side, side, depth),
      Blit(DownSource(ssr, i), Temp(DownSampleId(i)), Material(1)) ]
  }

  /** The first `k` iterations of the downsample loop. */
  function Downsample(ssr: HostTarget, base: int, depth: int, k: nat): (cmds: seq<Command>)
    ensures |cmds| == 3 * k
  {
    if k == 0 then [] else Downsample(ssr, base, depth, k - 1) + DownsampleLevel(ssr, base, depth, k - 1)
  }

  /** How many times the upsample loop runs for `n` pyramid levels. */
  function UpCount(n: nat): nat
  {
    if n == 0 then 0 else n - 1
  }

  /** The running source after `t` iterations of the upsample loop. */
  function UpSource(ssr: HostTarget, n: nat, t: nat): Target
    requires t <= UpCount(n)
  {
    if t == 0 then DownSource(ssr, n) else Temp(UpSampleId(n - 1 - t))
  }

  /** The first `t` iterations of the upsample loop, which visits levels
      `n - 2` down to 0. */
  function Upsample(ssr: HostTarget, n: nat, t: nat): (cmds: seq<Command>)
    requires t <= UpCount(n)
    ensures |cmds| == t
  {
    if t == 0 then []
    else Upsample(ssr, n, t - 1) + [Blit(UpSource(ssr, n, t - 1), Temp(UpSampleId(n - 1 - t)), Material(2))]
  }

  /** The release loop's first `k` iterations. */
  function ReleaseAll(k: nat): (cmds: seq<Command>)
    ensures |cmds| == 2 * k
  {
    if k == 0 then [] else ReleaseAll(k - 1) + [Release(DownSampleId(k - 1)), Release(UpSampleId(k - 1))]
  }

  /** The blur pyramid's commands for `n` levels: the downsample and upsample
      loops, the resolve into the reflection target, the releases, and the
      copy back into the camera target. */
  function BlurCommands(src: HostTarget, ssr: HostTarget, base: int, depth: int, n: nat): seq<Command>
  {
    Downsample(ssr, base, depth, n)
    + Upsample(ssr, n, UpCount(n))
    + [Blit(UpSource(ssr, n, UpCount(n)), ssr, Copy)]
    + ReleaseAll(n)
    + [Blit(ssr, src, Copy)]
  }

  /** The commands one enabled execution records, for `n` blur iterations. */
  function PassCommands(src: HostTarget, ssr: HostTarget, dst: Descriptor, downSampling: int, n: nat): (cmds: seq<Command>)
    requires downSampling != 0
    ensures |cmds| == 4 + 5 * n + UpCount(n)
  {
    [Blit(src, ssr, Material(0)), SetGlobal(SsrTextureName, ssr)]
    + BlurCommands(src, ssr, BaseSize(dst, downSampling), dst.depthBufferBits, n)
  }

  /** The commands one execution records: none when post-processing is
      off or the material was never created. */
  function RecordedCommands(enabled: bool, materialCreated: bool, src: HostTarget, ssr: HostTarget,
                            dst: Descriptor, downSampling: int, blurTimes: int): (cmds: seq<Command>)
    requires enabled && materialCreated ==> downSampling != 0 && blurTimes >= 0
    ensures cmds == [] <==> !enabled || !materialCreated
    ensures enabled && materialCreated ==> |cmds| == 4 + 5 * blurTimes + UpCount(blurTimes)
  {
    if !enabled || !materialCreated then []
    else PassCommands(src, ssr, dst, downSampling, blurTimes)
  }

  lemma ConcatFrame<T>(c: seq<T>, d: seq<T>, u: seq<T>, r: seq<T>, l: seq<T>, f: seq<T>)
    ensures (((c + d) + u) + r) + l + f == c + (d + u + r + l + f)
  {
  }

  /** Whether `down` and `up` hold the property ids `_DownSample<i>` and
      `_UpSample<i>` of every level `i`. */
  ghost predicate LevelIds(down: array<TempId>, up: array<TempId>)
    reads down, up
  {
    down.Length == up.Length &&
    forall l :: 0 <= l < down.Length ==> down[l] == DownSampleId(l) && up[l] == UpSampleId(l)
  }

  /** The per-level property id arrays, filled level by level. */
  method NewLevelIds(n: nat) returns (down: array<TempId>, up: array<TempId>)
    ensures fresh(down) && fresh(up) && down.Length == n && LevelIds(down, up)
  {
    down := new TempId[n];
    up := new TempId[n];
    var i := 0;
    while i < n
      invariant 0 <= i <= n
      invariant forall l :: 0 <= l < i ==> down[l] == DownSampleId(l) && up[l] == UpSampleId(l)
    {
      down[i] := DownSampleId(i);
      up[i] := UpSampleId(i);
      i := i + 1;
    }
  }

  /** Everything an enabled execution records after publishing the raw
      reflection: the pyramid, the resolve, the releases and the copy back. */
  method RecordBlur(cmd: CommandBuffer, down: array<TempId>, up: array<TempId>,
                    src: HostTarget, ssr: HostTarget, base: int, depth: int)
    requires LevelIds(down, up)
    modifies cmd
    ensures cmd.commands == old(cmd.commands) + BlurCommands(src, ssr, base, depth, down.Length)
  {
    var n := down.Length;
    var temp := RecordDownsample(cmd, down, up, ssr, base, depth);
    temp := RecordUpsample(cmd, down, up, ssr, temp);
    cmd.Blit(temp, ssr, Copy);
    RecordReleases(cmd, down, up);
    cmd.Blit(ssr, src, Copy);
    ConcatFrame(old(cmd.commands), Downsample(ssr, base, depth, n), Upsample(ssr, n, UpCount(n)),
                [Blit(UpSource(ssr, n, UpCount(n)), ssr, Copy)], ReleaseAll(n), [Blit(ssr, src, Copy)]);
  }

  /** The downsample loop: allocates each level's two targets at the current
      side, halves the side, and blurs the running source into the level. */
  method RecordDownsample(cmd: CommandBuffer, down: array<TempId>, up: array<TempId>,
                          ssr: HostTarget, base: int, depth: int) returns (temp: Target)
    requires LevelIds(down, up)
    modifies cmd
    ensures cmd.commands == old(cmd.commands) + Downsample(ssr, base, depth, down.Length)
    ensures temp == DownSource(ssr, down.Length)
  {
    var width, height := base, base;
    temp := ssr;
    var i := 0;
    while i < down.Length
      invariant 0 <= i <= down.Length
      invariant width == LevelSize(base, i) && height == LevelSize(base, i)
      invariant temp == DownSource(ssr, i)
      invariant cmd.commands == old(cmd.commands) + Downsample(ssr, base, depth, i)
    {
      cmd.GetTemporaryRT(down[i], width, height, depth);
      cmd.GetTemporaryRT(up[i], width, height, depth);
      height := Max(Div(height, 2), 1);
      width := Max(Div(width, 2), 1);
      cmd.Blit(temp, Temp(down[i]), Material(1));
      temp := Temp(down[i]);
      i := i + 1;
    }
  }

  /** The upsample loop, from level `n - 2` down to level 0. */
  method RecordUpsample(cmd: CommandBuffer, down: array<TempId>, up: array<TempId>,
                        ssr: HostTarget, top: Target) returns (temp: Target)
    requires LevelIds(down, up)
    requires top == DownSource(ssr, up.Length)
    modifies cmd
    ensures cmd.commands == old(cmd.commands) + Upsample(ssr, up.Length, UpCount(up.Length))
    ensures temp == UpSource(ssr, up.Length, UpCount(up.Length))
  {
    var n := up.Length;
    temp := top;
    var j := n - 2;
    while j >= 0
      invariant -2 <= j <= n - 2 && (j == -2 ==> n == 0)
      invariant temp == UpSource(ssr, n, n - 2 - j)
      invariant cmd.commands == old(cmd.commands) + Upsample(ssr, n, n - 2 - j)
    {
      cmd.Blit(temp, Temp(up[j]), Material(2));
      temp := Temp(up[j]);
      j := j - 1;
    }
  }

  /** The release loop: frees both targets of every level. */
  method RecordReleases(cmd: CommandBuffer, down: array<TempId>, up: array<TempId>)
    requires LevelIds(down, up)
    modifies cmd
    ensures cmd.commands == old(cmd.commands) + ReleaseAll(down.Length)
  {
    var k := 0;
    while k < down.Length
      invariant 0 <= k <= down.Length
      invariant cmd.commands == old(cmd.commands) + ReleaseAll(k)
    {
      cmd.ReleaseTemporaryRT(down[k]);
      cmd.ReleaseTemporaryRT(up[k]);
      k := k + 1;
    }
  }

  class ScreenSpaceReflectionPass {
    /** Whether the reflection material exists (its shader was found). */
    var materialCreated: bool
    /** The dither texture bound to the material as `_DitherMap`. */
    var ditherMap: array?<DitherMap.Color32>
    var dst: Descriptor
    var ssrHandle: HostTarget
    var src: HostTarget
    var settings: Settings?
    var downSampleID: array?<TempId>
    var upSampleID: array?<TempId>

    /** Looks up the shader (`shaderFound` is the lookup's outcome); only when
        it exists are the material and its dither texture created. */
    constructor (shaderFound: bool)
      ensures materialCreated == shaderFound
      ensures shaderFound ==> ditherMap != null && fresh(ditherMap) && ditherMap[..] == DitherMap.DitherTable()
      ensures !shaderFound ==> ditherMap == null
      ensures settings == null && downSampleID == null && upSampleID == null
    {
      materialCreated := false;
      ditherMap := null;
      dst := Descriptor(0, 0, 0);
      ssrHandle := Host(0);
      src := Host(0);
      settings := null;
      downSampleID := null;
      upSampleID := null;
      new;
      if shaderFound {
        materialCreated := true;
        ditherMap := DitherMap.GenerateDitherMap();
      }
    }

    method SetupSrc(src: HostTarget, settings: Settings, ssrHandle: HostTarget)
      modifies this`src, this`settings, this`ssrHandle
      ensures this.src == src && this.settings == settings && this.ssrHandle == ssrHandle
    {
      this.src := src;
      this.settings := settings;
      this.ssrHandle := ssrHandle;
    }

    /** Takes the camera's descriptor for the frame. */
    method Configure(cameraTextureDescriptor: Descriptor)
      modifies this`dst
      ensures dst == cameraTextureDescriptor
    {
      dst := cameraTextureDescriptor;
    }

    /** Records one frame's reflection commands into `cmd`. */
    method Execute(cmd: CommandBuffer, postProcessEnabled: bool)
      requires postProcessEnabled && materialCreated ==>
                 settings != null && settings.downSampling != 0 && settings.blurTimes >= 0
      modifies cmd, this`downSampleID, this`upSampleID
      ensures cmd.commands == old(cmd.commands) + RecordedCommands(
                postProcessEnabled, materialCreated, src, ssrHandle, dst,
                if settings == null then 1 else settings.downSampling,
                if settings == null then 0 else settings.blurTimes)
      ensures !(postProcessEnabled && materialCreated) ==>
                downSampleID == old(downSampleID) && upSampleID == old(upSampleID)
      ensures postProcessEnabled && materialCreated ==>
                downSampleID != null && upSampleID != null && fresh(downSampleID) && fresh(upSampleID) &&
                downSampleID.Length == settings.blurTimes && LevelIds(downSampleID, upSampleID)
    {
      if !postProcessEnabled {
        return;
      }
      if !materialCreated {
        return;
      }
      RecordPass(cmd);
    }

    /** The body of an enabled execution, recorded inside its profiling scope. */
    method RecordPass(cmd: CommandBuffer)
      requires settings != null && settings.downSampling != 0 && settings.blurTimes >= 0
      modifies cmd, this`downSampleID, this`upSampleID
      ensures cmd.commands == old(cmd.commands) +
                PassCommands(src, ssrHandle, dst, settings.downSampling, settings.blurTimes)
      ensures downSampleID != null && upSampleID != null && fresh(downSampleID) && fresh(upSampleID)
      ensures downSampleID.Length == settings.blurTimes && LevelIds(downSampleID, upSampleID)
    {
      var src, ssr := this.src, ssrHandle;
      cmd.Blit(src, ssr, Material(0));
      cmd.SetGlobalTexture(SsrTextureName, ssr);
      var base := Div(dst.width, settings.downSampling);
      var down, up := NewLevelIds(settings.blurTimes);
      downSampleID, upSampleID := down, up;
      RecordBlur(cmd, down, up, src, ssr, base, dst.depthBufferBits);
    }
  }
}
