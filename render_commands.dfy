/** The vocabulary of the per-frame command buffer the reflection pass records
    into: full-screen blits, temporary render-target allocation and release, and
    publication of a global texture. The host's command buffer is modelled by
    the sequence of commands recorded so far. */
module RenderCommands {

  /** The shader property ids of the blur pyramid's temporary targets
      (`_DownSample<i>` and `_UpSample<i>`), as abstract tokens indexed by level. */
  datatype TempId = DownSampleId(level: nat) | UpSampleId(level: nat)

  /** A render target identifier: one supplied by the host (the camera colour
      target, the reflection target), or one of the pass's own temporaries. */
  datatype Target = Host(id: int) | Temp(temp: TempId)

  /** A host-supplied target; it never names a pyramid temporary. */
  type HostTarget = t: Target | t.Host? witness Host(0)

  /** How a blit draws: a plain copy, or the reflection material's sub-program
      `index` (0 trace, 1 downsample blur, 2 upsample composite). */
  datatype Pass = Copy | Material(index: nat)

  datatype Command =
    | Blit(source: Target, dest: Target, pass: Pass)
    | GetTemp(id: TempId, width: int, height: int, depthBits: int)
    | Release(id: TempId)
    | SetGlobal(name: string, texture: Target)

  /** The id `c` allocates, if any. */
  function AllocatedBy(c: Command): seq<TempId>
  {
    if c.GetTemp? then [c.id] else []
  }

  /** The id `c` releases, if any. */
  function ReleasedBy(c: Command): seq<TempId>
  {
    if c.Release? then [c.id] else []
  }

  /** The ids allocated by `cmds`, in recording order. */
  function Allocations(cmds: seq<Command>): (ids: seq<TempId>)

  {
    if cmds == [] then [] else Allocations(cmds[..|cmds| - 1]) + AllocatedBy(cmds[|cmds| - 1])
  }

  /** The ids released by `cmds`, in recording order. */
  function Releases(cmds: seq<Command>): (ids: seq<TempId>)

  {
    if cmds == [] then [] else Releases(cmds[..|cmds| - 1]) + ReleasedBy(cmds[|cmds| - 1])
  }

  /** Allocations and releases distribute over concatenation. */
  lemma {:induction false} AppendCounts(a: seq<Command>, b: seq<Command>)
    ensures Allocations(a + b) == Allocations(a) + Allocations(b)
    ensures Releases(a + b) == Releases(a) + Releases(b)
  {
    if b != [] {
      var last := b[|b| - 1];
      assert (a + b)[..|a + b| - 1] == a + b[..|b| - 1];
      assert (a + b)[|a + b| - 1] == last;
      AppendCounts(a, b[..|b| - 1]);
    } else {
      assert a + b == a;
    }
  }

  /** The same, for a sequence recorded in five parts. */
  lemma AppendCounts5(a: seq<Command>, b: seq<Command>, c: seq<Command>, d: seq<Command>, e: seq<Command>)
    ensures Allocations(a + b + c + d + e) ==
            Allocations(a) + Allocations(b) + Allocations(c) + Allocations(d) + Allocations(e)
    ensures Releases(a + b + c + d + e) == Releases(a) + Releases(b) + Releases(c) + Releases(d) + Releases(e)
  {
    AppendCounts(a, b);
    AppendCounts(a + b, c);
    AppendCounts(a + b + c, d);
    AppendCounts(a + b + c + d, e);
  }

  /** The host's command buffer: each call appends one command. */
  class CommandBuffer {
    var commands: seq<Command>

    constructor ()
      ensures commands == []
    {
      commands := [];
    }

    method Blit(source: Target, dest: Target, pass: Pass)
      modifies this
      ensures commands == old(commands) + [Command.Blit(source, dest, pass)]
    {
      commands := commands + [Command.Blit(source, dest, pass)];
    }

    method GetTemporaryRT(id: TempId, width: int, height: int, depthBits: int)
      modifies this
      ensures commands == old(commands) + [GetTemp(id, width, height, depthBits)]
    {
      commands := commands + [GetTemp(id, width, height, depthBits)];
    }

    method ReleaseTemporaryRT(id: TempId)
      modifies this
      ensures commands == old(commands) + [Release(id)]
    {
      commands := commands + [Release(id)];
    }

    method SetGlobalTexture(name: string, texture: Target)
      modifies this
      ensures commands == old(commands) + [SetGlobal(name, texture)]
    {
      commands := commands + [SetGlobal(name, texture)];
    }
  }
}
