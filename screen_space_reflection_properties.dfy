/** What one execution of the reflection pass records, stated over the whole
    command sequence: the early return, the order of the trace, pyramid,
    resolve and copy-back, the pyramid's sizes, and the pairing of every
    temporary allocation with one release. */
module ScreenSpaceReflectionProperties {
  import opened RenderCommands
  import opened ScreenSpaceReflection

  // ---------------------------------------------------------------------
  // Early return

  /** Nothing is recorded exactly when post-processing is off or the
      material does not exist. */
  lemma NothingRecordedIffSkipped(enabled: bool, materialCreated: bool, src: HostTarget, ssr: HostTarget,
                                  dst: Descriptor, downSampling: int, blurTimes: int)
    requires enabled && materialCreated ==> downSampling != 0 && blurTimes >= 0
    ensures RecordedCommands(enabled, materialCreated, src, ssr, dst, downSampling, blurTimes) == []
            <==> !(enabled && materialCreated)
  {
    if enabled && materialCreated {
      assert PassCommands(src, ssr, dst, downSampling, blurTimes)[0] == Blit(src, ssr, Material(0));
    }
  }

  // ---------------------------------------------------------------------
  // Integer division

  /** The magnitude of an `int`. */
  function Abs(x: int): nat
  {
    if x < 0 then -x else x
  }

  /** `Div` truncates toward zero, as C#'s `/` on `int` does: the quotient's
      magnitude is the floor of the magnitudes' quotient, and negating
      either operand negates the quotient (Euclidean and floored division
      differ from it on negative operands). */
  lemma DivTruncatesTowardZero(a: int, b: int)
    requires b != 0
    ensures Abs(Div(a, b)) * Abs(b) <= Abs(a) < Abs(Div(a, b)) * Abs(b) + Abs(b)
    ensures Div(-a, b) == -Div(a, b) && Div(a, -b) == -Div(a, b)
  {
    var x, y := Abs(a), Abs(b);
    DivMagnitude(a, b);
    DivMagnitude(-a, b);
    DivMagnitude(a, -b);
    FloorBounds(x, y);
    assert Abs(Div(a, b)) == x / y;
  }

  /** `Div(a, b)` is the floor of the magnitudes' quotient, negated when
      the operands' signs differ. */
  lemma DivMagnitude(a: int, b: int)
    requires b != 0
    ensures Div(a, b) == if (a < 0) == (b < 0) then Abs(a) / Abs(b) else -(Abs(a) / Abs(b))
  {
    var x, y := Abs(a), Abs(b);
    if a >= 0 && b > 0 {
      assert x == a && y == b;
    } else if a < 0 && b < 0 {
      assert x == -a && y == -b;
    } else if a >= 0 {
      assert x == a && y == -b;
    } else {
      assert x == -a && y == b;
    }
  }

  /** `x / y` is the largest `q` with `q * y <= x`. */
  lemma FloorBounds(x: nat, y: nat)
    requires y > 0
    ensures 0 <= x / y
    ensures (x / y) * y <= x < (x / y) * y + y
  {
    var q := x / y;
    assert x == y * q + x % y;
    assert q < 0 ==> y * q + y <= 0;
  }

  // ---------------------------------------------------------------------
  // Pyramid sizes

  function Pow2(i: nat): (p: nat)
    ensures p >= 1
  {
    if i == 0 then 1 else 2 * Pow2(i - 1)
  }

  /** Every level after the base is at least 1, and from level 1 on (or from
      the base, when the base is at least 1) no level is larger than an
      earlier one. */
  lemma {:induction false} LevelSizesNonIncreasing(base: int, i: nat, j: nat)
    requires i <= j
    requires i >= 1 || base >= 1
    ensures 1 <= LevelSize(base, j) <= LevelSize(base, i)
  {
    if j > i {
      LevelSizesNonIncreasing(base, i, j - 1);
    }
  }

  /** Level `i` is `max(base / 2^i, 1)` for a positive base, and for every
      level after the first whatever the base. */
  lemma {:induction false} LevelSizeClosedForm(base: int, i: nat)
    requires base >= 1 || i >= 1
    ensures LevelSize(base, i) == Max(base / Pow2(i), 1)
  {
    if base < 1 {
      NonPositiveBaseLevels(base, i);
      assert base / Pow2(i) <= 0;
    } else if i > 0 {
      LevelSizeClosedForm(base, i - 1);
      var p := Pow2(i - 1);
      HalfOfQuotient(base, p);
      assert Pow2(i) == p * 2;
    }
  }

  /** Below a base of 1, every level after the first has side 1. */
  lemma {:induction false} NonPositiveBaseLevels(base: int, i: nat)
    requires base < 1 && i >= 1
    ensures LevelSize(base, i) == 1
  {
    if i > 1 {
      NonPositiveBaseLevels(base, i - 1);
    }
  }

  /** `(x / p) / 2 == x / (2 * p)` on naturals. */
  lemma HalfOfQuotient(x: nat, p: nat)
    requires p >= 1
    ensures (x / p) / 2 == x / (p * 2)
  {
    var q, r := x / p, x % p;
    var a, b := q / 2, q % 2;
    assert x == q * p + r;
    assert q == 2 * a + b;
    assert x == a * (p * 2) + (b * p + r) by {
      assert q * p == (2 * a + b) * p == a * (p * 2) + b * p;
    }
    assert 0 <= b * p + r < p * 2 by {
      assert b * p <= p;
    }
    QuotientUnique(x, p * 2, a, b * p + r);
  }

  /** The quotient is the only `a` with `x == a * d + s` and `0 <= s < d`. */
  lemma QuotientUnique(x: int, d: int, a: int, s: int)
    requires d > 0 && x == a * d + s && 0 <= s < d
    ensures x / d == a
  {
    var q, r := x / d, x % d;
    assert q * d + r == a * d + s;
    assert (q - a) * d == s - r by {
      assert (q - a) * d == q * d - a * d;
    }
    assert -d < s - r < d;
    assert q - a >= 1 ==> (q - a) * d >= d;
    assert q - a <= -1 ==> (q - a) * d <= -d;
  }

  /** The base side comes from the camera's width alone: two descriptors
      that differ only in height record the same commands. */
  lemma HeightIsIgnored(src: HostTarget, ssr: HostTarget, d1: Descriptor, d2: Descriptor,
                        downSampling: int, n: nat)
    requires downSampling != 0
    requires d1.width == d2.width && d1.depthBufferBits == d2.depthBufferBits
    ensures PassCommands(src, ssr, d1, downSampling, n) == PassCommands(src, ssr, d2, downSampling, n)
  {
  }

  /** The base level is not clamped: a camera narrower than the downsampling
      factor gets a base level of side 0. */
  lemma NarrowCameraBaseIsEmpty()
    ensures LevelSize(BaseSize(Descriptor(3, 1080, 24), 4), 0) == 0
  {
  }

  // ---------------------------------------------------------------------
  // The ids of the pyramid's temporaries

  /** `_DownSample0, _UpSample0, _DownSample1, _UpSample1, ...` for `n` levels. */
  function LevelPairs(n: nat): (ids: seq<TempId>)
    ensures |ids| == 2 * n
  {
    if n == 0 then [] else LevelPairs(n - 1) + [DownSampleId(n - 1), UpSampleId(n - 1)]
  }

  lemma {:induction false} LevelPairsAt(n: nat, t: nat)
    requires t < 2 * n
    ensures LevelPairs(n)[t] == if t % 2 == 0 then DownSampleId(t / 2) else UpSampleId(t / 2)
  {
    if t < 2 * (n - 1) {
      LevelPairsAt(n - 1, t);
    }
  }

  /** No id occurs twice among the `2n` ids, and they are exactly the ids of
      the levels below `n`. */
  lemma LevelPairsDistinct(n: nat)
    ensures forall a, b :: 0 <= a < b < 2 * n ==> LevelPairs(n)[a] != LevelPairs(n)[b]
    ensures forall id :: id in LevelPairs(n) <==> id.level < n
  {
    forall a, b | 0 <= a < b < 2 * n ensures LevelPairs(n)[a] != LevelPairs(n)[b] {
      LevelPairsAt(n, a);
      LevelPairsAt(n, b);
    }
    forall id ensures id in LevelPairs(n) <==> id.level < n {
      if id.level < n {
        var t := if id.DownSampleId? then 2 * id.level else 2 * id.level + 1;
        LevelPairsAt(n, t);
      }
      if id in LevelPairs(n) {
        var t :| 0 <= t < 2 * n && LevelPairs(n)[t] == id;
        LevelPairsAt(n, t);
      }
    }
  }

  lemma {:induction false} DownsampleAllocations(ssr: HostTarget, base: int, depth: int, k: nat)
    ensures Allocations(Downsample(ssr, base, depth, k)) == LevelPairs(k)
    ensures Releases(Downsample(ssr, base, depth, k)) == []
  {
    if k > 0 {
      var prev, level := Downsample(ssr, base, depth, k - 1), DownsampleLevel(ssr, base, depth, k - 1);
      DownsampleAllocations(ssr, base, depth, k - 1);
      LevelCounts(ssr, base, depth, k - 1);
      CountsStep(prev, level, LevelPairs(k - 1), [DownSampleId(k - 1), UpSampleId(k - 1)]);
      assert Downsample(ssr, base, depth, k) == prev + level;
    }
  }

  /** Appending a part that releases nothing to a prefix that releases nothing. */
  lemma CountsStep(prev: seq<Command>, part: seq<Command>, ids: seq<TempId>, more: seq<TempId>)
    requires Allocations(prev) == ids && Allocations(part) == more
    requires Releases(prev) == [] && Releases(part) == []
    ensures Allocations(prev + part) == ids + more && Releases(prev + part) == []
  {
    AppendCounts(prev, part);
  }

  /** One downsample level allocates its two ids and releases nothing. */
  lemma LevelCounts(ssr: HostTarget, base: int, depth: int, i: nat)
    ensures Allocations(DownsampleLevel(ssr, base, depth, i)) == [DownSampleId(i), UpSampleId(i)]
    ensures Releases(DownsampleLevel(ssr, base, depth, i)) == []
  {
    var level := DownsampleLevel(ssr, base, depth, i);
    assert level == [level[0]] + [level[1]] + [level[2]];
    AppendCounts([level[0]], [level[1]]);
    AppendCounts([level[0]] + [level[1]], [level[2]]);
    SingleCounts(level[0]);
    SingleCounts(level[1]);
    SingleCounts(level[2]);
  }

  lemma SingleCounts(c: Command)
    ensures Allocations([c]) == AllocatedBy(c) && Releases([c]) == ReleasedBy(c)
  {
    assert [c][..0] == [];
  }

  lemma {:induction false} UpsampleAllocations(ssr: HostTarget, n: nat, t: nat)
    requires t <= UpCount(n)
    ensures Allocations(Upsample(ssr, n, t)) == [] && Releases(Upsample(ssr, n, t)) == []
  {
    if t > 0 {
      UpsampleAllocations(ssr, n, t - 1);
      var blit := Blit(UpSource(ssr, n, t - 1), Temp(UpSampleId(n - 1 - t)), Material(2));
      BlitStep(Upsample(ssr, n, t - 1), blit);
      assert Upsample(ssr, n, t) == Upsample(ssr, n, t - 1) + [blit];
    }
  }

  /** A blit appended to commands that allocate and release nothing. */
  lemma BlitStep(prev: seq<Command>, c: Command)
    requires c.Blit? && Allocations(prev) == [] && Releases(prev) == []
    ensures Allocations(prev + [c]) == [] && Releases(prev + [c]) == []
  {
    SingleCounts(c);
    AppendCounts(prev, [c]);
  }

  lemma {:induction false} ReleaseAllReleases(k: nat)
    ensures Releases(ReleaseAll(k)) == LevelPairs(k) && Allocations(ReleaseAll(k)) == []
  {
    if k > 0 {
      ReleaseAllReleases(k - 1);
      ReleaseStep(ReleaseAll(k - 1), LevelPairs(k - 1), DownSampleId(k - 1), UpSampleId(k - 1));
      assert ReleaseAll(k) == ReleaseAll(k - 1) + [Release(DownSampleId(k - 1)), Release(UpSampleId(k - 1))];
      assert LevelPairs(k) == LevelPairs(k - 1) + [DownSampleId(k - 1), UpSampleId(k - 1)];
    }
  }

  /** Two releases appended to commands that allocate nothing. */
  lemma ReleaseStep(prev: seq<Command>, ids: seq<TempId>, a: TempId, b: TempId)
    requires Releases(prev) == ids && Allocations(prev) == []
    ensures Releases(prev + [Release(a), Release(b)]) == ids + [a, b]
    ensures Allocations(prev + [Release(a), Release(b)]) == []
  {
    var pair := [Release(a), Release(b)];
    assert pair == [pair[0]] + [pair[1]];
    SingleCounts(pair[0]);
    SingleCounts(pair[1]);
    AppendCounts([pair[0]], [pair[1]]);
    AppendCounts(prev, pair);
  }

  /** Every command of the release loop is a release. */
  lemma {:induction false} ReleaseAllOnlyReleases(k: nat, t: nat)
    requires t < 2 * k
    ensures ReleaseAll(k)[t].Release?
  {
    if t < 2 * (k - 1) {
      ReleaseAllOnlyReleases(k - 1, t);
    }
  }

  // ---------------------------------------------------------------------
  // Layout of one enabled execution

  /** One execution records, in order: the trace blit and the publication of
      the raw reflection as `_SSRTexture` (2 commands), three commands per
      downsample level, `max(n - 1, 0)` upsample blits, the resolve, two
      releases per level, and the copy back. */
  lemma FrameLayout(src: HostTarget, ssr: HostTarget, dst: Descriptor, downSampling: int, n: nat)
    requires downSampling != 0
    ensures var cmds := PassCommands(src, ssr, dst, downSampling, n);
      var base, depth := BaseSize(dst, downSampling), dst.depthBufferBits;
      |cmds| == 4 + 5 * n + Max(n - 1, 0) &&
      cmds[0] == Blit(src, ssr, Material(0)) &&
      cmds[1] == SetGlobal(SsrTextureName, ssr) &&
      cmds[2..2 + 3 * n] == Downsample(ssr, base, depth, n) &&
      cmds[2 + 3 * n..2 + 3 * n + Max(n - 1, 0)] == Upsample(ssr, n, UpCount(n)) &&
      cmds[|cmds| - 1 - 2 * n..|cmds| - 1] == ReleaseAll(n) &&
      cmds[|cmds| - 2 - 2 * n] == Blit(UpSource(ssr, n, UpCount(n)), ssr, Copy) &&
      cmds[|cmds| - 1] == Blit(ssr, src, Copy)
  {
    FrameSlices(src, ssr, dst, downSampling, n);
    FrameEnds(src, ssr, dst, downSampling, n);
  }

  /** The three loops' commands sit at fixed slices of one execution. */
  lemma FrameSlices(src: HostTarget, ssr: HostTarget, dst: Descriptor, downSampling: int, n: nat)
    requires downSampling != 0
    ensures var cmds := PassCommands(src, ssr, dst, downSampling, n);
      var base, depth := BaseSize(dst, downSampling), dst.depthBufferBits;
      |cmds| == 4 + 5 * n + Max(n - 1, 0) &&
      cmds[2..2 + 3 * n] == Downsample(ssr, base, depth, n) &&
      cmds[2 + 3 * n..2 + 3 * n + Max(n - 1, 0)] == Upsample(ssr, n, UpCount(n)) &&
      cmds[|cmds| - 1 - 2 * n..|cmds| - 1] == ReleaseAll(n)
  {
    var cmds := PassCommands(src, ssr, dst, downSampling, n);
    var base, depth := BaseSize(dst, downSampling), dst.depthBufferBits;
    var head := [Blit(src, ssr, Material(0)), SetGlobal(SsrTextureName, ssr)];
    var d, u := Downsample(ssr, base, depth, n), Upsample(ssr, n, UpCount(n));
    var r := [Blit(UpSource(ssr, n, UpCount(n)), ssr, Copy)];
    var rel, c := ReleaseAll(n), [Blit(ssr, src, Copy)];
    assert cmds == head + ((((d + u) + r) + rel) + c);
    assert |u| == Max(n - 1, 0);
    SixParts(cmds, head, d, u, r, rel, c, n, Max(n - 1, 0));
  }

  /** The single commands around the loops: the trace, the publication, the
      resolve and the copy back. */
  lemma FrameEnds(src: HostTarget, ssr: HostTarget, dst: Descriptor, downSampling: int, n: nat)
    requires downSampling != 0
    ensures var cmds := PassCommands(src, ssr, dst, downSampling, n);
      |cmds| >= 4 + 2 * n &&
      cmds[0] == Blit(src, ssr, Material(0)) &&
      cmds[1] == SetGlobal(SsrTextureName, ssr) &&
      cmds[|cmds| - 2 - 2 * n] == Blit(UpSource(ssr, n, UpCount(n)), ssr, Copy) &&
      cmds[|cmds| - 1] == Blit(ssr, src, Copy)
  {
    var cmds := PassCommands(src, ssr, dst, downSampling, n);
    var base, depth := BaseSize(dst, downSampling), dst.depthBufferBits;
    var head := [Blit(src, ssr, Material(0)), SetGlobal(SsrTextureName, ssr)];
    var d, u := Downsample(ssr, base, depth, n), Upsample(ssr, n, UpCount(n));
    var r := [Blit(UpSource(ssr, n, UpCount(n)), ssr, Copy)];
    var rel, c := ReleaseAll(n), [Blit(ssr, src, Copy)];
    assert cmds == head + ((((d + u) + r) + rel) + c);
    SixParts(cmds, head, d, u, r, rel, c, n, |u|);
  }

  /** Where each of six consecutive parts, of the lengths one execution
      records, sits in their concatenation. */
  lemma SixParts(cmds: seq<Command>, head: seq<Command>, d: seq<Command>, u: seq<Command>,
                 r: seq<Command>, rel: seq<Command>, c: seq<Command>, n: nat, up: nat)
    requires cmds == head + ((((d + u) + r) + rel) + c)
    requires |head| == 2 && |d| == 3 * n && |u| == up && |r| == 1 && |rel| == 2 * n && |c| == 1
    ensures |cmds| == 4 + 5 * n + up
    ensures cmds[0] == head[0] && cmds[1] == head[1]
    ensures cmds[2..2 + 3 * n] == d && cmds[2 + 3 * n..2 + 3 * n + up] == u
    ensures cmds[|cmds| - 1 - 2 * n..|cmds| - 1] == rel
    ensures cmds[|cmds| - 2 - 2 * n] == r[0] && cmds[|cmds| - 1] == c[0]
  {
    assert cmds[2..2 + 3 * n] == d;
    assert cmds[2 + 3 * n..2 + 3 * n + up] == u;
    assert cmds[|cmds| - 1 - 2 * n..|cmds| - 1] == rel;
  }

  /** Downsample level `i` allocates both targets of level `i` at the level's
      side, in both axes, then blurs the running source into `_DownSample<i>`:
      the raw reflection for level 0, the previous level otherwise. */
  lemma {:induction false} DownsampleAt(ssr: HostTarget, base: int, depth: int, k: nat, i: nat)
    requires i < k
    ensures var cmds := Downsample(ssr, base, depth, k);
      cmds[3 * i] == GetTemp(DownSampleId(i), LevelSize(base, i), LevelSize(base, i), depth) &&
      cmds[3 * i + 1] == GetTemp(UpSampleId(i), LevelSize(base, i), LevelSize(base, i), depth) &&
      cmds[3 * i + 2] == Blit(if i == 0 then ssr else Temp(DownSampleId(i - 1)), Temp(DownSampleId(i)), Material(1))
  {
    if i < k - 1 {
      DownsampleAt(ssr, base, depth, k - 1, i);
    }
  }

  /** The `s`-th upsample blit draws with pass 2 into `_UpSample<n-2-s>`; its
      source is the last downsample level for `s == 0` and the previous
      upsample target otherwise. */
  lemma {:induction false} UpsampleAt(ssr: HostTarget, n: nat, t: nat, s: nat)
    requires s < t <= UpCount(n)
    ensures Upsample(ssr, n, t)[s] ==
      Blit(if s == 0 then Temp(DownSampleId(n - 1)) else Temp(UpSampleId(n - 1 - s)),
           Temp(UpSampleId(n - 2 - s)), Material(2))
  {
    if s < t - 1 {
      UpsampleAt(ssr, n, t - 1, s);
    }
  }

  /** The pyramid's chain within the whole execution: the downsample blit of
      level `i` and, for `s < n - 1`, the `s`-th upsample blit. */
  lemma PyramidChain(src: HostTarget, ssr: HostTarget, dst: Descriptor, downSampling: int, n: nat, i: nat)
    requires downSampling != 0 && i < n
    ensures var cmds := PassCommands(src, ssr, dst, downSampling, n);
      cmds[2 + 3 * i + 2] == Blit(if i == 0 then ssr else Temp(DownSampleId(i - 1)), Temp(DownSampleId(i)), Material(1)) &&
      (i < n - 1 ==>
         cmds[2 + 3 * n + i] ==
           Blit(if i == 0 then Temp(DownSampleId(n - 1)) else Temp(UpSampleId(n - 1 - i)),
                Temp(UpSampleId(n - 2 - i)), Material(2)))
  {
    var cmds := PassCommands(src, ssr, dst, downSampling, n);
    var base, depth := BaseSize(dst, downSampling), dst.depthBufferBits;
    FrameLayout(src, ssr, dst, downSampling, n);
    DownsampleAt(ssr, base, depth, n, i);
    assert cmds[2 + 3 * i + 2] == cmds[2..2 + 3 * n][3 * i + 2];
    if i < n - 1 {
      UpsampleAt(ssr, n, UpCount(n), i);
      assert cmds[2 + 3 * n + i] == cmds[2 + 3 * n..2 + 3 * n + Max(n - 1, 0)][i];
    }
  }

  /** Every temporary is allocated at its level's side in both axes, with the
      camera's depth bits, and only levels below `n` are allocated. */
  lemma TemporarySizes(src: HostTarget, ssr: HostTarget, dst: Descriptor, downSampling: int, n: nat, k: nat)
    requires downSampling != 0
    requires k < |PassCommands(src, ssr, dst, downSampling, n)|
    requires PassCommands(src, ssr, dst, downSampling, n)[k].GetTemp?
    ensures var c := PassCommands(src, ssr, dst, downSampling, n)[k];
      c.width == c.height == LevelSize(BaseSize(dst, downSampling), c.id.level) &&
      c.depthBits == dst.depthBufferBits && c.id.level < n
  {
    var base, depth := BaseSize(dst, downSampling), dst.depthBufferBits;
    if k <= |PassCommands(src, ssr, dst, downSampling, n)| - 2 - 2 * n {
      FrameHead(src, ssr, dst, downSampling, n, k);
      if 2 <= k < 2 + 3 * n {
        DownsampleAt(ssr, base, depth, n, (k - 2) / 3);
      }
    } else {
      FrameTail(src, ssr, dst, downSampling, n, k);
    }
  }

  /** What sits at position `k` of one execution, up to and including the
      resolve: the trace and the publication, the downsample loop, the
      upsample blits and the resolve blit. */
  lemma FrameHead(src: HostTarget, ssr: HostTarget, dst: Descriptor, downSampling: int, n: nat, k: nat)
    requires downSampling != 0
    requires k <= |PassCommands(src, ssr, dst, downSampling, n)| - 2 - 2 * n
    ensures var cmds := PassCommands(src, ssr, dst, downSampling, n);
      var base, depth := BaseSize(dst, downSampling), dst.depthBufferBits;
      (2 <= k < 2 + 3 * n ==> cmds[k] == Downsample(ssr, base, depth, n)[k - 2]) &&
      (2 + 3 * n <= k < |cmds| - 2 - 2 * n ==> cmds[k] == Upsample(ssr, n, UpCount(n))[k - 2 - 3 * n]) &&
      (k < 2 || 2 + 3 * n <= k ==> cmds[k].Blit? || cmds[k].SetGlobal?)
  {
    FrameLayout(src, ssr, dst, downSampling, n);
    var cmds := PassCommands(src, ssr, dst, downSampling, n);
    var base, depth := BaseSize(dst, downSampling), dst.depthBufferBits;
    var u := Upsample(ssr, n, UpCount(n));
    if 2 + 3 * n <= k < |cmds| - 2 - 2 * n {
      UpsampleAt(ssr, n, UpCount(n), k - 2 - 3 * n);
    }
    HeadRegionsAt(cmds, Downsample(ssr, base, depth, n), u, n, Max(n - 1, 0), k);
  }

  /** What sits at position `k` of one execution after the resolve: the
      releases, then the copy back. */
  lemma FrameTail(src: HostTarget, ssr: HostTarget, dst: Descriptor, downSampling: int, n: nat, k: nat)
    requires downSampling != 0
    requires |PassCommands(src, ssr, dst, downSampling, n)| - 2 - 2 * n < k < |PassCommands(src, ssr, dst, downSampling, n)|
    ensures var cmds := PassCommands(src, ssr, dst, downSampling, n);
      var m := |cmds|;
      (k < m - 1 ==> cmds[k] == ReleaseAll(n)[k - (m - 1 - 2 * n)] && cmds[k].Release?) &&
      (k == m - 1 ==> cmds[k] == Blit(ssr, src, Copy))
  {
    FrameLayout(src, ssr, dst, downSampling, n);
    var cmds := PassCommands(src, ssr, dst, downSampling, n);
    var m := |cmds|;
    if k < m - 1 {
      ReleaseAllOnlyReleases(n, k - (m - 1 - 2 * n));
    }
    TailAt(cmds, ReleaseAll(n), Blit(ssr, src, Copy), n, k);
  }

  /** The tail regions, for any commands laid out as one execution. */
  lemma TailAt(cmds: seq<Command>, rel: seq<Command>, c: Command, n: nat, k: nat)
    requires |cmds| >= 2 + 2 * n && |cmds| - 2 - 2 * n < k < |cmds|
    requires cmds[|cmds| - 1 - 2 * n..|cmds| - 1] == rel && cmds[|cmds| - 1] == c
    requires k < |cmds| - 1 ==> rel[k - (|cmds| - 1 - 2 * n)].Release?
    ensures (k < |cmds| - 1 ==> cmds[k] == rel[k - (|cmds| - 1 - 2 * n)] && cmds[k].Release?) &&
      (k == |cmds| - 1 ==> cmds[k] == c)
  {
    if k < |cmds| - 1 {
      TailRegionAt(cmds, rel, n, k);
    }
  }

  /** The head regions, for any commands laid out as one execution. */
  lemma HeadRegionsAt(cmds: seq<Command>, d: seq<Command>, u: seq<Command>, n: nat, up: nat, k: nat)
    requires |cmds| == 4 + 5 * n + up && k <= |cmds| - 2 - 2 * n
    requires cmds[0].Blit? && cmds[1].SetGlobal? && cmds[|cmds| - 2 - 2 * n].Blit?
    requires cmds[2..2 + 3 * n] == d && cmds[2 + 3 * n..2 + 3 * n + up] == u
    requires 2 + 3 * n <= k < |cmds| - 2 - 2 * n ==> u[k - 2 - 3 * n].Blit?
    ensures (2 <= k < 2 + 3 * n ==> cmds[k] == d[k - 2]) &&
      (2 + 3 * n <= k < |cmds| - 2 - 2 * n ==> cmds[k] == u[k - 2 - 3 * n]) &&
      (k < 2 || 2 + 3 * n <= k ==> cmds[k].Blit? || cmds[k].SetGlobal?)
  {
    if 2 <= k < 2 + 3 * n {
      assert cmds[k] == cmds[2..2 + 3 * n][k - 2];
    } else if 2 + 3 * n <= k < |cmds| - 2 - 2 * n {
      assert cmds[k] == cmds[2 + 3 * n..2 + 3 * n + up][k - 2 - 3 * n];
    }
  }

  /** The release region, for any commands laid out as one execution. */
  lemma TailRegionAt(cmds: seq<Command>, rel: seq<Command>, n: nat, k: nat)
    requires |cmds| >= 2 + 2 * n && |cmds| - 2 - 2 * n < k < |cmds| - 1
    requires cmds[|cmds| - 1 - 2 * n..|cmds| - 1] == rel
    ensures cmds[k] == rel[k - (|cmds| - 1 - 2 * n)]
  {
    assert cmds[k] == cmds[|cmds| - 1 - 2 * n..|cmds| - 1][k - (|cmds| - 1 - 2 * n)];
  }

  // ---------------------------------------------------------------------
  // Allocation and release

  /** The execution allocates exactly the `2n` ids of its `n` levels, each
      once, and releases exactly those ids, each once: the net change in
      allocated temporaries is zero. */
  lemma AllocationsBalanced(src: HostTarget, ssr: HostTarget, dst: Descriptor, downSampling: int, n: nat)
    requires downSampling != 0
    ensures var cmds := PassCommands(src, ssr, dst, downSampling, n);
      Allocations(cmds) == LevelPairs(n) && Releases(cmds) == LevelPairs(n) &&
      |Allocations(cmds)| == 2 * n &&
      multiset(Allocations(cmds)) == multiset(Releases(cmds))
  {
    var base, depth := BaseSize(dst, downSampling), dst.depthBufferBits;
    var head := [Blit(src, ssr, Material(0)), SetGlobal(SsrTextureName, ssr)];
    var blur := BlurCommands(src, ssr, base, depth, n);
    HeadCounts(src, ssr);
    BlurCounts(src, ssr, base, depth, n);
    AppendCounts(head, blur);
    assert PassCommands(src, ssr, dst, downSampling, n) == head + blur;
  }

  /** The trace blit and the publication allocate and release nothing. */
  lemma HeadCounts(src: HostTarget, ssr: HostTarget)
    ensures var head := [Blit(src, ssr, Material(0)), SetGlobal(SsrTextureName, ssr)];
      Allocations(head) == [] && Releases(head) == []
  {
    var head := [Blit(src, ssr, Material(0)), SetGlobal(SsrTextureName, ssr)];
    assert head == [head[0]] + [head[1]];
    SingleCounts(head[0]);
    SingleCounts(head[1]);
    AppendCounts([head[0]], [head[1]]);
  }

  /** The blur allocates the `2n` pyramid ids and releases the same ids, in
      the same order. */
  lemma BlurCounts(src: HostTarget, ssr: HostTarget, base: int, depth: int, n: nat)
    ensures Allocations(BlurCommands(src, ssr, base, depth, n)) == LevelPairs(n)
    ensures Releases(BlurCommands(src, ssr, base, depth, n)) == LevelPairs(n)
  {
    var d, u := Downsample(ssr, base, depth, n), Upsample(ssr, n, UpCount(n));
    var r := [Blit(UpSource(ssr, n, UpCount(n)), ssr, Copy)];
    var rel, c := ReleaseAll(n), [Blit(ssr, src, Copy)];
    DownsampleAllocations(ssr, base, depth, n);
    UpsampleAllocations(ssr, n, UpCount(n));
    ReleaseAllReleases(n);
    BlurParts(d, u, r[0], rel, c[0], LevelPairs(n));
    assert BlurCommands(src, ssr, base, depth, n) == d + u + r + rel + c;
  }

  /** Counts of the blur's five parts: the downsample loop allocates `ids`,
      the release loop releases them, the rest only draws. */
  lemma BlurParts(d: seq<Command>, u: seq<Command>, r: Command, rel: seq<Command>, c: Command, ids: seq<TempId>)
    requires Allocations(d) == ids && Releases(d) == []
    requires Allocations(u) == [] && Releases(u) == []
    requires r.Blit? && c.Blit?
    requires Allocations(rel) == [] && Releases(rel) == ids
    ensures Allocations(d + u + [r] + rel + [c]) == ids && Releases(d + u + [r] + rel + [c]) == ids
  {
    SingleCounts(r);
    SingleCounts(c);
    AppendCounts5(d, u, [r], rel, [c]);
  }

  /** Every release comes after the resolve, every allocation before it, and
      each released id was allocated earlier in the same execution. */
  lemma ReleasesFollowAllocations(src: HostTarget, ssr: HostTarget, dst: Descriptor, downSampling: int, n: nat, k: nat)
    requires downSampling != 0
    requires k < |PassCommands(src, ssr, dst, downSampling, n)|
    ensures var cmds := PassCommands(src, ssr, dst, downSampling, n);
      var resolve := |cmds| - 2 - 2 * n;
      (cmds[k].Release? ==> resolve < k && cmds[k].id in Allocations(cmds[..k])) &&
      (cmds[k].GetTemp? ==> k < resolve)
  {
    var cmds := PassCommands(src, ssr, dst, downSampling, n);
    var resolve := |cmds| - 2 - 2 * n;
    if k <= resolve {
      NoReleaseBeforeResolve(src, ssr, dst, downSampling, n, k);
    } else if k < |cmds| - 1 {
      ReleaseOfAllocated(src, ssr, dst, downSampling, n, k);
    } else {
      FrameTail(src, ssr, dst, downSampling, n, k);
    }
  }

  /** A command of the release loop frees an id allocated before it. */
  lemma ReleaseOfAllocated(src: HostTarget, ssr: HostTarget, dst: Descriptor, downSampling: int, n: nat, k: nat)
    requires downSampling != 0
    requires |PassCommands(src, ssr, dst, downSampling, n)| - 2 - 2 * n < k < |PassCommands(src, ssr, dst, downSampling, n)| - 1
    ensures var cmds := PassCommands(src, ssr, dst, downSampling, n);
      cmds[k].Release? && cmds[k].id in Allocations(cmds[..k])
  {
    var cmds := PassCommands(src, ssr, dst, downSampling, n);
    var resolve := |cmds| - 2 - 2 * n;
    var t := k - (resolve + 1);
    FrameTail(src, ssr, dst, downSampling, n, k);
    ReleaseAllAt(n, t);
    PrefixAllocations(src, ssr, dst, downSampling, n);
    AllocatedBefore(cmds, resolve + 1, k, LevelPairs(n), LevelPairs(n)[t]);
  }

  /** An id allocated within the first `p` commands is allocated within the
      first `k`, for any `k >= p`. */
  lemma AllocatedBefore(cmds: seq<Command>, p: nat, k: nat, ids: seq<TempId>, id: TempId)
    requires p <= k <= |cmds|
    requires Allocations(cmds[..p]) == ids && id in ids
    ensures id in Allocations(cmds[..k])
  {
    assert cmds[..k] == cmds[..p] + cmds[p..k];
    AppendCounts(cmds[..p], cmds[p..k]);
  }

  /** Before the resolve, nothing is released. */
  lemma NoReleaseBeforeResolve(src: HostTarget, ssr: HostTarget, dst: Descriptor, downSampling: int, n: nat, k: nat)
    requires downSampling != 0
    requires k <= |PassCommands(src, ssr, dst, downSampling, n)| - 2 - 2 * n
    ensures !PassCommands(src, ssr, dst, downSampling, n)[k].Release?
  {
    var base, depth := BaseSize(dst, downSampling), dst.depthBufferBits;
    FrameHead(src, ssr, dst, downSampling, n, k);
    if 2 <= k < 2 + 3 * n {
      DownsampleNoRelease(ssr, base, depth, n, k - 2);
    }
  }

  /** The downsample loop allocates and draws into `_DownSample` targets
      only; it never releases. */
  lemma {:induction false} DownsampleNoRelease(ssr: HostTarget, base: int, depth: int, k: nat, j: nat)
    requires j < 3 * k
    ensures var c := Downsample(ssr, base, depth, k)[j];
      c.GetTemp? || (c.Blit? && c.dest.Temp? && c.dest.temp.DownSampleId?)
  {
    if j < 3 * (k - 1) {
      DownsampleNoRelease(ssr, base, depth, k - 1, j);
      assert Downsample(ssr, base, depth, k)[j] == Downsample(ssr, base, depth, k - 1)[j];
    }
  }

  /** Everything up to the resolve allocates all `2n` ids. */
  lemma PrefixAllocations(src: HostTarget, ssr: HostTarget, dst: Descriptor, downSampling: int, n: nat)
    requires downSampling != 0
    ensures var cmds := PassCommands(src, ssr, dst, downSampling, n);
      |cmds| >= 2 + 2 * n &&
      Allocations(cmds[..|cmds| - 1 - 2 * n]) == LevelPairs(n)
  {
    var cmds := PassCommands(src, ssr, dst, downSampling, n);
    var base, depth := BaseSize(dst, downSampling), dst.depthBufferBits;
    var head := [Blit(src, ssr, Material(0)), SetGlobal(SsrTextureName, ssr)];
    var d, u := Downsample(ssr, base, depth, n), Upsample(ssr, n, UpCount(n));
    var r := [Blit(UpSource(ssr, n, UpCount(n)), ssr, Copy)];
    var pre := head + d + u + r;
    assert cmds == pre + (ReleaseAll(n) + [Blit(ssr, src, Copy)]);
    assert cmds[..|cmds| - 1 - 2 * n] == pre;
    HeadCounts(src, ssr);
    DownsampleAllocations(ssr, base, depth, n);
    UpsampleAllocations(ssr, n, UpCount(n));
    SingleCounts(r[0]);
    PreResolveCounts(head, d, u, r, LevelPairs(n));
  }

  /** Allocations of the four parts recorded before the releases. */
  lemma PreResolveCounts(head: seq<Command>, d: seq<Command>, u: seq<Command>, r: seq<Command>, ids: seq<TempId>)
    requires Allocations(head) == [] && Allocations(d) == ids && Allocations(u) == [] && Allocations(r) == []
    ensures Allocations(head + d + u + r) == ids
  {
    AppendCounts(head, d);
    AppendCounts(head + d, u);
    AppendCounts(head + d + u, r);
  }

  /** The release loop frees the ids in allocation order. */
  lemma {:induction false} ReleaseAllAt(k: nat, t: nat)
    requires t < 2 * k
    ensures ReleaseAll(k)[t] == Release(LevelPairs(k)[t])
  {
    if t < 2 * (k - 1) {
      ReleaseAllAt(k - 1, t);
    }
  }

  // ---------------------------------------------------------------------
  // Resolve and copy back

  /** The last two blits: the final running source into the reflection
      target, then the reflection target into the camera target, with only
      releases between them. The final source is `_UpSample0` for two or
      more levels, `_DownSample0` for one, and the raw reflection itself
      for none. */
  lemma ResolveAndCopyBack(src: HostTarget, ssr: HostTarget, dst: Descriptor, downSampling: int, n: nat)
    requires downSampling != 0
    ensures var cmds := PassCommands(src, ssr, dst, downSampling, n);
      var m := |cmds|;
      m >= 4 + 2 * n &&
      cmds[m - 1] == Blit(ssr, src, Copy) &&
      cmds[m - 2 - 2 * n] == Blit(if n >= 2 then Temp(UpSampleId(0)) else if n == 1 then Temp(DownSampleId(0)) else ssr,
                                  ssr, Copy) &&
      (forall k :: m - 1 - 2 * n <= k < m - 1 ==> cmds[k].Release?)
  {
    var cmds := PassCommands(src, ssr, dst, downSampling, n);
    var m := |cmds|;
    FrameLayout(src, ssr, dst, downSampling, n);
    forall k | m - 1 - 2 * n <= k < m - 1 ensures cmds[k].Release? {
      FrameTail(src, ssr, dst, downSampling, n, k);
    }
  }

  /** `_UpSample<n-1>` is allocated but no blit ever draws into it. */
  lemma TopUpSampleNeverWritten(src: HostTarget, ssr: HostTarget, dst: Descriptor, downSampling: int, n: nat, k: nat)
    requires downSampling != 0 && n >= 1
    requires k < |PassCommands(src, ssr, dst, downSampling, n)|
    ensures var c := PassCommands(src, ssr, dst, downSampling, n)[k];
      c.Blit? ==> c.dest != Temp(UpSampleId(n - 1))
  {
    var base, depth := BaseSize(dst, downSampling), dst.depthBufferBits;
    var m := |PassCommands(src, ssr, dst, downSampling, n)|;
    FrameLayout(src, ssr, dst, downSampling, n);
    if k <= m - 2 - 2 * n {
      FrameHead(src, ssr, dst, downSampling, n, k);
      if 2 <= k < 2 + 3 * n {
        DownsampleNoRelease(ssr, base, depth, n, k - 2);
      } else if 2 + 3 * n <= k < m - 2 - 2 * n {
        UpsampleAt(ssr, n, UpCount(n), k - 2 - 3 * n);
      }
    } else {
      FrameTail(src, ssr, dst, downSampling, n, k);
    }
  }

  // ---------------------------------------------------------------------
  // A worked frame

  /** With the default settings (downsampling 4, two blur iterations) on a
      1920x1080 camera, the pyramid is 480x480 then 240x240, one upsample
      blit collapses it into `_UpSample0`, and all four temporaries are
      released before the copy back. */
  lemma DefaultSettingsOn1080p(src: HostTarget, ssr: HostTarget, depth: int)
    ensures RecordedCommands(true, true, src, ssr, Descriptor(1920, 1080, depth), 4, 2) ==
      [ Blit(src, ssr, Material(0)),
        SetGlobal(SsrTextureName, ssr),
        GetTemp(DownSampleId(0), 480, 480, depth),
        GetTemp(UpSampleId(0), 480, 480, depth),
        Blit(ssr, Temp(DownSampleId(0)), Material(1)),
        GetTemp(DownSampleId(1), 240, 240, depth),
        GetTemp(UpSampleId(1), 240, 240, depth),
        Blit(Temp(DownSampleId(0)), Temp(DownSampleId(1)), Material(1)),
        Blit(Temp(DownSampleId(1)), Temp(UpSampleId(0)), Material(2)),
        Blit(Temp(UpSampleId(0)), ssr, Copy),
        Release(DownSampleId(0)),
        Release(UpSampleId(0)),
        Release(DownSampleId(1)),
        Release(UpSampleId(1)),
        Blit(ssr, src, Copy) ]
  {
    var dst := Descriptor(1920, 1080, depth);
    assert BaseSize(dst, 4) == 480;
    assert RecordedCommands(true, true, src, ssr, dst, 4, 2)
        == [Blit(src, ssr, Material(0)), SetGlobal(SsrTextureName, ssr)] + BlurCommands(src, ssr, 480, depth, 2);
    DefaultDownsample(ssr, depth);
    assert Upsample(ssr, 2, 1) == [Blit(Temp(DownSampleId(1)), Temp(UpSampleId(0)), Material(2))];
    assert UpSource(ssr, 2, 1) == Temp(UpSampleId(0));
    assert BlurCommands(src, ssr, 480, depth, 2) == Downsample(ssr, 480, depth, 2) + Upsample(ssr, 2, 1)
        + [Blit(Temp(UpSampleId(0)), ssr, Copy)] + ReleaseAll(2) + [Blit(ssr, src, Copy)];
    DefaultReleases();
  }

  /** The two downsample levels of the default settings on a 1920-wide camera. */
  lemma DefaultDownsample(ssr: HostTarget, depth: int)
    ensures Downsample(ssr, 480, depth, 2) ==
      [ GetTemp(DownSampleId(0), 480, 480, depth), GetTemp(UpSampleId(0), 480, 480, depth),
        Blit(ssr, Temp(DownSampleId(0)), Material(1)),
        GetTemp(DownSampleId(1), 240, 240, depth), GetTemp(UpSampleId(1), 240, 240, depth),
        Blit(Temp(DownSampleId(0)), Temp(DownSampleId(1)), Material(1)) ]
  {
    assert LevelSize(480, 1) == 240;
    assert Downsample(ssr, 480, depth, 1) ==
      [ GetTemp(DownSampleId(0), 480, 480, depth), GetTemp(UpSampleId(0), 480, 480, depth),
        Blit(ssr, Temp(DownSampleId(0)), Material(1)) ];
  }

  /** The four releases of a two-level pyramid, in allocation order. */
  lemma DefaultReleases()
    ensures ReleaseAll(2) ==
      [Release(DownSampleId(0)), Release(UpSampleId(0)), Release(DownSampleId(1)), Release(UpSampleId(1))]
  {
    assert ReleaseAll(1) == [Release(DownSampleId(0)), Release(UpSampleId(0))];
  }
}
