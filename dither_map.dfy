/** The 4x4 dither texture the reflection pass builds once, at construction,
    and binds to its material as `_DitherMap`. In C# these are private
    members of the pass; they read and write none of its fields, so they
    form a module of their own, used only by the pass's constructor. */
module DitherMap {

  newtype byte = x: int | 0 <= x < 256

  datatype Color32 = Color32(r: byte, g: byte, b: byte, a: byte)

  /** The dither value of each of the 16 cells, row-major. */
  const BayerOrder: seq<nat> := [0, 8, 2, 10, 12, 4, 14, 6, 3, 11, 1, 9, 15, 7, 13, 5]

  /** The 2x2 Bayer matrix the 4x4 ordering is built from, row-major. */
  const Bayer2: seq<nat> := [0, 2, 3, 1]

  /** The byte `(byte)(value / 16f * 255)`, in every channel. The float
      quotient `value / 16` is exact and so is its product with 255 for the
      values used, so the cast truncates the exact rational `255 * value / 16`. */
  function GetDitherColor(value: nat): (c: Color32)
    requires value <= 16
    ensures c.r == c.g == c.b == c.a
    ensures 16 * (c.r as int) <= 255 * value < 16 * (c.r as int + 1)
  {
    var v := (255 * value / 16) as byte;
    Color32(v, v, v, v)
  }

  /** The texture's 16 texels, row-major. */
  function DitherTable(): (t: seq<Color32>)
    ensures |t| == 16
  {
    [ GetDitherColor(0), GetDitherColor(8), GetDitherColor(2), GetDitherColor(10),
      GetDitherColor(12), GetDitherColor(4), GetDitherColor(14), GetDitherColor(6),
      GetDitherColor(3), GetDitherColor(11), GetDitherColor(1), GetDitherColor(9),
      GetDitherColor(15), GetDitherColor(7), GetDitherColor(13), GetDitherColor(5) ]
  }

  /** Fills the 16 texels cell by cell. */
  method GenerateDitherMap() returns (colors: array<Color32>)
    ensures fresh(colors)
    ensures colors[..] == DitherTable()
  {
    colors := new Color32[16];
    colors[0] := GetDitherColor(0);
    colors[1] := GetDitherColor(8);
    colors[2] := GetDitherColor(2);
    colors[3] := GetDitherColor(10);
    colors[4] := GetDitherColor(12);
    colors[5] := GetDitherColor(4);
    colors[6] := GetDitherColor(14);
    colors[7] := GetDitherColor(6);
    colors[8] := GetDitherColor(3);
    colors[9] := GetDitherColor(11);
    colors[10] := GetDitherColor(1);
    colors[11] := GetDitherColor(9);
    colors[12] := GetDitherColor(15);
    colors[13] := GetDitherColor(7);
    colors[14] := GetDitherColor(13);
    colors[15] := GetDitherColor(5);
    assert colors[..] == [colors[0], colors[1], colors[2], colors[3], colors[4], colors[5], colors[6], colors[7],
                          colors[8], colors[9], colors[10], colors[11], colors[12], colors[13], colors[14], colors[15]];
  }

  /** Every texel holds `value * 255 / 16` (integer division) of its cell's
      dither value, in all four channels. */
  lemma DitherCell(i: nat)
    requires i < 16
    ensures BayerOrder[i] < 16
    ensures DitherTable()[i] == Color32(
      (BayerOrder[i] * 255 / 16) as byte, (BayerOrder[i] * 255 / 16) as byte,
      (BayerOrder[i] * 255 / 16) as byte, (BayerOrder[i] * 255 / 16) as byte)
  {
  }

  /** The 16 dither values are a permutation of 0..15. */
  lemma BayerOrderIsPermutation()
    ensures |BayerOrder| == 16
    ensures forall v :: v in BayerOrder <==> 0 <= v < 16
    ensures forall i, j :: 0 <= i < j < 16 ==> BayerOrder[i] != BayerOrder[j]
  {
  }

  /** The 4x4 ordering is the classic recursive Bayer matrix: the cell in row
      `row` and column `col` is `4 * M2[row % 2][col % 2] + M2[row / 2][col / 2]`. */
  lemma BayerOrderIsRecursiveBayer(row: nat, col: nat)
    requires row < 4 && col < 4
    ensures BayerOrder[4 * row + col] == 4 * Bayer2[2 * (row % 2) + col % 2] + Bayer2[2 * (row / 2) + col / 2]
  {
  }

  /** The texels are pairwise distinct bytes between 0 and 239. */
  lemma DitherBytesInRange()
    ensures forall i :: 0 <= i < 16 ==> DitherTable()[i].r <= 239
    ensures forall i, j :: 0 <= i < j < 16 ==> DitherTable()[i] != DitherTable()[j]
  {
    forall i | 0 <= i < 16 ensures DitherTable()[i].r <= 239 {
      DitherCell(i);
    }
    BayerOrderIsPermutation();
    forall i, j | 0 <= i < j < 16 ensures DitherTable()[i] != DitherTable()[j] {
      var vi, vj := BayerOrder[i], BayerOrder[j];
      DitherCell(i);
      DitherCell(j);
      ScaledByteInjective(vi, vj);
    }
  }

  /** Distinct values below 16 scale to distinct bytes, because 255 / 16 > 1. */
  lemma ScaledByteInjective(v: nat, w: nat)
    requires v < 16 && w < 16 && v != w
    ensures v * 255 / 16 != w * 255 / 16
  {
    if v < w {
      assert w * 255 >= v * 255 + 255;
    } else {
      assert v * 255 >= w * 255 + 255;
    }
  }
}
