/**
 * Where the lines of a usage hologram stand: a base point in front of the
 * viewer's eyes, and each line a fixed spacing below the previous one.
 * Coordinates are exact reals; the source computes them in double precision.
 */
module Layout {

  datatype Vec3 = Vec3(x: real, y: real, z: real)

  /** Distance in front of the eyes at which the hologram is placed. */
  const HologramForward: real := 1.6
  /** Vertical offset of the first line from eye height. */
  const HologramVerticalOffset: real := -0.9
  /** Vertical distance between two consecutive lines. */
  const HologramLineSpacing: real := 0.27

  /** The first line's position: the eye moved forward along the (already
      normalised) facing direction, then lowered by the vertical offset. */
  function Base(eye: Vec3, facing: Vec3): Vec3
  {
    Vec3(eye.x + facing.x * HologramForward,
         eye.y + facing.y * HologramForward + HologramVerticalOffset,
         eye.z + facing.z * HologramForward)
  }

  function NormSquared(v: Vec3): real
  {
    v.x * v.x + v.y * v.y + v.z * v.z
  }

  /** For a unit facing vector, the base raised back by the vertical offset
      lies exactly the forward distance from the eye, and the vertical offset
      moves it straight down. */
  lemma BaseAheadOfEye(eye: Vec3, facing: Vec3)
    requires NormSquared(facing) == 1.0
    ensures var b := Base(eye, facing);
      && NormSquared(Vec3(b.x - eye.x, b.y - HologramVerticalOffset - eye.y, b.z - eye.z))
           == HologramForward * HologramForward
  {
    var b := Base(eye, facing);
    var d := Vec3(b.x - eye.x, b.y - HologramVerticalOffset - eye.y, b.z - eye.z);
    assert d == Vec3(facing.x * HologramForward, facing.y * HologramForward, facing.z * HologramForward);
    calc {
      NormSquared(d);
      (facing.x * facing.x + facing.y * facing.y + facing.z * facing.z) * (HologramForward * HologramForward);
      HologramForward * HologramForward;
    }
  }

  /** Position of line i: the base lowered by i line spacings. */
  function LineLocation(base: Vec3, i: nat): (loc: Vec3)
    ensures loc.x == base.x && loc.z == base.z
    ensures loc.y <= base.y
  {
    Vec3(base.x, base.y - i as real * HologramLineSpacing, base.z)
  }

  /** The first line stands at the base itself. */
  lemma FirstLineAtBase(base: Vec3)
    ensures LineLocation(base, 0) == base
  {
  }

  /** Consecutive lines differ by exactly one spacing, vertically only. */
  lemma ConsecutiveLines(base: Vec3, i: nat)
    ensures LineLocation(base, i + 1)
         == LineLocation(base, i).(y := LineLocation(base, i).y - HologramLineSpacing)
  {
  }

  /** Lines further down the list stand strictly lower, so no two lines share a position. */
  lemma LinesDescend(base: Vec3, i: nat, j: nat)
    requires i < j
    ensures LineLocation(base, j).y < LineLocation(base, i).y
    ensures LineLocation(base, i).y - LineLocation(base, j).y == (j - i) as real * HologramLineSpacing
  {
  }

  /** A viewer at the origin facing +z: the base is 1.6 ahead and 0.9 down,
      and the fourth line is three spacings lower. */
  lemma ExampleLayout()
    ensures Base(Vec3(0.0, 0.0, 0.0), Vec3(0.0, 0.0, 1.0)) == Vec3(0.0, -0.9, 1.6)
    ensures LineLocation(Vec3(0.0, -0.9, 1.6), 3) == Vec3(0.0, -1.71, 1.6)
  {
  }
}
