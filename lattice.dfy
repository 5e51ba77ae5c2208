/** What the two chunk interpolators share: the interpolation cells they store,
    the four-neighbour blend, the cross of coarse-grid indices a blend reads,
    and the way a chunk-local coordinate is split into a cell index and a
    fraction. */
module Lattice {
  import opened Java

  /** `Interpolator`: the 4 corner values of one 2D cell, subscripts are the
      x and z offsets of the corner, in the constructor's argument order. */
  datatype Interpolator = Interpolator(c00: real, c10: real, c01: real, c11: real)

  /** `Interpolator3`: the 8 corner values of one 3D cell, subscripts are the
      x, y and z offsets of the corner, in the constructor's argument order. */
  datatype Interpolator3 = Interpolator3(
    c000: real, c100: real, c010: real, c110: real,
    c001: real, c101: real, c011: real, c111: real)

  /** What a query hands to `bilerp` or `trilerp`: the selected cell and the
      fractional position inside it. */
  datatype Lookup =
    | Bilerp(cell2: Interpolator, tx: real, tz: real)
    | Trilerp(cell3: Interpolator3, tx: real, ty: real, tz: real)

  function Abs(n: int): nat { if n < 0 then -n else n }
  function Min(a: real, b: real): real { if a <= b then a else b }
  function Max(a: real, b: real): real { if a <= b then b else a }

  /** `(a + b + c + d) / 4D`: the blend never leaves the range of the four
      values it averages, and four equal values blend to themselves. */
  function Mean4(a: real, b: real, c: real, d: real): (r: real)
    ensures Min(Min(a, b), Min(c, d)) <= r <= Max(Max(a, b), Max(c, d))
    ensures a == b == c == d ==> r == a
  {
    (a + b + c + d) / 4.0
  }

  /** The coarse-grid indices a blend at lattice corner (x, z) reads: four
      different ones, in the order the source adds them (+x, -x, +z, -z
      around the centre (x+2, z+2)). */
  function Cross(x: int, z: int): (s: seq<(int, int)>)
    ensures |s| == 4
    ensures (x + 2, z + 2) !in s
    ensures forall k, l :: 0 <= k < l < 4 ==> s[k] != s[l]
    ensures forall k :: 0 <= k < 4 ==> Abs(s[k].0 - (x + 2)) + Abs(s[k].1 - (z + 2)) == 1
  {
    [(x + 3, z + 2), (x + 1, z + 2), (x + 2, z + 3), (x + 2, z + 1)]
  }

  /** Some lattice corner of the chunk, 0..4 on both axes, reads (i, j). */
  ghost predicate ReadByLattice(i: int, j: int) {
    exists x, z :: 0 <= x <= 4 && 0 <= z <= 4 && (i, j) in Cross(x, z)
  }

  /** The 8x8 margin grid is exactly wide enough: the corners of the chunk
      read every index 1..7 on both axes except the four corners of that
      square, and never index 0 (nor anything outside 0..7). */
  lemma {:induction false} MarginCoverage(i: int, j: int)
    ensures ReadByLattice(i, j) <==>
      1 <= i <= 7 && 1 <= j <= 7 && !((i == 1 || i == 7) && (j == 1 || j == 7))
  {
    if 1 <= i <= 7 && 1 <= j <= 7 && !((i == 1 || i == 7) && (j == 1 || j == 7)) {
      if 2 <= j <= 6 && 3 <= i {
        assert (i, j) == Cross(i - 3, j - 2)[0];
      } else if 2 <= j <= 6 {
        assert (i, j) == Cross(i - 1, j - 2)[1];
      } else if j == 7 {
        assert (i, j) == Cross(i - 2, 4)[2];
      } else {
        assert (i, j) == Cross(i - 2, 0)[3];
      }
    }
  }

  /** A chunk-local coordinate split along one axis */
  datatype Axis = Axis(index: int, frac: real)

  /** `c / 4` and `(c % 4) / 4` in Java arithmetic: the cell index and the
      fraction always put c back together, and for c >= 0 the fraction lies
      in [0, 1) (it is negative for negative c). */
  function Locate(c: int): (a: Axis)
    ensures c as real == 4.0 * a.index as real + 4.0 * a.frac
    ensures 0 <= c ==> a.index == c / 4 && 0.0 <= a.frac < 1.0
    ensures c < 0 ==> -1.0 < a.frac <= 0.0
  {
    Axis(Div4(c), Rem4(c) as real / 4.0)
  }

  /** The index lands in 0..n-1 exactly for -4 < c < 4n: Java's truncating
      division sends -3..-1 to cell 0 rather than out of range. */
  lemma {:induction false} LocateInCells(c: int, n: nat)
    requires 0 < n
    ensures 0 <= Locate(c).index < n <==> -4 < c < 4 * n
  {
    var q := Div4(c);
    assert Locate(c).index == q;
    if 0 <= c {
      assert 4 * q <= c < 4 * q + 4;
    } else {
      assert 4 * q - 4 < c <= 4 * q <= 0;
      if q == 0 {
        assert -4 < c;
      } else {
        assert c <= -4;
      }
    }
  }

  /** Addressing is a bijection: each cell index and each quarter fraction
      is reached by exactly one non-negative coordinate. */
  lemma {:induction false} LocateBijective(index: nat, k: nat, c: int)
    requires k < 4
    ensures Locate(4 * index + k) == Axis(index, k as real / 4.0)
    ensures 0 <= c && Locate(c) == Axis(index, k as real / 4.0) ==> c == 4 * index + k
  {
  }
}
