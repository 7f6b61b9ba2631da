/** The combinatorics shared by the tube generators: the buffers they emit
    ring by ring (Grid) and the index buffer that stitches consecutive rings
    into quads of two triangles (Stitch). */
module Rings {

  /** One ring: w entries, entry j is f(p, i, j) for the ring's point p. */
  function Row<A, T>(p: A, i: nat, w: nat, f: (A, nat, nat) -> T): seq<T>
  {
    seq(w, j requires 0 <= j < w => f(p, i, j))
  }

  /** One ring of w entries per element of rows, in order. */
  function Grid<A, T>(rows: seq<A>, w: nat, f: (A, nat, nat) -> T): seq<T>
    decreases |rows|
  {
    if rows == [] then []
    else Grid(rows[..|rows| - 1], w, f) + Row(rows[|rows| - 1], |rows| - 1, w, f)
  }

  lemma MulMono(a: nat, b: nat, c: nat)
    requires a <= b
    ensures a * c <= b * c
  {
  }

  lemma MulSucc(a: nat, b: nat)
    ensures (a + 1) * b == a * b + b
  {
  }

  lemma RowSnoc<A, T>(p: A, i: nat, j: nat, f: (A, nat, nat) -> T)
    ensures Row(p, i, j + 1, f) == Row(p, i, j, f) + [f(p, i, j)]
  {
  }

  lemma GridSnoc<A, T>(rows: seq<A>, i: nat, w: nat, f: (A, nat, nat) -> T)
    requires i < |rows|
    ensures Grid(rows[..i + 1], w, f) == Grid(rows[..i], w, f) + Row(rows[i], i, w, f)
  {
    assert rows[..i + 1][..i] == rows[..i];
  }

  lemma {:induction false} GridLength<A, T>(rows: seq<A>, w: nat, f: (A, nat, nat) -> T)
    ensures |Grid(rows, w, f)| == |rows| * w
    decreases |rows|
  {
    if rows != [] {
      GridLength(rows[..|rows| - 1], w, f);
      MulSucc(|rows| - 1, w);
    }
  }

  /** Entry j of ring i sits at position i*w + j. */
  lemma {:induction false} GridAt<A, T>(rows: seq<A>, w: nat, f: (A, nat, nat) -> T, i: nat, j: nat)
    requires i < |rows| && j < w
    ensures |Grid(rows, w, f)| == |rows| * w
    ensures i * w + j < |rows| * w
    ensures Grid(rows, w, f)[i * w + j] == f(rows[i], i, j)
    decreases |rows|
  {
    var n := |rows|;
    var init := rows[..n - 1];
    GridLength(rows, w, f);
    GridLength(init, w, f);
    MulMono(i + 1, n, w);
    if i < n - 1 {
      GridAt(init, w, f, i, j);
      assert init[i] == rows[i];
    } else {
      assert (n - 1) * w + j == i * w + j;
    }
  }

  /** The six indices emitted for the quad at ring i, segment j, when ring r
      starts at index r*stride: triangles (current, next ring, diagonal) and
      (current, diagonal, next segment), the radial index wrapping modulo s. */
  function Quad(i: nat, j: nat, stride: nat, s: nat): seq<nat>
    requires j < s
  {
    var next := (j + 1) % s;
    var current := i * stride + j;
    var nextRing := (i + 1) * stride + j;
    var nextSegment := i * stride + next;
    var diagonal := (i + 1) * stride + next;
    [current, nextRing, diagonal, current, diagonal, nextSegment]
  }

  /** The two triangles of a quad share the diagonal from the current vertex
      to the next segment of the next ring. */
  lemma QuadCorners(i: nat, j: nat, stride: nat, s: nat)
    requires j < s
    ensures var c := i * stride + j;
      var diagonal := (i + 1) * stride + (j + 1) % s;
      Quad(i, j, stride, s) == [c, c + stride, diagonal, c, diagonal, i * stride + (j + 1) % s]
  {
    assert (i + 1) * stride + j == i * stride + j + stride;
  }

  /** The quads of ring i for segments 0 .. j-1. */
  function Band(i: nat, j: nat, stride: nat, s: nat): seq<nat>
    requires j <= s
    decreases j
  {
    if j == 0 then [] else Band(i, j - 1, stride, s) + Quad(i, j - 1, stride, s)
  }

  /** The face loop: the quads of rings 0 .. rings-1, ring by ring. */
  function Stitch(rings: nat, stride: nat, s: nat): seq<nat>
    decreases rings
  {
    if rings == 0 then [] else Stitch(rings - 1, stride, s) + Band(rings - 1, s, stride, s)
  }

  lemma {:induction false} BandAt(i: nat, j: nat, stride: nat, s: nat, q: nat, t: nat)
    requires j <= s && q < j && t < 6
    ensures |Band(i, j, stride, s)| == 6 * j
    ensures Band(i, j, stride, s)[6 * q + t] == Quad(i, q, stride, s)[t]
    decreases j
  {
    if q < j - 1 {
      BandAt(i, j - 1, stride, s, q, t);
    } else if j - 1 > 0 {
      BandAt(i, j - 1, stride, s, 0, 0);
    }
  }

  lemma {:induction false} BandBound(i: nat, j: nat, stride: nat, s: nat)
    requires j <= s
    ensures |Band(i, j, stride, s)| == 6 * j
    ensures forall t :: 0 <= t < |Band(i, j, stride, s)| ==>
      Band(i, j, stride, s)[t] < (i + 1) * stride + s
    decreases j
  {
    if j > 0 {
      BandBound(i, j - 1, stride, s);
      var q := Quad(i, j - 1, stride, s);
      assert forall t :: 0 <= t < 6 ==> q[t] < (i + 1) * stride + s;
    }
  }

  lemma {:induction false} StitchLength(rings: nat, stride: nat, s: nat)
    ensures |Stitch(rings, stride, s)| == 6 * rings * s
    decreases rings
  {
    if rings > 0 {
      StitchLength(rings - 1, stride, s);
      BandBound(rings - 1, s, stride, s);
    }
  }

  /** Where the quad of ring i, segment j starts, relative to the last ring. */
  lemma QuadPosition(rings: nat, s: nat, i: nat, j: nat, t: nat)
    requires i < rings && j < s && t < 6
    ensures 6 * rings * s == 6 * (rings - 1) * s + 6 * s
    ensures 6 * (i * s + j) + t < 6 * rings * s
    ensures i < rings - 1 ==> 6 * (i * s + j) + t < 6 * (rings - 1) * s
    ensures i == rings - 1 ==> 6 * (i * s + j) + t == 6 * (rings - 1) * s + (6 * j + t)
  {
    MulMono(i + 1, rings, s);
    if i < rings - 1 {
      MulMono(i + 1, rings - 1, s);
    }
  }

  /** The quads of the last ring follow those of all earlier rings. */
  lemma StitchAtLast(rings: nat, stride: nat, s: nat, j: nat, t: nat)
    requires 0 < rings && j < s && t < 6
    ensures 6 * ((rings - 1) * s + j) + t < |Stitch(rings, stride, s)|
    ensures Stitch(rings, stride, s)[6 * ((rings - 1) * s + j) + t] == Quad(rings - 1, j, stride, s)[t]
  {
    StitchLength(rings - 1, stride, s);
    QuadPosition(rings, s, rings - 1, j, t);
    BandAt(rings - 1, s, stride, s, j, t);
    var pre := Stitch(rings - 1, stride, s);
    var band := Band(rings - 1, s, stride, s);
    assert (pre + band)[|pre| + (6 * j + t)] == band[6 * j + t];
  }

  /** The face loop only appends: fewer rings give a prefix. */
  lemma {:induction false} StitchPrefix(a: nat, b: nat, stride: nat, s: nat)
    requires a <= b
    ensures Stitch(a, stride, s) <= Stitch(b, stride, s)
    decreases b
  {
    if a < b {
      StitchPrefix(a, b - 1, stride, s);
      var pre := Stitch(b - 1, stride, s);
      assert pre <= pre + Band(b - 1, s, stride, s);
    }
  }

  /** The quad of ring i, segment j occupies positions 6*(i*s+j) .. +5. */
  lemma StitchAt(rings: nat, stride: nat, s: nat, i: nat, j: nat, t: nat)
    requires i < rings && j < s && t < 6
    ensures 6 * (i * s + j) + t < |Stitch(rings, stride, s)| == 6 * rings * s
    ensures Stitch(rings, stride, s)[6 * (i * s + j) + t] == Quad(i, j, stride, s)[t]
  {
    StitchLength(rings, stride, s);
    StitchAtLast(i + 1, stride, s, j, t);
    StitchPrefix(i + 1, rings, stride, s);
  }

  /** The six indices of quad (i, j) as one slice of the stitched buffer. */
  lemma StitchQuad(rings: nat, stride: nat, s: nat, i: nat, j: nat)
    requires i < rings && j < s
    ensures 6 * (i * s + j) + 6 <= |Stitch(rings, stride, s)|
    ensures Stitch(rings, stride, s)[6 * (i * s + j)..6 * (i * s + j) + 6] == Quad(i, j, stride, s)
  {
    var p := 6 * (i * s + j);
    var st := Stitch(rings, stride, s);
    StitchAt(rings, stride, s, i, j, 5);
    forall t | 0 <= t < 6 ensures st[p + t] == Quad(i, j, stride, s)[t] {
      StitchAt(rings, stride, s, i, j, t);
    }
    assert st[p..p + 6] == Quad(i, j, stride, s);
  }

  /** Every stitched index lies below rings*stride + s. */
  lemma {:induction false} StitchBound(rings: nat, stride: nat, s: nat)
    ensures forall t :: 0 <= t < |Stitch(rings, stride, s)| ==>
      Stitch(rings, stride, s)[t] < rings * stride + s
    decreases rings
  {
    if rings > 0 {
      var init := Stitch(rings - 1, stride, s);
      var band := Band(rings - 1, s, stride, s);
      StitchBound(rings - 1, stride, s);
      BandBound(rings - 1, s, stride, s);
      MulMono(rings - 1, rings, stride);
      forall t | 0 <= t < |init + band| ensures (init + band)[t] < rings * stride + s {
        if t < |init| {
          assert init[t] < (rings - 1) * stride + s;
        } else {
          assert band[t - |init|] < rings * stride + s;
        }
      }
    }
  }

  lemma ModOfMulAdd(a: nat, m: nat, b: nat)
    requires b < m
    ensures (a * m + b) % m == b
  {
    var x := a * m + b;
    var q := x / m;
    assert x == q * m + x % m;
    assert q >= 0;
    if q > a {
      MulMono(a + 1, q, m);
      assert false;
    }
    if q < a {
      MulMono(q + 1, a, m);
      assert false;
    }
  }

  /** Every position of a stitched buffer belongs to exactly one quad. */
  lemma Decompose(rings: nat, s: nat, t: nat) returns (i: nat, j: nat, o: nat)
    requires t < 6 * rings * s
    ensures i < rings && j < s && o < 6 && t == 6 * (i * s + j) + o
  {
    var quad := t / 6;
    o := t % 6;
    assert quad < rings * s;
    i := quad / s;
    j := quad % s;
    if i >= rings {
      MulMono(rings, i, s);
      assert false;
    }
  }

  lemma QuadAvoidsSeam(i: nat, j: nat, stride: nat, r: nat)
    requires stride == r + 1 && j < r
    ensures forall o :: 0 <= o < 6 ==> Quad(i, j, stride, r)[o] % stride != r
  {
    var next := (j + 1) % r;
    ModOfMulAdd(i, stride, j);
    ModOfMulAdd(i + 1, stride, j);
    ModOfMulAdd(i, stride, next);
    ModOfMulAdd(i + 1, stride, next);
  }

  /** With stride r+1 and r segments, the last vertex of each ring (position
      r within the ring) is never named by an index. */
  lemma StitchAvoidsSeam(rings: nat, stride: nat, r: nat)
    requires stride == r + 1
    ensures forall t :: 0 <= t < |Stitch(rings, stride, r)| ==>
      Stitch(rings, stride, r)[t] % stride != r
  {
    StitchLength(rings, stride, r);
    forall t | 0 <= t < |Stitch(rings, stride, r)|
      ensures Stitch(rings, stride, r)[t] % stride != r
    {
      var i, j, o := Decompose(rings, r, t);
      StitchAt(rings, stride, r, i, j, o);
      QuadAvoidsSeam(i, j, stride, r);
    }
  }
}
