/** The shape-morphing animation of a clicked map region: keyframe
    interpolation, the per-frame morph step over a nine-vertex buffer, and
    the flat 3x3 target rectangle placed in front of the camera. */
module Transform {
  import opened Wrappers
  import opened Vectors

  // ---------------------------------------------------------------------
  // Keyframe interpolation
  // ---------------------------------------------------------------------

  /** Linear interpolation through the points (k1, v1) and (k2, v2),
      evaluated at k. The two keys must differ: the only caller passes a
      bracketing pair keys[i-1] < k <= keys[i]. */
  function Lerp(k1: real, v1: real, k2: real, v2: real, k: real): (r: real)
    requires k1 != k2
    ensures k == k1 ==> r == v1
    ensures k == k2 ==> r == v2
    ensures (k1 <= k <= k2 || k2 <= k <= k1) ==> Between(v1, v2, r)
  {
    var s := (k - k1) / (k2 - k1);
    FractionBetween(s, v1, v2);
    s * (v2 - v1) + v1
  }

  /** A fraction in [0, 1] of the way from v1 to v2 stays between them. */
  lemma FractionBetween(s: real, v1: real, v2: real)
    ensures 0.0 <= s <= 1.0 ==> Between(v1, v2, s * (v2 - v1) + v1)
  {
    if 0.0 <= s <= 1.0 {
      var d := v2 - v1;
      if v1 <= v2 {
        assert 0.0 <= s * d by { MulNonnegative(s, d); }
        assert 0.0 <= (1.0 - s) * d by { MulNonnegative(1.0 - s, d); }
      } else {
        assert 0.0 <= s * -d by { MulNonnegative(s, -d); }
        assert 0.0 <= (1.0 - s) * -d by { MulNonnegative(1.0 - s, -d); }
      }
    }
  }

  lemma MulNonnegative(a: real, b: real)
    requires 0.0 <= a && 0.0 <= b
    ensures 0.0 <= a * b
  {
  }

  /** Index i brackets k in keys: keys[0] is below k and i is the first index
      whose key reaches k. This is exactly the first index at which the
      search test `keys[i] >= k && keys[0] < k` holds. */
  predicate IsInterval(keys: seq<real>, k: real, i: int)
  {
    0 <= i < |keys| && keys[0] < k && keys[i] >= k &&
    forall j :: 0 <= j < i ==> keys[j] < k
  }

  /** No index brackets k: there are no keys, k does not lie above the first
      key, or k lies above every key. */
  predicate NoInterval(keys: seq<real>, k: real)
  {
    |keys| == 0 || k <= keys[0] || forall j :: 0 <= j < |keys| ==> keys[j] < k
  }

  /** Linear search for the upper end of the keyframe interval holding k.
      `None` is the JavaScript `undefined` the loop falls off with. No
      ordering of the keys is assumed. */
  method FindInterval(keys: seq<real>, k: real) returns (r: Option<nat>)
    ensures r.Some? ==> IsInterval(keys, k, r.value)
    ensures r.Some? ==> 1 <= r.value < |keys| && keys[r.value - 1] < k <= keys[r.value]
    ensures r.None? <==> NoInterval(keys, k)
  {
    var i := 0;
    while i < |keys|
      invariant 0 <= i <= |keys|
      invariant forall j :: 0 <= j < i ==> !(keys[j] >= k && keys[0] < k)
    {
      if keys[i] >= k && keys[0] < k {
        return Some(i);
      }
      i := i + 1;
    }
    return None;
  }

  /** At most one index brackets a given key. */
  lemma IntervalUnique(keys: seq<real>, k: real, i: int, j: int)
    requires IsInterval(keys, k, i) && IsInterval(keys, k, j)
    ensures i == j
  {
  }

  /** Interpolates the keyframe values at `key`; `None` (JavaScript `NaN`)
      when no interval brackets the key, which marks the end of the
      animation. */
  method Interpolate(keys: seq<real>, values: seq<real>, key: real) returns (r: Option<real>)
    requires |values| == |keys|
    ensures r.None? <==> NoInterval(keys, key)
    ensures forall i :: IsInterval(keys, key, i) ==>
      r == Some(Lerp(keys[i - 1], values[i - 1], keys[i], values[i], key))
    ensures r.Some? ==> exists i :: IsInterval(keys, key, i) && Between(values[i - 1], values[i], r.value)
  {
    var found := FindInterval(keys, key);
    match found
    case None =>
      r := None;
    case Some(i) =>
      r := Some(Lerp(keys[i - 1], values[i - 1], keys[i], values[i], key));
      forall j | IsInterval(keys, key, j)
        ensures r == Some(Lerp(keys[j - 1], values[j - 1], keys[j], values[j], key))
      {
        IntervalUnique(keys, key, i, j);
      }
  }

  // ---------------------------------------------------------------------
  // The per-frame morph step
  // ---------------------------------------------------------------------

  /** The animation's two keyframe times, in seconds. */
  const Keys: seq<real> := [0.0, 2.0]

  /** The times at which the keyframes bracket the clock. */
  predicate InAnimation(t: real)
  {
    0.0 < t <= 2.0
  }

  /** The keys [0, 2] bracket t exactly when 0 < t <= 2, and then at index 1. */
  lemma KeysBracket(t: real)
    ensures InAnimation(t) <==> IsInterval(Keys, t, 1)
    ensures NoInterval(Keys, t) <==> !InAnimation(t)
  {
    if !InAnimation(t) && t > 0.0 {
      assert forall j :: 0 <= j < |Keys| ==> Keys[j] < t;
    }
  }

  /** The transition position of one vertex at time t: each coordinate is
      interpolated between the start and the end vertex over the keys.
      The displacement from the start is the fraction t / 2 of the whole
      move. */
  function MorphVertex(a: Vec3, b: Vec3, t: real): (r: Vec3)
    ensures r.Sub(a) == b.Sub(a).Scale(t / 2.0)
  {
    Vec3(Lerp(Keys[0], a.x, Keys[1], b.x, t),
         Lerp(Keys[0], a.y, Keys[1], b.y, t),
         Lerp(Keys[0], a.z, Keys[1], b.z, t))
  }

  /** The morph starts at the start vertex, ends at the end vertex and moves
      every coordinate monotonically in between. */
  lemma MorphEndpoints(a: Vec3, b: Vec3, t: real)
    ensures MorphVertex(a, b, 0.0) == a
    ensures MorphVertex(a, b, 2.0) == b
    ensures 0.0 <= t <= 2.0 ==>
      var m := MorphVertex(a, b, t);
      Between(a.x, b.x, m.x) && Between(a.y, b.y, m.y) && Between(a.z, b.z, m.z)
  {
  }

  /** What a frame step leads to: another frame is requested, the dialog
      opens after the forward morph, or the reverse morph has finished and
      the region is back on the globe. */
  datatype FrameOutcome = NextFrame | OpenDialog | Finish

  /** The animation's global state: the elapsed time `t` and the flag telling
      whether the current morph is the reverse one started by closing the
      dialog. */
  class MorphAnimation {
    var t: real
    var dialogClose: bool

    constructor ()
      ensures t == 0.0 && !dialogClose
    {
      t := 0.0;
      dialogClose := false;
    }

    /** One animation frame: advance the clock by dt, then either move all
        nine transition vertices to their interpolated positions, or, when
        the clock has left the keyframe range, leave them alone and take the
        exit chosen by `dialogClose`. */
    method MapshapeTransform(mapShape: array<Vec3>, transMapShape: array<Vec3>,
                             flatMapShape: array<Vec3>, dt: real)
      returns (outcome: FrameOutcome)
      requires mapShape.Length >= VertexCount && flatMapShape.Length >= VertexCount
      requires transMapShape.Length >= VertexCount
      requires transMapShape != mapShape && transMapShape != flatMapShape
      modifies this`t, transMapShape
      ensures t == old(t) + dt
      ensures InAnimation(t) ==> outcome == NextFrame
      ensures InAnimation(t) ==> forall i :: 0 <= i < VertexCount ==>
        transMapShape[i] == MorphVertex(mapShape[i], flatMapShape[i], t)
      ensures t == 2.0 ==> transMapShape[..VertexCount] == flatMapShape[..VertexCount]
      ensures !InAnimation(t) ==> outcome == (if dialogClose then Finish else OpenDialog)
      ensures !InAnimation(t) ==> transMapShape[..] == old(transMapShape[..])
      ensures forall i :: VertexCount <= i < transMapShape.Length ==> transMapShape[i] == old(transMapShape[i])
    {
      t := t + dt;
      KeysBracket(t);
      var i := 0;
      while i < VertexCount
        invariant 0 <= i <= VertexCount
        invariant t == old(t) + dt
        invariant i > 0 ==> InAnimation(t)
        invariant forall j :: 0 <= j < i ==> transMapShape[j] == MorphVertex(mapShape[j], flatMapShape[j], t)
        invariant forall j :: i <= j < transMapShape.Length ==> transMapShape[j] == old(transMapShape[j])
      {
        var xs := [mapShape[i].x, flatMapShape[i].x];
        var ys := [mapShape[i].y, flatMapShape[i].y];
        var zs := [mapShape[i].z, flatMapShape[i].z];
        var newX := Interpolate(Keys, xs, t);
        var newY := Interpolate(Keys, ys, t);
        var newZ := Interpolate(Keys, zs, t);
        if newZ.None? {
          assert transMapShape[..] == old(transMapShape[..]);
          if !dialogClose {
            return OpenDialog;
          } else {
            return Finish;
          }
        } else {
          transMapShape[i] := Vec3(newX.value, newY.value, newZ.value);
        }
        i := i + 1;
      }
      outcome := NextFrame;
      if t == 2.0 {
        forall j | 0 <= j < VertexCount
          ensures transMapShape[j] == flatMapShape[j]
        {
          MorphEndpoints(mapShape[j], flatMapShape[j], t);
        }
      }
    }

    /** The dialog's close handler: mark the morph as the reverse one, reset
        the clock and run the first frame with the start and end shapes
        swapped. */
    method CloseDialog(mapShape: array<Vec3>, transMapShape: array<Vec3>,
                       flatMapShape: array<Vec3>, dt: real)
      returns (outcome: FrameOutcome)
      requires mapShape.Length >= VertexCount && flatMapShape.Length >= VertexCount
      requires transMapShape.Length >= VertexCount
      requires transMapShape != mapShape && transMapShape != flatMapShape
      modifies this, transMapShape
      ensures dialogClose && t == dt
      ensures InAnimation(dt) ==> outcome == NextFrame && forall i :: 0 <= i < VertexCount ==>
        transMapShape[i] == MorphVertex(flatMapShape[i], mapShape[i], dt)
      ensures !InAnimation(dt) ==> outcome == Finish && transMapShape[..] == old(transMapShape[..])
      ensures forall i :: VertexCount <= i < transMapShape.Length ==> transMapShape[i] == old(transMapShape[i])
    {
      dialogClose := true;
      t := 0.0;
      outcome := MapshapeTransform(flatMapShape, transMapShape, mapShape, dt);
    }
  }

  // ---------------------------------------------------------------------
  // The flat target rectangle
  // ---------------------------------------------------------------------

  /** Distance of the flat rectangle's centre from the globe's centre: the
      globe radius 20 plus an offset of 1. */
  const FlatDistance: real := 20.0 + 1.0

  /** The fraction of the camera's view extent the rectangle covers. */
  const ViewFraction: real := 0.8

  /** The centre of the flat rectangle and its four half-extent vectors. */
  datatype FlatFrame = FlatFrame(center: Vec3, top: Vec3, bottom: Vec3, left: Vec3, right: Vec3)

  /** The rectangle's frame from the camera's direction, its up vector, the
      cross product of the two, the view extents and the zoom. */
  function FrameOf(cameraDirection: Vec3, up: Vec3, side: Vec3,
                   camTop: real, camBottom: real, camLeft: real, camRight: real, zoom: real): (f: FlatFrame)
    requires zoom != 0.0
    ensures f.center.Add(cameraDirection.Scale(FlatDistance)) == Zero
    ensures f.top.Sub(f.bottom) == up.Scale(((camTop - camBottom) * ViewFraction) / zoom)
    ensures f.right.Sub(f.left) == side.Scale(((camRight - camLeft) * ViewFraction) / zoom)
  {
    ExtentDifference(up, camTop, camBottom, zoom);
    ExtentDifference(side, camRight, camLeft, zoom);
    FlatFrame(cameraDirection.Scale(-FlatDistance),
              up.Scale((camTop * ViewFraction) / zoom),
              up.Scale((camBottom * ViewFraction) / zoom),
              side.Scale((camLeft * ViewFraction) / zoom),
              side.Scale((camRight * ViewFraction) / zoom))
  }

  /** The difference of two view-extent offsets along one axis is the offset
      of the extents' difference. */
  lemma ExtentDifference(axis: Vec3, a: real, b: real, zoom: real)
    requires zoom != 0.0
    ensures axis.Scale((a * ViewFraction) / zoom).Sub(axis.Scale((b * ViewFraction) / zoom))
         == axis.Scale(((a - b) * ViewFraction) / zoom)
  {
    var ka, kb, k := (a * ViewFraction) / zoom, (b * ViewFraction) / zoom, ((a - b) * ViewFraction) / zoom;
    assert ka - kb == k;
    assert ka * axis.x - kb * axis.x == k * axis.x;
    assert ka * axis.y - kb * axis.y == k * axis.y;
    assert ka * axis.z - kb * axis.z == k * axis.z;
  }

  /** For a unit camera direction (as the camera reports it), the
      rectangle's centre is 21 units from the globe's centre: 1 unit outside
      the globe of radius 20. */
  lemma FrameCentreDistance(cameraDirection: Vec3, up: Vec3, side: Vec3,
                            camTop: real, camBottom: real, camLeft: real, camRight: real, zoom: real)
    requires zoom != 0.0
    requires cameraDirection.NormSquared() == 1.0
    ensures FrameOf(cameraDirection, up, side, camTop, camBottom, camLeft, camRight, zoom).center.NormSquared()
         == FlatDistance * FlatDistance
  {
    ScaledNormSquared(cameraDirection, -FlatDistance);
  }

  /** Scaling a vector by k scales its squared length by k * k. */
  lemma ScaledNormSquared(v: Vec3, k: real)
    ensures v.Scale(k).NormSquared() == (k * k) * v.NormSquared()
  {
    assert (k * v.x) * (k * v.x) == (k * k) * (v.x * v.x);
    assert (k * v.y) * (k * v.y) == (k * k) * (v.y * v.y);
    assert (k * v.z) * (k * v.z) == (k * k) * (v.z * v.z);
  }

  /** Offset of grid row r (0 top, 1 middle, 2 bottom) from the centre. */
  function RowOffset(f: FlatFrame, r: nat): Vec3
  {
    if r == 0 then f.top else if r == 1 then Zero else f.bottom
  }

  /** Offset of grid column c (0 left, 1 middle, 2 right) from the centre. */
  function ColOffset(f: FlatFrame, c: nat): Vec3
  {
    if c == 0 then f.left else if c == 1 then Zero else f.right
  }

  /** The flat vertex in row r, column c. */
  function FlatVertex(f: FlatFrame, r: nat, c: nat): Vec3
  {
    f.center.Add(RowOffset(f, r)).Add(ColOffset(f, c))
  }

  /** The flat grid is a lattice: the step between two columns is the same
      in every row, the step between two rows the same in every column, and
      the middle vertex is the centre. */
  lemma FlatGridIsLattice(f: FlatFrame, r: nat, r': nat, c: nat, c': nat)
    ensures FlatVertex(f, r, c).Sub(FlatVertex(f, r, c')) == ColOffset(f, c).Sub(ColOffset(f, c'))
    ensures FlatVertex(f, r, c).Sub(FlatVertex(f, r', c)) == RowOffset(f, r).Sub(RowOffset(f, r'))
    ensures FlatVertex(f, 1, 1) == f.center
  {
  }

  /** Overwrites the nine vertices of the shape with the flat 3x3 grid in
      front of the camera: vertex 3r+c is the centre plus the offset of row r
      plus the offset of column c. */
  method CalcFlatMapShape(vertices: array<Vec3>, cameraDirection: Vec3, up: Vec3, side: Vec3,
                          camTop: real, camBottom: real, camLeft: real, camRight: real, zoom: real)
    requires vertices.Length >= VertexCount
    requires zoom != 0.0
    modifies vertices
    ensures forall i :: 0 <= i < VertexCount ==>
      vertices[i] == FlatVertex(FrameOf(cameraDirection, up, side, camTop, camBottom, camLeft, camRight, zoom), GridRow(i), GridCol(i))
    ensures vertices[4] == cameraDirection.Scale(-FlatDistance)
    ensures forall i :: VertexCount <= i < vertices.Length ==> vertices[i] == old(vertices[i])
  {
    var top := up.Scale((camTop * ViewFraction) / zoom);
    var bottom := up.Scale((camBottom * ViewFraction) / zoom);
    var left := side.Scale((camLeft * ViewFraction) / zoom);
    var right := side.Scale((camRight * ViewFraction) / zoom);
    var meshCenter := cameraDirection.Scale(-FlatDistance);
    vertices[0] := meshCenter.Add(top).Add(left);
    vertices[1] := meshCenter.Add(top);
    vertices[2] := meshCenter.Add(top).Add(right);
    vertices[3] := meshCenter.Add(left);
    vertices[4] := meshCenter;
    vertices[5] := meshCenter.Add(right);
    vertices[6] := meshCenter.Add(bottom).Add(left);
    vertices[7] := meshCenter.Add(bottom);
    vertices[8] := meshCenter.Add(bottom).Add(right);
  }
}
