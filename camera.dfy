/** The turntable camera: it looks at a target from a given distance, with a
    yaw around the world z-axis and a pitch above the horizon. */
module Cameras {
  import opened RealMath
  import opened Vectors

  /** Closest and farthest zoom distance. */
  const MinDistance: real := 1.5
  const MaxDistance: real := 50.0

  /** The pitch stays within ±80 degrees. */
  const MaxPitch: real := Radians(80.0)

  class Camera {
    var distance: real
    var yaw: real
    var pitch: real
    var target: Vec3

    /** The default camera: six units out, no yaw, pitched up 20 degrees,
        looking at the origin. */
    constructor Default()
      ensures distance == 6.0 && yaw == 0.0 && pitch == Radians(20.0) && target == Zero
    {
      distance := 6.0;
      yaw := 0.0;
      pitch := Radians(20.0);
      target := Zero;
    }

    /** A camera with the given fields, as the dataclass constructor builds it;
        no field is checked or clamped. */
    constructor (distance: real, yaw: real, pitch: real, target: Vec3)
      ensures this.distance == distance && this.yaw == yaw && this.pitch == pitch && this.target == target
    {
      this.distance := distance;
      this.yaw := yaw;
      this.pitch := pitch;
      this.target := target;
    }

    /** A new camera with the same fields. Its target is a value, so moving one
        camera's target never moves the other's. */
    method Copy() returns (c: Camera)
      ensures fresh(c)
      ensures c.distance == distance && c.yaw == yaw && c.pitch == pitch && c.target == target
    {
      c := new Camera(distance, yaw, pitch, target);
    }

    /** The viewing direction, a unit vector given by yaw and pitch. */
    function Forward(m: Elementary): (f: Vec3)
      requires Lawful(m)
      reads this
      ensures Dot(f, f) == 1.0
      ensures f.z == m.sin(pitch)
    {
      var cp := m.cos(pitch);
      var f := Vec3(m.cos(yaw) * cp, m.sin(yaw) * cp, m.sin(pitch));
      Pythagoras(m, yaw);
      Pythagoras(m, pitch);
      PolarSq(cp, m.cos(yaw), m.sin(yaw), f.x, f.y);
      DotSelf(f);
      f
    }

    /** `forward × (0, 0, 1)`: horizontal and orthogonal to the viewing
        direction. It is not normalised: its squared length is cos²(pitch). */
    function Right(m: Elementary): (r: Vec3)
      requires Lawful(m)
      reads this
      ensures r == Cross(Forward(m), UnitZ)
      ensures r.z == 0.0
      ensures Dot(r, Forward(m)) == 0.0
      ensures Dot(r, r) == Sq(m.cos(pitch))
    {
      var f := Forward(m);
      var r := Cross(f, UnitZ);
      assert r == Vec3(f.y, -f.x, 0.0);
      CrossOrthogonal(f, UnitZ);
      HorizontalPart(m, f, r);
      r
    }

    /** The squared length of `(f.y, -f.x, 0)` for the forward vector is
        cos²(pitch). */
    lemma HorizontalPart(m: Elementary, f: Vec3, r: Vec3)
      requires Lawful(m)
      requires f == Forward(m) && r == Vec3(f.y, -f.x, 0.0)
      ensures Dot(r, r) == Sq(m.cos(pitch))
    {
      Pythagoras(m, yaw);
      PolarSq(m.cos(pitch), m.cos(yaw), m.sin(yaw), f.x, f.y);
      SqNeg(f.x);
      DotSelf(r);
    }

    /** `right × forward`: orthogonal to both. */
    function Up(m: Elementary): (u: Vec3)
      requires Lawful(m)
      reads this
      ensures u == Cross(Right(m), Forward(m))
      ensures Dot(u, Right(m)) == 0.0 && Dot(u, Forward(m)) == 0.0
    {
      CrossOrthogonal(Right(m), Forward(m));
      Cross(Right(m), Forward(m))
    }

    /** The eye point `target - forward·distance`: it lies behind the target
        along the viewing direction, at exactly the camera's distance. */
    function Position(m: Elementary): (p: Vec3)
      requires Lawful(m)
      reads this
      ensures Sub(target, p) == Scale(Forward(m), distance)
      ensures Dot(Sub(target, p), Sub(target, p)) == Sq(distance)
    {
      var p := Sub(target, Scale(Forward(m), distance));
      assert Sub(target, p) == Scale(Forward(m), distance);
      ScaleDot(Forward(m), distance);
      p
    }

    /** Turn the camera: the yaw wraps into [0, 2π) and the pitch is clamped to
        ±80 degrees. */
    method Orbit(dYaw: real, dPitch: real)
      modifies this
      ensures yaw == WrapAngle(old(yaw) + dYaw) && 0.0 <= yaw < Tau
      ensures pitch == Clip(old(pitch) + dPitch, -MaxPitch, MaxPitch)
      ensures -MaxPitch <= pitch <= MaxPitch
      ensures distance == old(distance) && target == old(target)
    {
      yaw := WrapAngle(yaw + dYaw);
      pitch := Clip(pitch + dPitch, Radians(-80.0), Radians(80.0));
    }

    /** Scale the distance by `factor`, clamped to [1.5, 50]. */
    method Zoom(factor: real)
      modifies this
      ensures distance == Clip(old(distance) * factor, MinDistance, MaxDistance)
      ensures MinDistance <= distance <= MaxDistance
      ensures yaw == old(yaw) && pitch == old(pitch) && target == old(target)
    {
      distance := Clip(distance * factor, 1.5, 50.0);
    }

    /** Move the target sideways along `right` by `dx` and up the world z-axis
        (not the camera's `up`) by `dy`; only the `dy` part changes its height. */
    method Pan(m: Elementary, dx: real, dy: real)
      requires Lawful(m)
      modifies this
      ensures target == Add(Add(old(target), Scale(old(Right(m)), dx)), Scale(UnitZ, dy))
      ensures target.z == old(target.z) + dy
      ensures distance == old(distance) && yaw == old(yaw) && pitch == old(pitch)
    {
      var right := Right(m);
      target := Add(Add(target, Scale(right, dx)), Scale(UnitZ, dy));
    }

    /** The 4×4 view matrix: rows `right`, `up` and `-forward` with the
        translation `-R·eye` in the last column, and `(0, 0, 0, 1)` as the last
        row. It maps the eye position to the origin. */
    method ViewMatrix(m: Elementary) returns (mat: array2<real>)
      requires Lawful(m)
      ensures fresh(mat) && mat.Length0 == 4 && mat.Length1 == 4
      ensures Row(mat, 0) == Right(m) && Row(mat, 1) == Up(m) && Row(mat, 2) == Neg(Forward(m))
      ensures mat[3, 0] == 0.0 && mat[3, 1] == 0.0 && mat[3, 2] == 0.0 && mat[3, 3] == 1.0
      ensures forall i :: 0 <= i < 3 ==> Dot(Row(mat, i), Position(m)) + mat[i, 3] == 0.0
    {
      mat := LookAt(Right(m), Up(m), Neg(Forward(m)), Position(m));
    }
  }

  /** A rigid view transform with the given axis rows and eye point: the rows
      come first, then each row's translation `-row·eye` goes in the last
      column, on top of an identity matrix. */
  method LookAt(right: Vec3, up: Vec3, back: Vec3, eye: Vec3) returns (mat: array2<real>)
    ensures fresh(mat) && mat.Length0 == 4 && mat.Length1 == 4
    ensures Row(mat, 0) == right && Row(mat, 1) == up && Row(mat, 2) == back
    ensures mat[3, 0] == 0.0 && mat[3, 1] == 0.0 && mat[3, 2] == 0.0 && mat[3, 3] == 1.0
    ensures forall i :: 0 <= i < 3 ==> Dot(Row(mat, i), eye) + mat[i, 3] == 0.0
  {
    mat := new real[4, 4]((i: nat, j: nat) => if i == j then 1.0 else 0.0);
    SetRow(mat, 0, right, eye);
    SetRow(mat, 1, up, eye);
    SetRow(mat, 2, back, eye);
  }

  /** Write `v` into the first three entries of row `i` and `-v·eye` into its
      last entry, leaving the other rows alone. */
  method SetRow(mat: array2<real>, i: nat, v: Vec3, eye: Vec3)
    requires i < mat.Length0 && mat.Length1 == 4
    modifies mat
    ensures Row(mat, i) == v && Dot(Row(mat, i), eye) + mat[i, 3] == 0.0
    ensures forall r, c :: 0 <= r < mat.Length0 && 0 <= c < 4 && r != i ==> mat[r, c] == old(mat[r, c])
  {
    mat[i, 0] := v.x;
    mat[i, 1] := v.y;
    mat[i, 2] := v.z;
    mat[i, 3] := -Dot(v, eye);
  }

  /** The first three entries of row `i`. */
  function Row(mat: array2<real>, i: nat): Vec3
    requires i < mat.Length0 && 3 <= mat.Length1
    reads mat
  {
    Vec3(mat[i, 0], mat[i, 1], mat[i, 2])
  }
}
