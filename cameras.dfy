/** The orbit camera of src/components/camera.rs. The view is
    local_matrix · target_matrix: zooming moves the eye along its own z axis
    (local), panning and rotating move the orbit target (target); `distance`
    scales pan and zoom steps to how far the eye is. */
module Cameras {
  import opened Maths
  import opened Wrappers

  const MIN_DISTANCE: real := 0.01

  function Abs(x: real): real {
    if x < 0.0 then -x else x
  }

  function Max(a: real, b: real): real {
    if a < b then b else a
  }

  /** The step zoom(amount) takes at distance d. */
  function ZoomStep(d: real, amount: real): real {
    amount * d * 0.1
  }

  /** The distance after zoom(amount): |d − step|, never below 0.01. */
  function ZoomedDistance(d: real, amount: real): (r: real)
    ensures r >= MIN_DISTANCE
    ensures r >= Abs(d - ZoomStep(d, amount))
    ensures r == Abs(d - ZoomStep(d, amount)) || r == MIN_DISTANCE
  {
    Max(Abs(d - ZoomStep(d, amount)), MIN_DISTANCE)
  }

  /** local_matrix after zoom: right-multiplied by a translation along z. */
  function Zoomed(local: Matrix, d: real, amount: real): (r: Matrix)
    ensures Factors(r) == Factors(local) + [Translation(Vec3(0.0, 0.0, ZoomStep(d, amount)))]
  {
    Mul(local, Translation(Vec3(0.0, 0.0, ZoomStep(d, amount))))
  }

  /** target_matrix after pan(x, y): left-multiplied by a translation of
      (x, −y, 0) scaled by a tenth of the distance. */
  function Panned(target: Matrix, d: real, x: real, y: real): (r: Matrix)
    ensures Factors(r) == [Translation(Scale(Vec3(x, -y, 0.0), d * 0.1))] + Factors(target)
  {
    Mul(Translation(Scale(Vec3(x, -y, 0.0), d * 0.1)), target)
  }

  /** target_matrix after rotate(axis, angle): a turn about +Y (yaw) is
      applied on the right, any other axis on the left. */
  function Rotated(target: Matrix, axis: Vec3, angle: real): (r: Matrix)
    ensures axis == UNIT_Y ==> Factors(r) == Factors(target) + [AxisAngle(axis, angle)]
    ensures axis != UNIT_Y ==> Factors(r) == [AxisAngle(axis, angle)] + Factors(target)
  {
    var rotation := AxisAngle(axis, angle);
    if axis == UNIT_Y then Mul(target, rotation) else Mul(rotation, target)
  }

  /** The matrix with its w column replaced by `w`: the first three columns
      are kept, an earlier replacement of w is forgotten. */
  function SetW(m: Matrix, w: Vec4): (r: Matrix)
    ensures WColumn(r) == Some(w)
    ensures Columns3(r) == Columns3(m)
  {
    match m
    case WithW(base, _) => WithW(base, w)
    case _ => WithW(m, w)
  }

  /** The known w column of a matrix, if the term fixes it. */
  function WColumn(m: Matrix): Option<Vec4> {
    match m
    case WithW(_, w) => Some(w)
    case Identity => Some(Vec4(0.0, 0.0, 0.0, 1.0))
    case Translation(v) => Some(Vec4(v.x, v.y, v.z, 1.0))
    case _ => None
  }

  /** The term that determines the first three columns. */
  function Columns3(m: Matrix): Matrix {
    match m
    case WithW(base, _) => Columns3(base)
    case _ => m
  }

  const ORIGIN_W: Vec4 := Vec4(0.0, 0.0, 0.0, 1.0)

  /** Focusing twice is focusing once. */
  lemma FocusIdempotent(m: Matrix)
    ensures SetW(SetW(m, ORIGIN_W), ORIGIN_W) == SetW(m, ORIGIN_W)
  {
  }

  class Camera {
    var fov: real
    var nearClip: real
    var farClip: real
    var localMatrix: Matrix
    var targetMatrix: Matrix
    var aspect: real
    var distance: real

    ghost predicate Valid()
      reads this
    {
      distance >= MIN_DISTANCE
    }

    /** Camera::new: identity matrices at distance 1, then zoom(−3): the eye
        moves back by 0.3 and the distance becomes 1.3. */
    constructor (fov: real, nearClip: real, farClip: real, aspect: real)
      ensures Valid()
      ensures this.fov == fov && this.nearClip == nearClip && this.farClip == farClip && this.aspect == aspect
      ensures targetMatrix == Identity
      ensures localMatrix == Mul(Identity, Translation(Vec3(0.0, 0.0, -0.3)))
      ensures distance == 1.3
    {
      this.fov := fov;
      this.nearClip := nearClip;
      this.farClip := farClip;
      this.aspect := aspect;
      localMatrix := Identity;
      targetMatrix := Identity;
      distance := 1.0;
      new;
      Zoom(-3.0);
    }

    /** view_matrix: local · target. */
    function ViewMatrix(): (r: Matrix)
      reads this
      ensures Factors(r) == Factors(localMatrix) + Factors(targetMatrix)
    {
      Mul(localMatrix, targetMatrix)
    }

    /** projection_matrix: the perspective of the camera's fov, aspect and clip planes. */
    function ProjectionMatrix(): (r: Matrix)
      reads this
      ensures r == Perspective(fov, aspect, nearClip, farClip)
    {
      Perspective(fov, aspect, nearClip, farClip)
    }

    method Pan(x: real, y: real)
      modifies this`targetMatrix
      ensures targetMatrix == Panned(old(targetMatrix), distance, x, y)
    {
      var vector := Vec3(x, -y, 0.0);
      vector := Scale(vector, distance * 0.1);
      var transformation := Translation(vector);
      targetMatrix := Mul(transformation, targetMatrix);
    }

    method Zoom(amount: real)
      modifies this`localMatrix, this`distance
      ensures localMatrix == Zoomed(old(localMatrix), old(distance), amount)
      ensures distance == ZoomedDistance(old(distance), amount)
      ensures Valid()
    {
      var compensated := amount * distance * 0.1;
      var translation := Vec3(0.0, 0.0, compensated);
      localMatrix := Mul(localMatrix, Translation(translation));
      distance := Max(Abs(distance - compensated), 0.01);
    }

    method Rotate(axis: Vec3, angle: real)
      modifies this`targetMatrix
      ensures targetMatrix == Rotated(old(targetMatrix), axis, angle)
    {
      var rotation := AxisAngle(axis, angle);
      if axis == UNIT_Y {
        targetMatrix := Mul(targetMatrix, rotation);
      } else {
        targetMatrix := Mul(rotation, targetMatrix);
      }
    }

    /** focus: the target's w column becomes (0, 0, 0, 1), nothing else changes. */
    method Focus()
      modifies this`targetMatrix
      ensures targetMatrix == SetW(old(targetMatrix), ORIGIN_W)
    {
      targetMatrix := SetW(targetMatrix, ORIGIN_W);
    }

    method SetAspectRatio(aspect: real)
      modifies this`aspect
      ensures this.aspect == aspect
    {
      this.aspect := aspect;
    }
  }

  /** A yaw turns the whole view on its right; any other turn acts between
      the eye offset and the orbit target. */
  lemma ViewAfterRotate(local: Matrix, target: Matrix, axis: Vec3, angle: real)
    ensures axis == UNIT_Y ==>
      Factors(Mul(local, Rotated(target, axis, angle))) == Factors(Mul(local, target)) + [AxisAngle(axis, angle)]
    ensures axis != UNIT_Y ==>
      Factors(Mul(local, Rotated(target, axis, angle))) == Factors(local) + [AxisAngle(axis, angle)] + Factors(target)
  {
    var l, t, r := Factors(local), Factors(target), [AxisAngle(axis, angle)];
    if axis == UNIT_Y {
      assert l + (t + r) == (l + t) + r;
    } else {
      assert l + (r + t) == (l + r) + t;
    }
  }
}
