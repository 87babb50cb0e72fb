/** The older camera of src/render_gl/camera.rs: no distance bookkeeping, a
    zoom that translates by the raw amount, and a square projection. */
module LegacyCameras {
  import opened Maths

  class Camera {
    var fov: real
    var nearClip: real
    var farClip: real
    var localMatrix: Matrix
    var targetMatrix: Matrix

    /** Camera::new: identity matrices, then zoom(−3). */
    constructor (fov: real, nearClip: real, farClip: real)
      ensures this.fov == fov && this.nearClip == nearClip && this.farClip == farClip
      ensures targetMatrix == Identity
      ensures localMatrix == Mul(Identity, Translation(Vec3(0.0, 0.0, -3.0)))
    {
      this.fov := fov;
      this.nearClip := nearClip;
      this.farClip := farClip;
      localMatrix := Identity;
      targetMatrix := Identity;
      new;
      Zoom(-3.0);
    }

    /** view_matrix: local · target. */
    function ViewMatrix(): (r: Matrix)
      reads this
      ensures Factors(r) == Factors(localMatrix) + Factors(targetMatrix)
    {
      Mul(localMatrix, targetMatrix)
    }

    /** projection_matrix: aspect ratio 1 whatever the window. */
    function ProjectionMatrix(): (r: Matrix)
      reads this
      ensures r.Perspective? && r.aspect == 1.0
      ensures r.fovy == fov && r.near == nearClip && r.far == farClip
    {
      Perspective(fov, 1.0, nearClip, farClip)
    }

    /** zoom: right-multiply the local matrix by a z translation of `amount`. */
    method Zoom(amount: real)
      modifies this`localMatrix
      ensures Factors(localMatrix) == Factors(old(localMatrix)) + [Translation(Vec3(0.0, 0.0, amount))]
      ensures localMatrix == Mul(old(localMatrix), Translation(Vec3(0.0, 0.0, amount)))
    {
      localMatrix := Mul(localMatrix, Translation(Vec3(0.0, 0.0, amount)));
    }

    /** rotate: about +Y on the right, about any other axis on the left. */
    method Rotate(axis: Vec3, angle: real)
      modifies this`targetMatrix
      ensures axis == UNIT_Y ==> Factors(targetMatrix) == Factors(old(targetMatrix)) + [AxisAngle(axis, angle)]
      ensures axis != UNIT_Y ==> Factors(targetMatrix) == [AxisAngle(axis, angle)] + Factors(old(targetMatrix))
    {
      var rotation := AxisAngle(axis, angle);
      if axis == UNIT_Y {
        targetMatrix := Mul(targetMatrix, rotation);
      } else {
        targetMatrix := Mul(rotation, targetMatrix);
      }
    }
  }
}
