/**
  `Camera::getViewMatrix` of src/camera.cpp: the inverse of the world matrix
  of the camera entity's `Transform`, or the identity when that matrix has
  no inverse.
 */
module Cameras {
  import opened Vectors
  import opened Matrices
  import opened Transforms
  import opened Ecs

  /** The view matrix of a camera whose transform has world matrix `world`. */
  function ViewMatrix(world: Mat): Mat
  {
    if Det(world) != 0.0 then InverseEntries(world) else IdentityMat
  }

  /** The view of a translation by `p` is the translation by `-p`, and the
      two multiply to the identity. */
  lemma ViewOfTranslation(p: Vector3)
    ensures ViewMatrix(Translation(p)) == Translation(Scale(p, -1.0))
    ensures Product(Translation(p), ViewMatrix(Translation(p))) == IdentityMat
  {
    InverseOfTranslation(p);
  }

  /** A camera that is only moved to `p` sees the world moved by `-p`: the
      view undoes the camera's world matrix. */
  lemma ViewOfMovedCamera(p: Vector3)
    ensures ViewMatrix(ComposeMat(p, IdentityQuat, One)) == Translation(Scale(p, -1.0))
    ensures Product(ComposeMat(p, IdentityQuat, One), ViewMatrix(ComposeMat(p, IdentityQuat, One))) == IdentityMat
  {
    ComposeIdentityIsTranslation(p);
    ViewOfTranslation(p);
  }

  /** A camera scaled to zero along an axis has a singular world matrix, and
      `getViewMatrix` falls back to the identity. */
  lemma ViewOfFlattenedCamera(p: Vector3, q: Quaternion, s: Vector3)
    requires s.x == 0.0 || s.y == 0.0 || s.z == 0.0
    ensures Det(ComposeMat(p, q, s)) == 0.0
    ensures ViewMatrix(ComposeMat(p, q, s)) == IdentityMat
  {
    var m := ComposeMat(p, q, s);
    var t := Adjugate(m);
    if s.x == 0.0 {
      assert m[0] == 0.0 && m[1] == 0.0 && m[2] == 0.0 && m[3] == 0.0;
    } else if s.y == 0.0 {
      assert m[4] == 0.0 && m[5] == 0.0 && m[6] == 0.0 && m[7] == 0.0;
      assert t[0] == 0.0 && t[4] == 0.0 && t[8] == 0.0 && t[12] == 0.0;
    } else {
      assert m[8] == 0.0 && m[9] == 0.0 && m[10] == 0.0 && m[11] == 0.0;
      assert t[0] == 0.0 && t[4] == 0.0 && t[8] == 0.0 && t[12] == 0.0;
    }
  }

  /** `getViewMatrix()`: the world matrix of the entity's transform (brought
      up to date if stale), inverted into a fresh matrix, or the identity. */
  method GetViewMatrix(camera: Component, transformTypeId: int) returns (view: Matrix44)
    requires camera.entity != null && transformTypeId in camera.entity.components
    requires camera.entity.components[transformTypeId].transform != null
    requires camera.entity.components[transformTypeId].transform.Valid()
    modifies camera.entity.components[transformTypeId].transform
    modifies camera.entity.components[transformTypeId].transform.world.data
    ensures view.Valid() && fresh(view.data)
    ensures var tr := camera.entity.components[transformTypeId].transform;
      view.Value() == ViewMatrix(if old(tr.dirty) then old(tr.Composed()) else old(tr.world.Value()))
  {
    var tr := camera.entity.GetComponentByTypeId(transformTypeId).transform;
    ghost var world := if tr.dirty then tr.Composed() else tr.world.Value();
    var m := tr.WorldMatrix();
    assert m.Value() == world;
    view := new Matrix44();
    var ok := m.GetInverse(view);
    if !ok {
      view.SetIdentity();
    }
  }
}
