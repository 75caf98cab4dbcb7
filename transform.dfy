/**
  The `Transform` component of src/transform.cpp: a position, a rotation and
  a scale, with the world matrix composed from them cached behind a dirty
  flag. `worldMatrix()` recomposes only when the flag is set and then clears
  it; `preUpdate()`, run on every component once a frame, sets it again. The
  setters of src/transform.h assign a field and leave the flag alone.
 */
module Transforms {
  import opened Vectors
  import opened Matrices

  class Transform {
    var position: Vector3
    var rotation: Quaternion
    var scale: Vector3
    /** `_worldMatrix`: the cached matrix, an object of its own. */
    const world: Matrix44
    /** `_worldMatrixDirty`. */
    var dirty: bool

    ghost predicate Valid()
    {
      world.Valid()
    }

    /** The cache starts out stale, so the first `WorldMatrix` composes. */
    constructor (position: Vector3, rotation: Quaternion, scale: Vector3)
      ensures Valid() && fresh(world.data)
      ensures this.position == position && this.rotation == rotation && this.scale == scale
      ensures dirty
    {
      this.position, this.rotation, this.scale := position, rotation, scale;
      world := new Matrix44();
      dirty := true;
    }

    /** The matrix the current fields describe. */
    ghost function Composed(): Mat
      reads this
    {
      ComposeMat(position, rotation, scale)
    }

    /** `worldMatrix()`: when the flag is set the cache is recomposed from
        the fields and the flag cleared; otherwise the cache is returned as
        it is, even if the fields changed since. */
    method WorldMatrix() returns (m: Matrix44)
      requires Valid()
      modifies this, world.data
      ensures Valid() && m == world && !dirty
      ensures old(dirty) ==> world.Value() == old(Composed())
      ensures !old(dirty) ==> world.Value() == old(world.Value())
      ensures position == old(position) && rotation == old(rotation) && scale == old(scale)
    {
      if dirty {
        world.Compose(position, rotation, scale);
        dirty := false;
      }
      m := world;
    }

    /** `preUpdate()`: marks the cache stale and nothing else. */
    method PreUpdate()
      modifies this
      ensures dirty
      ensures position == old(position) && rotation == old(rotation) && scale == old(scale)
    {
      dirty := true;
    }

    /** `position(v)`: the flag is not touched. */
    method SetPosition(v: Vector3)
      modifies this
      ensures position == v && rotation == old(rotation) && scale == old(scale) && dirty == old(dirty)
    {
      position := v;
    }

    /** `rotation(q)`: the flag is not touched. */
    method SetRotation(q: Quaternion)
      modifies this
      ensures rotation == q && position == old(position) && scale == old(scale) && dirty == old(dirty)
    {
      rotation := q;
    }

    /** `scale(v)`: the flag is not touched. */
    method SetScale(v: Vector3)
      modifies this
      ensures scale == v && position == old(position) && rotation == old(rotation) && dirty == old(dirty)
    {
      scale := v;
    }
  }

  /** After `PreUpdate`, `WorldMatrix` returns the matrix of the current
      fields; a second call without `PreUpdate` returns the same matrix. */
  method RefreshThenRead(t: Transform) returns (first: Mat, second: Mat)
    requires t.Valid()
    modifies t, t.world.data
    ensures first == old(t.Composed()) && second == first
  {
    t.PreUpdate();
    var m := t.WorldMatrix();
    first := m.data[..];
    m := t.WorldMatrix();
    second := m.data[..];
  }
}
