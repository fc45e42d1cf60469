/** Plane vectors and rotations, standing in for glm::vec2 and glm::rotate about the z axis.
    An angle theta is never turned into a number by trigonometry here: a rotation is the pair
    (cos theta, sin theta), which is all that a rotation matrix needs. */
module Geometry {

  datatype Vec = Vec(x: real, y: real)

  function Add(a: Vec, b: Vec): Vec { Vec(a.x + b.x, a.y + b.y) }

  function Sub(a: Vec, b: Vec): Vec { Vec(a.x - b.x, a.y - b.y) }

  function Scale(a: Vec, k: real): Vec { Vec(a.x * k, a.y * k) }

  /** The squared length, x² + y². */
  function NormSq(a: Vec): real { a.x * a.x + a.y * a.y }

  /** (cos theta, sin theta) of a rotation by theta. */
  datatype Rotation = Rotation(c: real, s: real)

  type Rot = r: Rotation | r.c * r.c + r.s * r.s == 1.0 witness Rotation(1.0, 0.0)

  /** The rotation matrix of theta applied to v. */
  function Rotate(r: Rot, v: Vec): Vec {
    Vec(r.c * v.x - r.s * v.y, r.s * v.x + r.c * v.y)
  }

  /** The rotation matrix of -theta applied to v: cos(-theta) = cos theta and
      sin(-theta) = -sin theta, so this is the transpose of Rotate. */
  function RotateBack(r: Rot, v: Vec): Vec {
    Vec(r.c * v.x + r.s * v.y, -r.s * v.x + r.c * v.y)
  }

  /** Rotating does not change the length of a vector, in either direction. */
  lemma RotatePreservesNorm(r: Rot, v: Vec)
    ensures NormSq(Rotate(r, v)) == NormSq(v)
    ensures NormSq(RotateBack(r, v)) == NormSq(v)
  {
    var c, s, x, y := r.c, r.s, v.x, v.y;
    assert (c * x - s * y) * (c * x - s * y) + (s * x + c * y) * (s * x + c * y)
        == (c * c + s * s) * (x * x + y * y);
    assert (c * x + s * y) * (c * x + s * y) + (-s * x + c * y) * (-s * x + c * y)
        == (c * c + s * s) * (x * x + y * y);
  }

  /** Rotating by -theta undoes rotating by theta, and the other way round. */
  lemma RotateRoundTrip(r: Rot, v: Vec)
    ensures Rotate(r, RotateBack(r, v)) == v
    ensures RotateBack(r, Rotate(r, v)) == v
  {
    var c, s, x, y := r.c, r.s, v.x, v.y;
    assert c * (c * x + s * y) - s * (-s * x + c * y) == (c * c + s * s) * x;
    assert s * (c * x + s * y) + c * (-s * x + c * y) == (c * c + s * s) * y;
    assert c * (c * x - s * y) + s * (s * x + c * y) == (c * c + s * s) * x;
    assert -s * (c * x - s * y) + c * (s * x + c * y) == (c * c + s * s) * y;
  }
}
