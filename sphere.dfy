/** `Sphere`: a radius and a centre, both defaulting to zero. */
module Shape {
  import opened Vectors

  datatype Sphere = Sphere(radius: real, center: Vec3)

  /** `Sphere()`: the member initialisers, radius 0 at the origin. */
  function DefaultSphere(): (s: Sphere)
    ensures s.radius == 0.0 && s.center == Origin
  {
    Sphere(0.0, Origin)
  }

  /** `explicit Sphere(radii)`: the given radius, the centre keeps its initialiser. */
  function SphereOfRadius(radii: real): (s: Sphere)
    ensures s.radius == radii && s.center == Origin
  {
    Sphere(radii, Origin)
  }

  /** `Sphere(radii, center)` and the converting constructors from another scalar type,
      which copy both members (a single scalar type here). */
  function SphereAt(radii: real, center: Vec3): (s: Sphere)
    ensures s.radius == radii && s.center == center
  {
    Sphere(radii, center)
  }

  /** The constructors agree: the default is the zero-radius sphere, and the radius-only
      constructor centres the sphere at the origin. */
  lemma {:induction false} ConstructorsAgree(radii: real, center: Vec3)
    ensures DefaultSphere() == SphereOfRadius(0.0)
    ensures SphereOfRadius(radii) == SphereAt(radii, Origin)
    ensures SphereAt(radii, center) == SphereOfRadius(radii) <==> center == Origin
  {
  }
}
