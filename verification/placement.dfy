/** Where a knight's model and horse sit relative to the knight's position,
    and where its lance hand aims. */
module Placement {
  import opened Geometry

  const ModelDrop: real := 1.5
  const HorseDrop: real := 2.5
  const HandOffset := Vec3(0.25, 0.05, 0.05)

  /** `model.position.set(x, y - 1.5, z)`. */
  function ModelPlacement(p: Vec3): (r: Vec3)
    ensures r.x == p.x && r.z == p.z && r.y == p.y - ModelDrop
  {
    Raised(p, -ModelDrop)
  }

  /** The horse's position `{x, y - 2.5, z}`. */
  function HorsePlacement(p: Vec3): (r: Vec3)
    ensures r.x == p.x && r.z == p.z && r.y == p.y - HorseDrop
  {
    Raised(p, -HorseDrop)
  }

  /** The hand target: the hand's world position plus the fixed offset. */
  function HandTarget(handWorld: Vec3): (r: Vec3)
    ensures r.x == handWorld.x + 0.25 && r.y == handWorld.y + 0.05 && r.z == handWorld.z + 0.05
  {
    Add(handWorld, HandOffset)
  }

  /** The horse always sits one unit below the knight's model, directly under it. */
  lemma HorseUnderModel(p: Vec3)
    ensures HorsePlacement(p) == Raised(ModelPlacement(p), -1.0)
  {
  }

  /** `lerp(target, 1)` lands exactly on the target, so the hand position
      passed to the lance is the hand target itself. */
  lemma FullLerpIsTarget(a: Vec3, b: Vec3)
    ensures Lerp(a, b, 1.0) == b
  {
  }
}
