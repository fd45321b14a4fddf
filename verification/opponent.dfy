/** OpponentEntity: the opposing knight's body, with "opponent" hit spheres. */
module Opponent {
  import opened Wrappers
  import opened Geometry
  import opened SceneGraph
  import opened Placement
  import Hitboxes

  class OpponentEntity {
    const team: string
    const flipped: bool
    var position: Vec3
    var model: Option<Object3D>
    var modelPosition: Vec3
    var facingRight: bool
    var horsePosition: Vec3

    constructor (position: Vec3, team: string, flipped: bool)
      ensures this.position == position && this.team == team && this.flipped == flipped
      ensures model.None? && horsePosition == HorsePlacement(position)
    {
      this.position := position;
      this.team := team;
      this.flipped := flipped;
      model := None;
      modelPosition := Origin;
      facingRight := flipped;
      horsePosition := HorsePlacement(position);
    }

    /** The loader's callback: orient and place the model, then tag its bones. */
    method OnModelLoaded(loaded: Object3D)
      modifies this`model, this`facingRight, this`modelPosition
      ensures model == Some(Hitboxes.AddHitboxes(loaded, Hitboxes.OpponentStyle))
      ensures facingRight == flipped && modelPosition == ModelPlacement(position)
    {
      model := Some(loaded);
      facingRight := flipped;
      UpdatePosition();
      AddHitboxes();
    }

    /** `addHitboxes`: one "opponent" sphere under every bone. */
    method AddHitboxes()
      requires model.Some?
      modifies this`model
      ensures model == Some(Hitboxes.AddHitboxes(old(model.value), Hitboxes.OpponentStyle))
    {
      model := Some(Hitboxes.AddHitboxes(model.value, Hitboxes.OpponentStyle));
    }

    method UpdatePosition()
      modifies this`modelPosition
      ensures model.Some? ==> modelPosition == ModelPlacement(position)
      ensures model.None? ==> modelPosition == old(modelPosition)
    {
      if model.Some? {
        modelPosition := ModelPlacement(position);
      }
    }

    /** `update`: copy the new position; the model follows 1.5 below it and
        the horse 2.5 below it. */
    method Update(deltaTime: real, newPosition: Option<Vec3>)
      modifies this`position, this`modelPosition, this`horsePosition
      ensures position == (if newPosition.Some? then newPosition.value else old(position))
      ensures modelPosition == (if newPosition.Some? && model.Some? then ModelPlacement(position)
                                else old(modelPosition))
      ensures horsePosition == HorsePlacement(position)
    {
      if newPosition.Some? {
        position := newPosition.value;
        UpdatePosition();
      }
      horsePosition := HorsePlacement(position);
    }
  }
}
