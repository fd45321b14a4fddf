/** `ModelLoader`: a glTF model without animations. */
module Models {
  import opened Wrappers
  import opened SceneGraph
  import opened Loading

  class ModelLoader {
    const name: string
    const path: string
    var isLoaded: bool
    var callbacks: seq<CallbackId>
    var model: Option<Object3D>
    var loadedTexture: Option<Texture>

    function Queue(): Loading.Queue
      reads this
    {
      Loading.Queue(isLoaded, callbacks)
    }

    /** Unlike the animation loader, the path is used as given. */
    constructor (name: string, path: string)
      ensures this.name == name && this.path == path
      ensures Queue() == Initial && model.None? && loadedTexture.None?
    {
      this.name := name;
      this.path := path;
      isLoaded := false;
      callbacks := [];
      model := None;
      loadedTexture := None;
    }

    /** `load(onLoaded)`: the callbacks run now (they receive the current
        model); when not loaded a fetch starts as well. */
    method Load(onLoaded: Option<CallbackId>) returns (invoked: seq<CallbackId>)
      modifies this`callbacks
      ensures StepResult(Queue(), invoked) == Step(old(Queue()), Event.Load(onLoaded))
    {
      if isLoaded {
        invoked := if onLoaded.Some? then [onLoaded.value] else [];
        return;
      }
      invoked := [];
      if onLoaded.Some? {
        callbacks := callbacks + [onLoaded.value];
      }
    }

    /** The fetch's success handler: the scene, renamed, becomes the model
        and the queued callbacks run in order. */
    method OnFetched(scene: Object3D) returns (invoked: seq<CallbackId>)
      modifies this`isLoaded, this`callbacks, this`model
      ensures StepResult(Queue(), invoked) == Step(old(Queue()), Fetched)
      ensures model == Some(scene.(name := name))
    {
      model := Some(scene.(name := name));
      isLoaded := true;
      invoked := callbacks;
      callbacks := [];
    }

    /** `setMaterial`: the texture is always recorded; the model's meshes
        get it only when a model exists. */
    method SetMaterial(texturePath: string, textureName: string) returns (texture: Texture)
      modifies this`loadedTexture, this`model
      ensures texture == Texture(textureName, texturePath) && loadedTexture == Some(texture)
      ensures old(model).None? ==> model.None?
      ensures old(model).Some? ==> model == Some(Textured(old(model).value, texture))
    {
      texture := Texture(textureName, texturePath);
      loadedTexture := Some(texture);
      if model.Some? {
        model := Some(Textured(model.value, texture));
      }
    }
  }
}
