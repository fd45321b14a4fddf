/** `AnimationLoader`: a glTF model with its animation clips and mixer. */
module Animations {
  import opened Wrappers
  import opened SceneGraph
  import opened Loading
  import opened AssetPath

  /** An animation clip, by name. */
  datatype Clip = Clip(name: string)

  /** The `find` in `playAnimation`: the first clip with that exact name. */
  function FindClip(clips: seq<Clip>, name: string): (r: Option<Clip>)
    ensures r.Some? ==> r.value.name == name && r.value in clips
    ensures r.None? <==> forall i :: 0 <= i < |clips| ==> clips[i].name != name
  {
    if clips == [] then None
    else if clips[0].name == name then Some(clips[0])
    else
      assert forall i :: 1 <= i < |clips| ==> clips[i] == clips[1..][i - 1];
      FindClip(clips[1..], name)
  }

  /** The clip found comes before every other clip with that name. */
  lemma {:induction false} FindClipIsFirst(clips: seq<Clip>, name: string)
    ensures var r := FindClip(clips, name);
      r.Some? ==> exists i :: 0 <= i < |clips| && clips[i] == r.value
                              && forall j :: 0 <= j < i ==> clips[j].name != name
    decreases |clips|
  {
    if clips != [] && clips[0].name != name {
      var rest := clips[1..];
      FindClipIsFirst(rest, name);
      var r := FindClip(rest, name);
      if r.Some? {
        var k :| 0 <= k < |rest| && rest[k] == r.value
                 && forall j :: 0 <= j < k ==> rest[j].name != name;
        forall j | 0 <= j < k + 1
          ensures clips[j].name != name
        {
          if j > 0 {
            assert clips[j] == rest[j - 1];
          }
        }
        assert clips[k + 1] == r.value;
      }
    }
  }

  class AnimationLoader {
    const name: string
    const path: string
    var isLoaded: bool
    var callbacks: seq<CallbackId>
    var model: Option<Object3D>
    var animations: seq<Clip>
    var loadedTexture: Option<Texture>
    /** Whether the `AnimationMixer` exists, how far it has advanced, and the
        clip it is playing. */
    var hasMixer: bool
    var mixerTime: real
    var playing: Option<Clip>

    function Queue(): Loading.Queue
      reads this
    {
      Loading.Queue(isLoaded, callbacks)
    }

    /** The path goes through `getAssetPath`. */
    constructor (name: string, path: string, dev: bool, baseUrl: string)
      ensures this.name == name && this.path == GetAssetPath(path, dev, baseUrl)
      ensures Queue() == Initial && model.None? && animations == [] && loadedTexture.None?
      ensures !hasMixer && mixerTime == 0.0 && playing.None?
    {
      this.name := name;
      this.path := GetAssetPath(path, dev, baseUrl);
      isLoaded := false;
      callbacks := [];
      model := None;
      animations := [];
      loadedTexture := None;
      hasMixer := false;
      mixerTime := 0.0;
      playing := None;
    }

    /** `load(onLoaded)`: the callbacks run now (they receive the current
        model and clips); when not loaded a fetch starts as well. */
    method Load(onLoaded: Option<CallbackId>) returns (invoked: seq<CallbackId>)
      modifies this`callbacks
      ensures StepResult(Queue(), invoked) == Step(old(Queue()), Event.Load(onLoaded))
    {
      if isLoaded {
        invoked := if onLoaded.Some? then [onLoaded.value] else [];
        return;
      }
      invoked := [];
      if onLoaded.Some? {
        callbacks := callbacks + [onLoaded.value];
      }
    }

    /** The fetch's success handler: the scene, renamed, becomes the model,
        a mixer is created, and the queued callbacks run in order. */
    method OnFetched(scene: Object3D, clips: seq<Clip>) returns (invoked: seq<CallbackId>)
      modifies this`isLoaded, this`callbacks, this`model, this`animations, this`hasMixer, this`mixerTime
      ensures StepResult(Queue(), invoked) == Step(old(Queue()), Fetched)
      ensures model == Some(scene.(name := name)) && animations == clips
      ensures hasMixer && mixerTime == 0.0
    {
      model := Some(scene.(name := name));
      animations := clips;
      hasMixer := true;
      mixerTime := 0.0;
      isLoaded := true;
      invoked := callbacks;
      callbacks := [];
    }

    /** `setMaterial`: the texture is always recorded; the model's meshes
        get it only when a model exists. */
    method SetMaterial(texturePath: string, textureName: string) returns (texture: Texture)
      modifies this`loadedTexture, this`model
      ensures texture == Texture(textureName, texturePath) && loadedTexture == Some(texture)
      ensures old(model).None? ==> model.None?
      ensures old(model).Some? ==> model == Some(Textured(old(model).value, texture))
    {
      texture := Texture(textureName, texturePath);
      loadedTexture := Some(texture);
      if model.Some? {
        model := Some(Textured(model.value, texture));
      }
    }

    /** `update(deltaTime)`: only an existing mixer advances. */
    method Update(deltaTime: real)
      modifies this`mixerTime
      ensures mixerTime == if hasMixer then old(mixerTime) + deltaTime else old(mixerTime)
    {
      if hasMixer {
        mixerTime := mixerTime + deltaTime;
      }
    }

    /** `playAnimation(name)`: without a mixer, without clips, or without a
        clip of that name nothing happens; otherwise every action stops and
        the first clip of that name plays. */
    method PlayAnimation(clipName: string) returns (started: Option<Clip>)
      modifies this`playing
      ensures started == (if !hasMixer || animations == [] then None else FindClip(animations, clipName))
      ensures started.None? ==> playing == old(playing)
      ensures started.Some? ==> playing == started && started.value.name == clipName
    {
      if !hasMixer || |animations| == 0 {
        return None;
      }
      started := FindClip(animations, clipName);
      if started.None? {
        return;
      }
      playing := started;
    }
  }
}
