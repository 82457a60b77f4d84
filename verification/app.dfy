/**
  The parts of `src/main.rs` that decide something: the GL config picker,
  the window-event handler (resize guard, pointer, keys, exit) and the
  per-frame step. Windowing, the GL context and the event loop itself are
  outside the model.
 */
module App {
  import opened Numerics
  import opened Keys
  import Camera
  import SceneController
  import Scenes
  import Kawase

  datatype Option<T> = None | Some(value: T)

  /** A GL config, known by its position in the platform's list, and its answer to "supports transparency?". */
  datatype Config = Config(id: nat, transparency: Option<bool>)

  /** `supports_transparency().unwrap_or(false)`: no answer counts as no. */
  predicate Transparent(c: Config) {
    c.transparency == Some(true)
  }

  /** The index of the first transparent config, if there is one. */
  function FirstTransparent(configs: seq<Config>): (r: Option<nat>)
    ensures r.Some? ==> r.value < |configs| && Transparent(configs[r.value])
                        && forall i :: 0 <= i < r.value ==> !Transparent(configs[i])
    ensures r.None? ==> forall i :: 0 <= i < |configs| ==> !Transparent(configs[i])
  {
    if |configs| == 0 then None
    else if Transparent(configs[0]) then Some(0)
    else match FirstTransparent(configs[1..])
      case None => None
      case Some(i) => Some(i + 1)
  }

  /**
    `gl_config_picker`: `reduce` keeps the running choice unless the next
    config is transparent and the choice is not. `None` stands for the
    panic of `unwrap` on an empty list.
   */
  method PickConfig(configs: seq<Config>) returns (r: Option<Config>)
    ensures |configs| == 0 <==> r.None?
    ensures r.Some? ==> r.value in configs
    ensures FirstTransparent(configs).Some? ==> r == Some(configs[FirstTransparent(configs).value])
    ensures |configs| > 0 && FirstTransparent(configs).None? ==> r == Some(configs[0])
  {
    if |configs| == 0 {
      return None;
    }
    var accum := configs[0];
    var i := 1;
    while i < |configs|
      invariant 1 <= i <= |configs|
      invariant accum == match FirstTransparent(configs[..i])
                         case Some(k) => configs[k]
                         case None => configs[0]
    {
      var config := configs[i];
      assert configs[..i + 1] == configs[..i] + [config];
      FirstTransparentExtend(configs[..i], config);
      if Transparent(config) && !Transparent(accum) {
        accum := config;
      }
      i := i + 1;
    }
    assert configs[..i] == configs;
    return Some(accum);
  }

  /** Appending a config changes the first transparent one only when there was none before. */
  lemma {:induction false} FirstTransparentExtend(s: seq<Config>, c: Config)
    ensures FirstTransparent(s + [c]) ==
              if FirstTransparent(s).Some? then FirstTransparent(s)
              else if Transparent(c) then Some(|s|)
              else None
  {
    if |s| > 0 {
      assert (s + [c])[1..] == s[1..] + [c];
      FirstTransparentExtend(s[1..], c);
    }
  }

  /** The window events `main.rs` handles. */
  datatype AppEvent =
    | Resized(width: nat, height: nat)
    | CloseRequested
    | KeyPressed(key: Key)
    | Pointer(event: SceneController.WindowEvent)

  /** The application once its window and context exist. */
  datatype App = App(
    viewport: Size,
    mousePos: Vec2,
    scenes: Scenes.Scenes,
    controller: SceneController.Controller,
    exiting: bool)

  /** The event as the scene controller sees it: only pointer events concern it. */
  function ControllerEvent(e: AppEvent): SceneController.WindowEvent {
    if e.Pointer? then e.event else SceneController.OtherEvent
  }

  /**
    `window_event`: a resize to a non-empty size records the viewport;
    a pointer move records the pointer; close or Escape ends the loop;
    any other pressed key switches scene and is then handed to the scene.
    Every event is then shown to the scene controller.
   */
  function WindowEvent(app: App, e: AppEvent, env: Scenes.Env): (r: App)
    requires Scenes.ValidEnv(env)
    ensures e.Resized? && (e.width == 0 || e.height == 0) ==> r.viewport == app.viewport
    ensures e.Resized? && e.width != 0 && e.height != 0 ==> r.viewport == Size(e.width, e.height)
    ensures !e.Resized? ==> r.viewport == app.viewport
    ensures e.Pointer? && e.event.CursorMoved? ==> r.mousePos == e.event.position
    ensures !(e.Pointer? && e.event.CursorMoved?) ==> r.mousePos == app.mousePos
    ensures r.exiting <==> app.exiting || e == CloseRequested || e == KeyPressed(Named(Escape))
    ensures e.KeyPressed? && e.key != Named(Escape) ==>
              r.scenes == Scenes.OnKey(Scenes.SwitchScene(app.scenes, env, e.key), e.key)
    ensures !(e.KeyPressed? && e.key != Named(Escape)) ==> r.scenes == app.scenes
    ensures r.controller == SceneController.Interact(app.controller, ControllerEvent(e), env.libm)
    ensures Scenes.Valid(app.scenes, env.libm) ==> Scenes.Valid(r.scenes, env.libm)
  {
    var handled :=
      match e
      case Resized(w, h) => if w != 0 && h != 0 then app.(viewport := Size(w, h)) else app
      case Pointer(ev) => if ev.CursorMoved? then app.(mousePos := ev.position) else app
      case CloseRequested => app.(exiting := true)
      case KeyPressed(k) =>
        if k == Named(Escape) then app.(exiting := true)
        else app.(scenes := Scenes.OnKey(Scenes.SwitchScene(app.scenes, env, k), k));
    handled.(controller := SceneController.Interact(handled.controller, ControllerEvent(e), env.libm))
  }

  /** Pressing F1, F2 or F3 shows a freshly built scene, untouched by the key's own `on_key`. */
  lemma SceneKeyShowsFreshScene(app: App, key: Key, env: Scenes.Env)
    requires Scenes.ValidEnv(env) && IsSceneKey(key)
    ensures WindowEvent(app, KeyPressed(key), env).scenes == Scenes.SwitchScene(app.scenes, env, key)
    ensures key == Named(F3) ==> WindowEvent(app, KeyPressed(key), env).scenes.kawase.blur == Kawase.DefaultParams()
  {
    Scenes.SwitchThenOnKey(app.scenes, env, key);
  }

  /**
    `about_to_wait`: advance the controller to `now`, resize the shown scene
    to the viewport through the updated camera, and draw it with the
    pointer. Dragging and the round-quads scene both divide by the camera
    scale, which must therefore not be zero.
   */
  method AboutToWait(app: App, now: real, dt: real, libm: Libm)
    returns (r: App, frame: Scenes.Frame)
    requires Scenes.Valid(app.scenes, libm)
    requires SceneController.EasedScale(app.controller, libm).NonZero()
    ensures r.controller == SceneController.Update(app.controller, now, libm)
    ensures r.viewport == app.viewport && r.mousePos == app.mousePos && r.exiting == app.exiting
    ensures Scenes.SameScene(app.scenes, r.scenes) && Scenes.Valid(r.scenes, libm)
    ensures var resized := Scenes.Resize(app.scenes, app.viewport.w, app.viewport.h);
            && Scenes.Valid(resized, libm) && Camera.ScaleNonZero(r.controller.camera)
            && Scenes.Drew(resized, r.scenes, frame, r.controller.camera, app.mousePos, dt, libm)
  {
    var controller := SceneController.Update(app.controller, now, libm);
    var scenes := Scenes.Resize(app.scenes, app.viewport.w, app.viewport.h);
    scenes, frame := Scenes.Draw(scenes, controller.camera, app.mousePos, dt, libm);
    r := app.(controller := controller, scenes := scenes);
  }
}
