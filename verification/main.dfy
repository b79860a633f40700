/** The window event handler of main.rs: the number of models drawn, the minimized flag, the
    resize flag, the render guard and the shutdown sequence. */
module EventLoop {
  import opened Vk
  import opened AppState
  import opened Application

  /** The fewest and the most models the arrow keys can select. */
  const MIN_MODELS: nat := 1
  const MAX_MODELS: nat := 4

  datatype ElementState = Pressed | Released

  /** The keys the handler distinguishes; every other key is `OtherKey`. */
  datatype KeyCode = ArrowLeft | ArrowRight | OtherKey

  /** The window events the handler distinguishes; every other event is `OtherEvent`. */
  datatype WindowEvent =
    | RedrawRequested
    | CloseRequested
    | Resized(width: nat, height: nat)
    | KeyboardInput(state: ElementState, key: KeyCode)
    | OtherEvent

  /** The model count after one key event: a pressed left arrow removes a model while more than
      one is drawn, a pressed right arrow adds one while fewer than four are drawn, and nothing
      else changes the count. */
  function ModelsAfterKey(models: nat, state: ElementState, key: KeyCode): (m: nat)
    ensures state == Released || key == OtherKey ==> m == models
    ensures m == models || m == models - 1 || m == models + 1
    ensures m < models <==> state == Pressed && key == ArrowLeft && models > MIN_MODELS
    ensures m > models <==> state == Pressed && key == ArrowRight && models < MAX_MODELS
  {
    if state == Pressed && key == ArrowLeft && models > MIN_MODELS then models - 1
    else if state == Pressed && key == ArrowRight && models < MAX_MODELS then models + 1
    else models
  }

  /** The model count after a run of key events, the first one first. */
  function ModelsAfterKeys(models: nat, keys: seq<(ElementState, KeyCode)>): nat
    decreases |keys|
  {
    if keys == [] then models
    else ModelsAfterKeys(ModelsAfterKey(models, keys[0].0, keys[0].1), keys[1..])
  }

  /** One key event keeps the count between one and four. */
  lemma KeyKeepsModelsInRange(models: nat, state: ElementState, key: KeyCode)
    requires MIN_MODELS <= models <= MAX_MODELS
    ensures MIN_MODELS <= ModelsAfterKey(models, state, key) <= MAX_MODELS
  {
  }

  /** Starting anywhere between one and four, no run of key events leaves that range. */
  lemma {:induction false} KeysKeepModelsInRange(models: nat, keys: seq<(ElementState, KeyCode)>)
    requires MIN_MODELS <= models <= MAX_MODELS
    ensures MIN_MODELS <= ModelsAfterKeys(models, keys) <= MAX_MODELS
    decreases |keys|
  {
    if keys != [] {
      KeyKeepsModelsInRange(models, keys[0].0, keys[0].1);
      KeysKeepModelsInRange(ModelsAfterKey(models, keys[0].0, keys[0].1), keys[1..]);
    }
  }

  /** Only pressed keys matter: a run of released keys leaves the count as it was. */
  lemma {:induction false} ReleasedKeysKeepModels(models: nat, keys: seq<(ElementState, KeyCode)>)
    requires forall i | 0 <= i < |keys| :: keys[i].0 == Released
    ensures ModelsAfterKeys(models, keys) == models
    decreases |keys|
  {
    if keys != [] {
      ReleasedKeysKeepModels(models, keys[1..]);
    }
  }

  /** A redraw renders only while the loop is not exiting and the window is not minimized. */
  predicate ShouldRender(exiting: bool, minimized: bool) {
    !exiting && !minimized
  }

  /** The closure main.rs hands to the event loop, with the state it captures: the
      application, the `minimized` flag, and the loop's own `exiting` flag. */
  class Handler {
    const app: App
    var minimized: bool
    var exiting: bool

    /** The handler's invariant: the model count stays between one and four. */
    ghost predicate Valid()
      reads this, app
    {
      MIN_MODELS <= app.models <= MAX_MODELS
    }

    /** The state right after `App::create`: not minimized, not exiting. */
    constructor (app: App)
      requires MIN_MODELS <= app.models <= MAX_MODELS
      ensures this.app == app && !minimized && !exiting && Valid()
    {
      this.app := app;
      minimized := false;
      exiting := false;
    }

    /** One window event, dispatched as main.rs does.  Only key events change the model
        count, which stays between one and four; events the handler does not distinguish
        change nothing. */
    method HandleEvent(event: WindowEvent, acquire: AcquireResult, present: PresentResult, config: SwapchainConfig)
      returns (r: Outcome)
      requires Valid()
      requires event.RedrawRequested? && ShouldRender(exiting, minimized) ==>
                 app.ReadyToRender() && (acquire.Acquired? ==> acquire.index < |app.data.swapchainImages|)
      requires event.CloseRequested? ==> app.gpu.Valid()
      modifies this`minimized, this`exiting, app`frame, app`resized, app`recreations, app`models, app.data,
               app.gpu`live, app.gpu`next, app.gpu`log, app.gpu`recording, app.gpu`invalidFrees, app.gpu`frameCalls
      ensures Valid()
      ensures event.KeyboardInput? ==> app.models == ModelsAfterKey(old(app.models), event.state, event.key)
      ensures !event.KeyboardInput? ==> app.models == old(app.models)
      ensures !event.CloseRequested? ==> exiting == old(exiting)
      ensures !event.Resized? ==> minimized == old(minimized)
      ensures event.OtherEvent? || event.KeyboardInput? || event.Resized? ==>
                app.gpu.log == old(app.gpu.log) && app.gpu.live == old(app.gpu.live)
      ensures event.CloseRequested? ==> exiting && app.gpu.Valid()
      ensures event.RedrawRequested? && !ShouldRender(old(exiting), old(minimized)) ==>
                r == Pass && unchanged(app, app.data, app.gpu)
      ensures event.RedrawRequested? && ShouldRender(old(exiting), old(minimized)) && r == Pass ==> app.ReadyToRender()
      ensures old(app.ReadyToRender()) ==>
                (event.OtherEvent? || event.KeyboardInput? || event.Resized? || (event.RedrawRequested? && r == Pass)) ==>
                  app.ReadyToRender()
    {
      r := Pass;
      match event {
        case RedrawRequested =>
          r := OnRedraw(acquire, present, config);
        case CloseRequested =>
          OnClose();
        case Resized(width, height) =>
          OnResized(width, height);
        case KeyboardInput(state, key) =>
          OnKey(state, key);
        case OtherEvent =>
      }
    }

    /** `WindowEvent::Resized`: a zero width or height marks the window minimized and leaves
        the resize flag as it was; any other size clears `minimized` and raises `resized`. */
    method OnResized(width: nat, height: nat)
      modifies this`minimized, app`resized
      ensures width == 0 || height == 0 ==> minimized && app.resized == old(app.resized)
      ensures width != 0 && height != 0 ==> !minimized && app.resized
    {
      if width == 0 || height == 0 {
        minimized := true;
      } else {
        minimized := false;
        app.resized := true;
      }
    }

    /** `WindowEvent::KeyboardInput`: the arrow keys change the model count within range. */
    method OnKey(state: ElementState, key: KeyCode)
      requires Valid()
      modifies app`models
      ensures Valid()
      ensures app.models == ModelsAfterKey(old(app.models), state, key)
    {
      if state == Pressed {
        match key {
          case ArrowLeft =>
            if app.models > MIN_MODELS {
              app.models := app.models - 1;
            }
          case ArrowRight =>
            if app.models < MAX_MODELS {
              app.models := app.models + 1;
            }
          case OtherKey =>
        }
      }
    }

    /** `WindowEvent::RedrawRequested`: renders a frame unless the loop is exiting or the
        window is minimized, in which case nothing is called at all. */
    method OnRedraw(acquire: AcquireResult, present: PresentResult, config: SwapchainConfig) returns (r: Outcome)
      requires ShouldRender(exiting, minimized) ==>
                 app.ReadyToRender() && (acquire.Acquired? ==> acquire.index < |app.data.swapchainImages|)
      modifies app`frame, app`resized, app`recreations, app.data,
               app.gpu`live, app.gpu`next, app.gpu`log, app.gpu`recording, app.gpu`invalidFrees, app.gpu`frameCalls
      ensures !ShouldRender(exiting, minimized) ==>
                && r == Pass && app.gpu.log == old(app.gpu.log) && app.gpu.frameCalls == old(app.gpu.frameCalls)
                && app.frame == old(app.frame)
      ensures ShouldRender(exiting, minimized) ==> app.gpu.frameCalls >= old(app.gpu.frameCalls) + 2
      ensures ShouldRender(exiting, minimized) && r == Pass ==> app.ReadyToRender()
      ensures !ShouldRender(exiting, minimized) ==> unchanged(app, app.data, app.gpu)
    {
      r := Pass;
      if ShouldRender(exiting, minimized) {
        r := app.Render(acquire, present, config);
      }
    }

    /** `WindowEvent::CloseRequested`: the loop is told to exit, the device is waited on, and
        the application is destroyed. */
    method OnClose()
      requires app.gpu.Valid()
      modifies this`exiting, app.gpu`live, app.gpu`invalidFrees, app.gpu`log
      ensures exiting && app.gpu.Valid()
      ensures app.gpu.log == old(app.gpu.log) + [DeviceWaitIdle] + AppTeardown(app.data)
      ensures app.gpu.live == old(app.gpu.live) - AppHandles(app.data)
    {
      exiting := true;
      app.gpu.Call(DeviceWaitIdle);
      app.Destroy();
    }
  }
}
