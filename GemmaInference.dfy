/** src/inference/GemmaInference.ts: the Android backend, bound to the
    native module `GemmaModule`, which loads a model file by path. */
module GemmaInference {
  import opened Wrappers
  import opened JsStrings
  import opened BaseInference

  const ModuleName := "GemmaModule"
  const Unavailable := NotAvailable(ModuleName)
  const LoadFailed := "Failed to initialize Gemma model: "

  function NotFound(modelPath: string): string {
    "Model file not found at: " + modelPath
  }

  /** The configuration `initialize` installs. */
  const GemmaConfig := Config(ModuleName, true, None)

  /** The module is registered and has `loadModel`. */
  predicate CanLoad(registry: map<string, NativeModule>) {
    ModuleName in registry && registry[ModuleName].hasLoadModel
  }

  /** How `initialize(modelPath)` settles. */
  function InitOutcome(registry: map<string, NativeModule>, path: string, fileExists: bool, load: Outcome): Outcome {
    if !fileExists then Fail(NotFound(path))
    else if !CanLoad(registry) then Fail(Unavailable)
    else match load
      case Pass => Pass
      case Fail(message) => Fail(LoadFailed + message)
  }

  /** `initialize` succeeds exactly when the file exists, the module can
      load and the load resolves; the file check comes first. */
  lemma InitOutcomeCases(registry: map<string, NativeModule>, path: string, fileExists: bool, load: Outcome)
    ensures InitOutcome(registry, path, fileExists, load).Pass? <==> fileExists && CanLoad(registry) && load.Pass?
    ensures !fileExists ==> InitOutcome(registry, path, fileExists, load) == Fail(NotFound(path))
    ensures fileExists && !CanLoad(registry) ==> InitOutcome(registry, path, fileExists, load) == Fail(Unavailable)
    ensures fileExists && CanLoad(registry) && load.Fail? ==>
      InitOutcome(registry, path, fileExists, load).message[|LoadFailed|..] == load.message
  {
    if fileExists && CanLoad(registry) && load.Fail? {
      assert (LoadFailed + load.message)[|LoadFailed|..] == load.message;
    }
  }

  /** The backend state `initialize(modelPath)` leaves: nothing changes
      when the file is missing. */
  function AfterInit(s: BackendState, registry: map<string, NativeModule>, path: string,
                     fileExists: bool, load: Outcome): BackendState
  {
    if fileExists then AfterInitialize(s, registry, GemmaConfig, Some(path), load) else s
  }

  /** A successful `initialize` lets `generateStreaming` reach the module
      with any non-blank prompt. */
  lemma InitServesRequests(s: BackendState, registry: map<string, NativeModule>, path: string, fileExists: bool,
                           load: Outcome, prompt: string, imagePath: Option<string>, engine: NativeGeneration)
    requires InitOutcome(registry, path, fileExists, load).Pass? && !Blank(prompt)
    ensures Stream(ViewOf(AfterInit(s, registry, path, fileExists, load)), prompt, imagePath, engine).call
      == Some(Dispatch(prompt, imagePath))
  {
    InitOutcomeCases(registry, path, fileExists, load);
    InitializeEnablesStreaming(s, registry, GemmaConfig, Some(path), load, prompt, imagePath, engine);
  }

  class GemmaInference {
    const base: Inference
    var modelPath: string

    constructor(base: Inference)
      ensures this.base == base && modelPath == ""
    {
      this.base := base;
      modelPath := "";
    }

    /** `initialize(modelPath)`: `fileExists` is what `RNFS.exists` reports
        and `load` how the native `loadModel(modelPath)` settles. */
    method Initialize(path: string, fileExists: bool, load: Outcome) returns (r: Outcome)
      modifies this, base
      ensures r == InitOutcome(base.registry, path, fileExists, load)
      ensures !fileExists ==> unchanged(this, base)
      ensures fileExists ==> modelPath == path && base.config == Some(GemmaConfig)
      ensures fileExists && !CanLoad(base.registry) ==>
        base.isInitialized == old(base.isInitialized) && base.calls == old(base.calls)
      ensures fileExists && CanLoad(base.registry) ==>
        base.calls == old(base.calls) + [LoadModel(Some(path))] && base.isInitialized == load.Pass?
      ensures base.subscribed == old(base.subscribed)
      ensures old(base.Valid()) ==> base.Valid()
      ensures base.State() == AfterInit(old(base.State()), base.registry, path, fileExists, load)
    {
      if !fileExists {
        return Fail(NotFound(path));
      }
      modelPath := path;
      var init := base.InitializeModule(GemmaConfig);
      if init.Fail? {
        return init;
      }
      if !base.nativeModule.value.hasLoadModel {
        return Fail(Unavailable);
      }
      base.calls := base.calls + [LoadModel(Some(path))];
      match load
      case Pass =>
        base.isInitialized := true;
        r := Pass;
      case Fail(message) =>
        base.isInitialized := false;
        r := Fail(LoadFailed + message);
    }

    /** `getModelPath`. */
    method GetModelPath() returns (path: string)
      ensures path == modelPath
    {
      path := modelPath;
    }
  }

  /** Initialising again loads again: each accepted call adds one
      `loadModel` call, whatever the flag was. */
  method InitializeTwice(g: GemmaInference, path: string, first: Outcome, second: Outcome)
    returns (r1: Outcome, r2: Outcome)
    requires CanLoad(g.base.registry)
    modifies g, g.base
    ensures g.base.calls == old(g.base.calls) + [LoadModel(Some(path)), LoadModel(Some(path))]
    ensures g.base.isInitialized == second.Pass?
  {
    r1 := g.Initialize(path, true, first);
    r2 := g.Initialize(path, true, second);
  }
}
