/** src/inference/FastVLMInference.ts: the iOS backend, bound to the
    native module `FastVLMModule`, whose `loadModel` takes no path. */
module FastVLMInference {
  import opened Wrappers
  import opened JsStrings
  import opened BaseInference

  const ModuleName := "FastVLMModule"
  const Unavailable := NotAvailable(ModuleName)
  const LoadFailed := "Failed to initialize FastVLM model: "

  /** The configuration `initialize` installs. */
  const FastVLMConfig := Config(ModuleName, false, None)

  /** The module is registered and has `loadModel`. */
  predicate CanLoad(registry: map<string, NativeModule>) {
    ModuleName in registry && registry[ModuleName].hasLoadModel
  }

  /** How `initialize()` settles for a registry and a native load outcome. */
  function InitOutcome(registry: map<string, NativeModule>, load: Outcome): Outcome {
    if !CanLoad(registry) then Fail(Unavailable)
    else match load
      case Pass => Pass
      case Fail(message) => Fail(LoadFailed + message)
  }

  /** `initialize()` succeeds exactly when the module can load and the load
      resolves; a load error keeps its message behind a fixed prefix. */
  lemma InitOutcomeCases(registry: map<string, NativeModule>, load: Outcome)
    ensures InitOutcome(registry, load).Pass? <==> CanLoad(registry) && load.Pass?
    ensures !CanLoad(registry) ==> InitOutcome(registry, load) == Fail(Unavailable)
    ensures CanLoad(registry) && load.Fail? ==>
      InitOutcome(registry, load).message[|LoadFailed|..] == load.message
  {
    if CanLoad(registry) && load.Fail? {
      assert (LoadFailed + load.message)[|LoadFailed|..] == load.message;
    }
  }

  /** The backend state `initialize()` leaves. */
  function AfterInit(s: BackendState, registry: map<string, NativeModule>, load: Outcome): BackendState {
    AfterInitialize(s, registry, FastVLMConfig, None, load)
  }

  /** A successful `initialize` lets `generateStreaming` reach the module
      with any non-blank prompt. */
  lemma InitServesRequests(s: BackendState, registry: map<string, NativeModule>, load: Outcome,
                           prompt: string, imagePath: Option<string>, engine: NativeGeneration)
    requires InitOutcome(registry, load).Pass? && !Blank(prompt)
    ensures Stream(ViewOf(AfterInit(s, registry, load)), prompt, imagePath, engine).call
      == Some(Dispatch(prompt, imagePath))
  {
    InitOutcomeCases(registry, load);
    InitializeEnablesStreaming(s, registry, FastVLMConfig, None, load, prompt, imagePath, engine);
  }

  class FastVLMInference {
    const base: Inference

    constructor(base: Inference)
      ensures this.base == base
    {
      this.base := base;
    }

    /** `initialize()`: `load` is how the native `loadModel()` settles. */
    method Initialize(load: Outcome) returns (r: Outcome)
      modifies base
      ensures base.config == Some(FastVLMConfig)
      ensures r == InitOutcome(base.registry, load)
      ensures !CanLoad(base.registry) ==>
        base.isInitialized == old(base.isInitialized) && base.calls == old(base.calls)
      ensures CanLoad(base.registry) ==>
        base.calls == old(base.calls) + [LoadModel(None)] && base.isInitialized == load.Pass?
      ensures base.subscribed == old(base.subscribed)
      ensures old(base.Valid()) ==> base.Valid()
      ensures base.State() == AfterInit(old(base.State()), base.registry, load)
    {
      var init := base.InitializeModule(FastVLMConfig);
      if init.Fail? {
        return init;
      }
      if !base.nativeModule.value.hasLoadModel {
        return Fail(Unavailable);
      }
      base.calls := base.calls + [LoadModel(None)];
      match load
      case Pass =>
        base.isInitialized := true;
        r := Pass;
      case Fail(message) =>
        base.isInitialized := false;
        r := Fail(LoadFailed + message);
    }
  }
}
