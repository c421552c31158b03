/** src/inference/VLMInference.ts: the platform dispatcher. It keeps its
    own `isInitialized` flag and sends each call to the FastVLM backend on
    iOS and to the Gemma backend on Android. */
module VLMInference {
  import opened Wrappers
  import opened JsStrings
  import opened BaseInference
  import FastVLMInference
  import GemmaInference

  const Ios := "ios"
  const Android := "android"
  const InitFailed := "Failed to initialize VLM: "
  const PathRequired := "modelPath is required for Android/Gemma initialization"
  const VlmNotInitialized := "VLM not initialized. Call initialize() first."

  function Unsupported(platform: string): string {
    "Unsupported platform: " + platform
  }

  /** The catch block of `initialize`: every failure gains the prefix. */
  function Wrap(o: Outcome): (w: Outcome)
    ensures w.Pass? <==> o.Pass?
    ensures w.Fail? ==> StartsWith(w.message, InitFailed) && w.message[|InitFailed|..] == o.message
  {
    match o
    case Pass => Pass
    case Fail(message) =>
      var m := InitFailed + message;
      assert m[..|InitFailed|] == InitFailed && m[|InitFailed|..] == message;
      Fail(m)
  }

  /** `!config?.modelPath`: no path, or the empty string. */
  predicate HasModelPath(modelPath: Option<string>) {
    modelPath.Some? && modelPath.value != []
  }

  /** `getModelName`. */
  function ModelName(platform: string): (name: string)
    ensures name == "FastVLM" || name == "Gemma"
  {
    if platform == Ios then "FastVLM" else "Gemma"
  }

  lemma ModelNameByPlatform(platform: string)
    ensures ModelName(platform) == "FastVLM" <==> platform == Ios
  {
    assert "FastVLM" != "Gemma" by { assert "FastVLM"[0] != "Gemma"[0]; }
  }

  /** `getModelInfo()`'s result. */
  datatype ModelInfo = ModelInfo(platform: string, modelName: string, isLoaded: bool)

  class VLMInference {
    const platform: string
    var isInitialized: bool
    const fastVLM: FastVLMInference.FastVLMInference
    const gemma: GemmaInference.GemmaInference

    /** The two backends keep separate state. */
    ghost predicate Valid() {
      fastVLM.base != gemma.base
    }

    constructor(platform: string, fastVLM: FastVLMInference.FastVLMInference, gemma: GemmaInference.GemmaInference)
      requires fastVLM.base != gemma.base
      ensures this.platform == platform && this.fastVLM == fastVLM && this.gemma == gemma
      ensures !isInitialized && Valid()
    {
      this.platform := platform;
      this.fastVLM := fastVLM;
      this.gemma := gemma;
      isInitialized := false;
    }

    /** `initialize(config)`: `fileExists` and `load` are what the chosen
        backend observes (file check and native `loadModel`). */
    method Initialize(modelPath: Option<string>, fileExists: bool, load: Outcome) returns (r: Outcome)
      requires Valid()
      modifies this, fastVLM.base, gemma, gemma.base
      ensures isInitialized == r.Pass?
      ensures platform == Ios ==>
        && r == Wrap(FastVLMInference.InitOutcome(fastVLM.base.registry, load))
        && fastVLM.base.State() == FastVLMInference.AfterInit(old(fastVLM.base.State()), fastVLM.base.registry, load)
        && unchanged(gemma, gemma.base)
      ensures platform == Android && !HasModelPath(modelPath) ==>
        && r == Wrap(Fail(PathRequired))
        && unchanged(fastVLM.base, gemma, gemma.base)
      ensures platform == Android && HasModelPath(modelPath) ==>
        && r == Wrap(GemmaInference.InitOutcome(gemma.base.registry, modelPath.value, fileExists, load))
        && gemma.base.State() ==
             GemmaInference.AfterInit(old(gemma.base.State()), gemma.base.registry, modelPath.value, fileExists, load)
        && gemma.modelPath == (if fileExists then modelPath.value else old(gemma.modelPath))
        && unchanged(fastVLM.base)
      ensures platform != Ios && platform != Android ==>
        && r == Wrap(Fail(Unsupported(platform)))
        && unchanged(fastVLM.base, gemma, gemma.base)
    {
      var backend: Outcome;
      if platform == Ios {
        backend := fastVLM.Initialize(load);
      } else if platform == Android {
        if !HasModelPath(modelPath) {
          backend := Fail(PathRequired);
        } else {
          backend := gemma.Initialize(modelPath.value, fileExists, load);
        }
      } else {
        backend := Fail(Unsupported(platform));
      }
      r := Wrap(backend);
      isInitialized := r.Pass?;
    }

    /** `generateStreaming`: refused until initialised, then the backend
        of the platform runs the request. */
    method GenerateStreaming(prompt: string, imagePath: Option<string>, engine: NativeGeneration)
      returns (forwarded: seq<string>, r: Outcome)
      requires Valid()
      modifies fastVLM.base, gemma.base
      ensures !isInitialized ==>
        forwarded == [] && r == Fail(VlmNotInitialized) && unchanged(fastVLM.base, gemma.base)
      ensures isInitialized && platform == Ios ==>
        && var run := Stream(old(fastVLM.base.View()), prompt, imagePath, engine);
        && forwarded == run.forwarded && r == run.outcome
        && fastVLM.base.State() == AfterStream(old(fastVLM.base.State()), prompt, imagePath, engine)
        && unchanged(gemma.base)
      ensures isInitialized && platform == Android ==>
        && var run := Stream(old(gemma.base.View()), prompt, imagePath, engine);
        && forwarded == run.forwarded && r == run.outcome
        && gemma.base.State() == AfterStream(old(gemma.base.State()), prompt, imagePath, engine)
        && unchanged(fastVLM.base)
      ensures isInitialized && platform != Ios && platform != Android ==>
        forwarded == [] && r == Fail(Unsupported(platform)) && unchanged(fastVLM.base, gemma.base)
    {
      if !isInitialized {
        return [], Fail(VlmNotInitialized);
      }
      if platform == Ios {
        forwarded, r := fastVLM.base.GenerateStreaming(prompt, imagePath, engine);
      } else if platform == Android {
        forwarded, r := gemma.base.GenerateStreaming(prompt, imagePath, engine);
      } else {
        forwarded, r := [], Fail(Unsupported(platform));
      }
    }

    /** `stopGeneration`: no initialisation check; nothing happens on other
        platforms. */
    method StopGeneration(settled: Outcome) returns (r: Outcome)
      requires Valid()
      modifies fastVLM.base, gemma.base
      ensures platform == Ios ==>
        && r == StopOutcome(fastVLM.base.nativeModule, settled)
        && fastVLM.base.State() == AfterStop(old(fastVLM.base.State()), settled)
        && unchanged(gemma.base)
      ensures platform == Android ==>
        && r == StopOutcome(gemma.base.nativeModule, settled)
        && gemma.base.State() == AfterStop(old(gemma.base.State()), settled)
        && unchanged(fastVLM.base)
      ensures platform != Ios && platform != Android ==>
        r == Pass && unchanged(fastVLM.base, gemma.base)
    {
      if platform == Ios {
        r := fastVLM.base.StopGeneration(settled);
      } else if platform == Android {
        r := gemma.base.StopGeneration(settled);
      } else {
        r := Pass;
      }
    }

    /** `unload`: nothing to do unless initialised; the flag is cleared only
        once the backend's unload has returned. */
    method Unload(settled: Outcome) returns (r: Outcome)
      requires Valid()
      modifies this, fastVLM.base, gemma.base
      ensures !old(isInitialized) ==> r == Pass && unchanged(this, fastVLM.base, gemma.base)
      ensures old(isInitialized) && platform == Ios ==>
        && r == UnloadOutcome(old(fastVLM.base.isInitialized), fastVLM.base.nativeModule, settled)
        && fastVLM.base.State() == AfterUnload(old(fastVLM.base.State()), settled)
        && unchanged(gemma.base)
      ensures old(isInitialized) && platform == Android ==>
        && r == UnloadOutcome(old(gemma.base.isInitialized), gemma.base.nativeModule, settled)
        && gemma.base.State() == AfterUnload(old(gemma.base.State()), settled)
        && unchanged(fastVLM.base)
      ensures old(isInitialized) && platform != Ios && platform != Android ==>
        r == Pass && unchanged(fastVLM.base, gemma.base)
      ensures isInitialized == (old(isInitialized) && r.Fail?)
    {
      if !isInitialized {
        return Pass;
      }
      if platform == Ios {
        r := fastVLM.base.Unload(settled);
      } else if platform == Android {
        r := gemma.base.Unload(settled);
      } else {
        r := Pass;
      }
      if r.Fail? {
        return;
      }
      isInitialized := false;
    }

    /** `isModelLoaded`: the layer's own flag, which is set by its own
        `initialize` and is separate from the backends' flags. */
    method IsModelLoaded() returns (loaded: bool)
      ensures loaded == isInitialized
    {
      loaded := isInitialized;
    }

    /** `getModelInfo`: agrees with `getPlatform`, `getModelName` and
        `isModelLoaded`. */
    method GetModelInfo() returns (info: ModelInfo)
      ensures info.platform == platform
      ensures info.modelName == "FastVLM" <==> platform == Ios
      ensures platform != Ios ==> info.modelName == "Gemma"
      ensures info.isLoaded == isInitialized
    {
      ModelNameByPlatform(platform);
      var loaded := IsModelLoaded();
      info := ModelInfo(platform, ModelName(platform), loaded);
    }
  }

  /** On iOS a successful `initialize` lets the next `generateStreaming`
      reach FastVLM: one `loadModel()` call, then the generation call. */
  method IosInitializeThenGenerate(v: VLMInference, prompt: string, engine: NativeGeneration)
    returns (init: Outcome, forwarded: seq<string>, r: Outcome)
    requires v.Valid() && v.platform == Ios && FastVLMInference.CanLoad(v.fastVLM.base.registry) && !Blank(prompt)
    modifies v, v.fastVLM.base, v.gemma, v.gemma.base
    ensures init == Pass
    ensures v.fastVLM.base.calls == old(v.fastVLM.base.calls) + [LoadModel(None), Generate(prompt)]
    ensures r.Pass? <==> engine.settled.Pass?
    ensures forwarded == ForwardAll(engine.events, None)
  {
    init := v.Initialize(None, true, Pass);
    FastVLMInference.InitServesRequests(old(v.fastVLM.base.State()), v.fastVLM.base.registry, Pass, prompt, None, engine);
    forwarded, r := v.GenerateStreaming(prompt, None, engine);
  }
}
