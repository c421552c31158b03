/** The shared session layer of src/inference/BaseInference.ts.

    The TypeScript class keeps its state in static fields and each backend
    (`GemmaInference`, `FastVLMInference`) writes its own copies through
    `this`, so here one `Inference` object is one backend's state. The
    native module is reduced to what the layer observes of it: whether it
    is registered, whether it has `loadModel`, the calls made on it, the
    `onGenerateToken` events it emits during a call and how the call's
    promise settles. */
module BaseInference {
  import opened Wrappers
  import opened JsStrings
  import TokenFilter

  const NotInitialized := "Model not initialized. Call initialize() first."
  const NoNativeModule := "Native module not initialized"
  const EmptyPrompt := "Prompt cannot be empty"
  const GenerationFailed := "Generation failed: "
  const NoEventEmitter := "Event emitter not initialized"

  /** The error `initializeModule` throws for a module that is not registered. */
  function NotAvailable(moduleName: string): string {
    moduleName + " is not available"
  }

  /** `normalizePath`: a `file:///` URI loses its first seven characters,
      `file://`, so the absolute path keeps its leading `/`. */
  function NormalizePath(path: string): (r: string)
    ensures StartsWith(path, "file:///") ==> "file://" + r == path && StartsWith(r, "/")
    ensures !StartsWith(path, "file:///") ==> r == path
  {
    if StartsWith(path, "file:///") then path[7..] else path
  }

  /** Normalising twice is normalising once. */
  lemma NormalizePathIdempotent(path: string)
    ensures NormalizePath(NormalizePath(path)) == NormalizePath(path)
  {
    var r := NormalizePath(path);
    if StartsWith(path, "file:///") {
      assert r[0] == '/';
      assert !StartsWith(r, "file:///") by {
        if |"file:///"| <= |r| { assert r[..8][0] == '/'; }
      }
    }
  }

  /** What the layer sees of a registered native module. */
  datatype NativeModule = NativeModule(hasLoadModel: bool)

  /** `BaseInferenceConfig`. */
  datatype Config = Config(moduleName: string, requiresModelPath: bool, filterTokens: Option<seq<string>>)

  /** A call made on the native module. */
  datatype NativeCall =
    | LoadModel(modelPath: Option<string>)
    | Generate(prompt: string)
    | GenerateWithImage(prompt: string, imagePath: string)
    | Stop
    | UnloadModel

  /** What the native side does during one `generate`/`generateWithImage`
      call: the `onGenerateToken` events it emits, in order, and how the
      call's promise settles. */
  datatype NativeGeneration = NativeGeneration(events: seq<string>, settled: Outcome)

  // ----- The token handler -----

  /** The listener's decision for one event: forward the filtered token
      when the token and its filtered form are both non-empty. */
  function Forward(token: string, filterTokens: Option<seq<string>>): (f: Option<string>)
    ensures f.Some? <==> token != [] && TokenFilter.Filter(token, filterTokens) != []
    ensures f.Some? ==> f.value == TokenFilter.Filter(token, filterTokens)
  {
    if token == [] then None
    else
      var filtered := TokenFilter.Filter(token, filterTokens);
      if filtered == [] then None else Some(filtered)
  }

  /** The fragments handed to `onToken` for a run of events. */
  function ForwardAll(events: seq<string>, filterTokens: Option<seq<string>>): (fs: seq<string>)
    ensures |fs| <= |events|
    ensures forall i | 0 <= i < |fs| :: fs[i] != []
  {
    if events == [] then []
    else
      var init := ForwardAll(events[..|events| - 1], filterTokens);
      match Forward(events[|events| - 1], filterTokens)
      case None => init
      case Some(f) => init + [f]
  }

  /** Every event's token, filtered. */
  function FilterEach(events: seq<string>, filterTokens: Option<seq<string>>): (fs: seq<string>)
    ensures |fs| == |events|
    ensures forall i | 0 <= i < |events| :: fs[i] == TokenFilter.Filter(events[i], filterTokens)
  {
    if events == [] then []
    else FilterEach(events[..|events| - 1], filterTokens) + [TokenFilter.Filter(events[|events| - 1], filterTokens)]
  }

  /** Dropping empty tokens and empty filtered tokens loses no text: the
      forwarded fragments join to the same text as all filtered tokens. */
  lemma {:induction false} ForwardAllConcat(events: seq<string>, filterTokens: Option<seq<string>>)
    ensures Concat(ForwardAll(events, filterTokens)) == Concat(FilterEach(events, filterTokens))
  {
    if events != [] {
      var init := events[..|events| - 1];
      var last := events[|events| - 1];
      ForwardAllConcat(init, filterTokens);
      var filtered := TokenFilter.Filter(last, filterTokens);
      ConcatSnoc(FilterEach(init, filterTokens), filtered);
      if last == [] {
        TokenFilter.FilterEmpty(filterTokens);
      }
      var f := Forward(last, filterTokens);
      if f.Some? {
        ConcatSnoc(ForwardAll(init, filterTokens), f.value);
      } else {
        assert filtered == [];
      }
    }
  }

  // ----- `generateStreaming` as a specification -----

  /** The part of a backend's state that `generateStreaming` reads. */
  datatype BackendView = BackendView(
    isInitialized: bool,
    subscribed: bool,
    hasEventEmitter: bool,
    nativeModule: Option<NativeModule>,
    filterTokens: Option<seq<string>>)

  /** What one `generateStreaming` call does: the fragments forwarded to
      `onToken`, how it settles, the native call it makes and whether a
      listener is still registered afterwards. */
  datatype StreamRun = StreamRun(
    forwarded: seq<string>,
    outcome: Outcome,
    call: Option<NativeCall>,
    subscribedAfter: bool)

  /** `imagePath?.trim()` is truthy. */
  predicate HasImage(imagePath: Option<string>) {
    imagePath.Some? && !Blank(imagePath.value)
  }

  /** The native call for a request that passed the guards. */
  function Dispatch(prompt: string, imagePath: Option<string>): NativeCall {
    if HasImage(imagePath) then GenerateWithImage(prompt, NormalizePath(imagePath.value))
    else Generate(prompt)
  }

  function Stream(v: BackendView, prompt: string, imagePath: Option<string>, engine: NativeGeneration): StreamRun {
    if !v.isInitialized then StreamRun([], Fail(NotInitialized), None, v.subscribed)
    else if v.nativeModule.None? then StreamRun([], Fail(NoNativeModule), None, v.subscribed)
    else if Blank(prompt) then StreamRun([], Fail(EmptyPrompt), None, v.subscribed)
    else if !v.hasEventEmitter then StreamRun([], Fail(GenerationFailed + NoEventEmitter), None, false)
    else
      var outcome := match engine.settled
        case Pass => Pass
        case Fail(msg) => Fail(GenerationFailed + msg);
      StreamRun(ForwardAll(engine.events, v.filterTokens), outcome, Some(Dispatch(prompt, imagePath)), false)
  }

  /** The three guards fail in order, each before the listener is touched
      or a native call is made. */
  lemma StreamGuards(v: BackendView, prompt: string, imagePath: Option<string>, engine: NativeGeneration)
    ensures var run := Stream(v, prompt, imagePath, engine);
      && (!v.isInitialized ==> run.outcome == Fail(NotInitialized))
      && (v.isInitialized && v.nativeModule.None? ==> run.outcome == Fail(NoNativeModule))
      && (v.isInitialized && v.nativeModule.Some? && Blank(prompt) ==> run.outcome == Fail(EmptyPrompt))
      && (run.call.Some? <==> v.isInitialized && v.nativeModule.Some? && !Blank(prompt) && v.hasEventEmitter)
      && (run.call.None? ==> run.forwarded == [])
  {
  }

  /** Past the guards the listener is gone whatever happens, and a failure
      is reported with the `Generation failed: ` prefix. */
  lemma StreamCleanup(v: BackendView, prompt: string, imagePath: Option<string>, engine: NativeGeneration)
    requires v.isInitialized && v.nativeModule.Some? && !Blank(prompt)
    ensures var run := Stream(v, prompt, imagePath, engine);
      && !run.subscribedAfter
      && (run.outcome.Fail? ==> StartsWith(run.outcome.message, GenerationFailed))
      && (run.outcome.Pass? <==> v.hasEventEmitter && engine.settled.Pass?)
  {
    var run := Stream(v, prompt, imagePath, engine);
    if run.outcome.Fail? {
      var m := run.outcome.message;
      var rest := if v.hasEventEmitter then engine.settled.message else NoEventEmitter;
      assert m == GenerationFailed + rest;
      assert m[..|GenerationFailed|] == GenerationFailed;
    }
  }

  /** A non-blank image path goes to `generateWithImage` with the path
      normalised; anything else goes to `generate`. */
  lemma DispatchChoice(prompt: string, imagePath: Option<string>)
    ensures Dispatch(prompt, imagePath).GenerateWithImage? <==> HasImage(imagePath)
    ensures Dispatch(prompt, imagePath).prompt == prompt
    ensures HasImage(imagePath) ==>
      Dispatch(prompt, imagePath).imagePath == NormalizePath(imagePath.value)
  {
  }

  /** The forwarded fragments of a successful run join to the filtered
      tokens of every event. */
  lemma StreamForwardsFilteredText(v: BackendView, prompt: string, imagePath: Option<string>, engine: NativeGeneration)
    ensures var run := Stream(v, prompt, imagePath, engine);
      run.call.Some? ==> Concat(run.forwarded) == Concat(FilterEach(engine.events, v.filterTokens))
  {
    StreamGuards(v, prompt, imagePath, engine);
    if Stream(v, prompt, imagePath, engine).call.Some? {
      assert Stream(v, prompt, imagePath, engine).forwarded == ForwardAll(engine.events, v.filterTokens);
      ForwardAllConcat(engine.events, v.filterTokens);
    }
  }

  /** How `stopGeneration` settles. */
  function StopOutcome(nativeModule: Option<NativeModule>, settled: Outcome): Outcome {
    if nativeModule.None? then Fail(NoNativeModule) else settled
  }

  /** How `unload` settles. */
  function UnloadOutcome(isInitialized: bool, nativeModule: Option<NativeModule>, settled: Outcome): Outcome {
    if !isInitialized then Pass
    else if nativeModule.None? then Fail(NoNativeModule)
    else settled
  }

  // ----- One backend's state as a value -----

  /** Every field of one backend's session state. */
  datatype BackendState = BackendState(
    isInitialized: bool,
    subscribed: bool,
    hasEventEmitter: bool,
    nativeModule: Option<NativeModule>,
    config: Option<Config>,
    calls: seq<NativeCall>)

  /** The part of the state that `generateStreaming` reads. */
  function ViewOf(s: BackendState): BackendView {
    BackendView(s.isInitialized, s.subscribed, s.hasEventEmitter, s.nativeModule,
      if s.config.Some? then s.config.value.filterTokens else None)
  }

  /** `NativeModules[name]`, which is undefined for an unregistered name. */
  function Lookup(registry: map<string, NativeModule>, name: string): Option<NativeModule> {
    if name in registry then Some(registry[name]) else None
  }

  /** The state `initializeModule(cfg)` leaves: the configuration is
      recorded, the module looked up, and an emitter created for it. */
  function AfterInitializeModule(s: BackendState, registry: map<string, NativeModule>, cfg: Config): BackendState {
    var m := Lookup(registry, cfg.moduleName);
    s.(config := Some(cfg), nativeModule := m, hasEventEmitter := s.hasEventEmitter || m.Some?)
  }

  /** The state a backend's `initialize` leaves once its own checks pass:
      `initializeModule`, then, when the module has `loadModel`, one load
      call whose settlement sets the flag. */
  function AfterInitialize(s: BackendState, registry: map<string, NativeModule>, cfg: Config,
                           modelPath: Option<string>, load: Outcome): BackendState
  {
    var s1 := AfterInitializeModule(s, registry, cfg);
    if s1.nativeModule.Some? && s1.nativeModule.value.hasLoadModel
    then s1.(calls := s1.calls + [LoadModel(modelPath)], isInitialized := load.Pass?)
    else s1
  }

  /** The state one `generateStreaming` call leaves. */
  function AfterStream(s: BackendState, prompt: string, imagePath: Option<string>, engine: NativeGeneration): BackendState {
    var run := Stream(ViewOf(s), prompt, imagePath, engine);
    s.(subscribed := run.subscribedAfter, calls := s.calls + (if run.call.Some? then [run.call.value] else []))
  }

  /** The state `stopGeneration` leaves. */
  function AfterStop(s: BackendState, settled: Outcome): BackendState {
    if s.nativeModule.None? then s
    else s.(calls := s.calls + [Stop], subscribed := s.subscribed && settled.Fail?)
  }

  /** The state `unload` leaves. */
  function AfterUnload(s: BackendState, settled: Outcome): BackendState {
    if !s.isInitialized || s.nativeModule.None? then s
    else s.(calls := s.calls + [UnloadModel], isInitialized := settled.Fail?)
  }

  /** A backend whose module can load and whose load resolves serves
      `generateStreaming`: a non-blank prompt reaches the native module,
      and the call settles as the native generation does. A failed load
      leaves it refusing every request as not initialised. */
  lemma InitializeEnablesStreaming(s: BackendState, registry: map<string, NativeModule>, cfg: Config,
                                   modelPath: Option<string>, load: Outcome,
                                   prompt: string, imagePath: Option<string>, engine: NativeGeneration)
    requires cfg.moduleName in registry && registry[cfg.moduleName].hasLoadModel
    ensures var after := AfterInitialize(s, registry, cfg, modelPath, load);
      var run := Stream(ViewOf(after), prompt, imagePath, engine);
      && (load.Pass? && !Blank(prompt) ==>
            run.call == Some(Dispatch(prompt, imagePath)) && (run.outcome.Pass? <==> engine.settled.Pass?))
      && (load.Fail? ==> run.outcome == Fail(NotInitialized) && run.call.None?)
  {
    var after := AfterInitialize(s, registry, cfg, modelPath, load);
    assert after.nativeModule == Some(registry[cfg.moduleName]) && after.hasEventEmitter;
    assert after.isInitialized == load.Pass?;
  }

  /** After a stop that resolves no listener is left; after an unload that
      resolves the backend refuses to generate until initialised again. */
  lemma StopAndUnloadSettle(s: BackendState, prompt: string, imagePath: Option<string>, engine: NativeGeneration)
    requires s.nativeModule.Some?
    ensures !AfterStop(s, Pass).subscribed && AfterStop(s, Pass).calls == s.calls + [Stop]
    ensures s.isInitialized ==>
      Stream(ViewOf(AfterUnload(s, Pass)), prompt, imagePath, engine).outcome == Fail(NotInitialized)
  {
  }

  // ----- One backend's state -----

  class Inference {
    /** `NativeModules`: the modules registered by the app, by name. */
    const registry: map<string, NativeModule>
    var isInitialized: bool
    /** `currentSubscription` is not null. */
    var subscribed: bool
    /** `eventEmitter` is not null. */
    var hasEventEmitter: bool
    var nativeModule: Option<NativeModule>
    var config: Option<Config>
    /** Every call made on the native module, in order. */
    var calls: seq<NativeCall>

    constructor(registry: map<string, NativeModule>)
      ensures this.registry == registry
      ensures !isInitialized && !subscribed && !hasEventEmitter
      ensures nativeModule == None && config == None && calls == []
    {
      this.registry := registry;
      isInitialized := false;
      subscribed := false;
      hasEventEmitter := false;
      nativeModule := None;
      config := None;
      calls := [];
    }

    /** A module, once present, has had its emitter created. */
    ghost predicate Valid()
      reads this
    {
      nativeModule.Some? ==> hasEventEmitter
    }

    /** `this.config?.filterTokens`. */
    function FilterTokens(): Option<seq<string>>
      reads this
    {
      if config.Some? then config.value.filterTokens else None
    }

    /** The fields, as a value. */
    function State(): BackendState
      reads this
    {
      BackendState(isInitialized, subscribed, hasEventEmitter, nativeModule, config, calls)
    }

    function View(): BackendView
      reads this
    {
      ViewOf(State())
    }

    /** `initializeModule`: record the configuration and look the module up. */
    method InitializeModule(cfg: Config) returns (r: Outcome)
      modifies this
      ensures config == Some(cfg)
      ensures nativeModule == (if cfg.moduleName in registry then Some(registry[cfg.moduleName]) else None)
      ensures r == (if nativeModule.Some? then Pass else Fail(NotAvailable(cfg.moduleName)))
      ensures hasEventEmitter == (old(hasEventEmitter) || nativeModule.Some?)
      ensures isInitialized == old(isInitialized) && subscribed == old(subscribed) && calls == old(calls)
      ensures old(Valid()) || nativeModule.Some? ==> Valid()
      ensures State() == AfterInitializeModule(old(State()), registry, cfg)
    {
      config := Some(cfg);
      if cfg.moduleName in registry {
        nativeModule := Some(registry[cfg.moduleName]);
      } else {
        nativeModule := None;
      }
      if nativeModule.None? {
        r := Fail(NotAvailable(cfg.moduleName));
        return;
      }
      hasEventEmitter := true;
      r := Pass;
    }

    /** `filterSpecialTokens`: one removal pass per list entry, in order. */
    method FilterSpecialTokens(text: string) returns (filtered: string)
      ensures filtered == TokenFilter.Filter(text, FilterTokens())
    {
      var tokens := TokenFilter.TokensToFilter(FilterTokens());
      ghost var ps := TokenFilter.Patterns(tokens);
      filtered := text;
      for i := 0 to |tokens|
        invariant TokenFilter.FilterAll(filtered, ps[i..]) == TokenFilter.Filter(text, FilterTokens())
      {
        assert ps[i..][0] == TokenFilter.PatternOf(tokens[i]);
        assert ps[i..][1..] == ps[i + 1..];
        filtered := TokenFilter.RemovePass(filtered, TokenFilter.PatternOf(tokens[i]));
      }
      assert ps[|tokens|..] == [];
    }

    /** The `onGenerateToken` listener for one event. */
    method OnGenerateToken(token: string) returns (forwarded: Option<string>)
      ensures forwarded == Forward(token, FilterTokens())
    {
      forwarded := None;
      if token != [] {
        var filteredToken := FilterSpecialTokens(token);
        if filteredToken != [] {
          forwarded := Some(filteredToken);
        }
      }
    }

    /** Runs the listener over the events emitted while it is registered. */
    method Deliver(events: seq<string>) returns (forwarded: seq<string>)
      ensures forwarded == ForwardAll(events, FilterTokens())
    {
      forwarded := [];
      for i := 0 to |events|
        invariant forwarded == ForwardAll(events[..i], FilterTokens())
      {
        var f := OnGenerateToken(events[i]);
        assert events[..i + 1][..i] == events[..i];
        if f.Some? {
          forwarded := forwarded + [f.value];
        }
      }
      assert events[..|events|] == events;
    }

    /** `removeTokenListener`. */
    method RemoveTokenListener()
      modifies this
      ensures !subscribed
      ensures isInitialized == old(isInitialized) && hasEventEmitter == old(hasEventEmitter)
      ensures nativeModule == old(nativeModule) && config == old(config) && calls == old(calls)
    {
      if subscribed {
        subscribed := false;
      }
    }

    /** `generateStreaming`: the native side runs `engine`; `forwarded` is
        what reaches `onToken`, in order. */
    method GenerateStreaming(prompt: string, imagePath: Option<string>, engine: NativeGeneration)
      returns (forwarded: seq<string>, r: Outcome)
      modifies this
      ensures var run := Stream(old(View()), prompt, imagePath, engine);
        && forwarded == run.forwarded && r == run.outcome && subscribed == run.subscribedAfter
        && calls == old(calls) + (if run.call.Some? then [run.call.value] else [])
      ensures isInitialized == old(isInitialized) && hasEventEmitter == old(hasEventEmitter)
      ensures nativeModule == old(nativeModule) && config == old(config)
      ensures State() == AfterStream(old(State()), prompt, imagePath, engine)
    {
      forwarded := [];
      if !isInitialized {
        return [], Fail(NotInitialized);
      }
      if nativeModule.None? {
        return [], Fail(NoNativeModule);
      }
      if Blank(prompt) {
        return [], Fail(EmptyPrompt);
      }
      RemoveTokenListener();
      if !hasEventEmitter {
        return [], Fail(GenerationFailed + NoEventEmitter);
      }
      subscribed := true;
      calls := calls + [Dispatch(prompt, imagePath)];
      forwarded := Deliver(engine.events);
      RemoveTokenListener();
      match engine.settled
      case Pass => r := Pass;
      case Fail(msg) => r := Fail(GenerationFailed + msg);
    }

    /** `stopGeneration`: the listener is removed only after the native
        stop resolves; a native rejection propagates as it is. */
    method StopGeneration(settled: Outcome) returns (r: Outcome)
      modifies this
      ensures r == StopOutcome(nativeModule, settled)
      ensures nativeModule.None? ==> calls == old(calls) && subscribed == old(subscribed)
      ensures nativeModule.Some? ==>
        calls == old(calls) + [Stop] && subscribed == (old(subscribed) && settled.Fail?)
      ensures isInitialized == old(isInitialized) && hasEventEmitter == old(hasEventEmitter)
      ensures nativeModule == old(nativeModule) && config == old(config)
      ensures State() == AfterStop(old(State()), settled)
    {
      if nativeModule.None? {
        return Fail(NoNativeModule);
      }
      calls := calls + [Stop];
      if settled.Fail? {
        return settled;
      }
      RemoveTokenListener();
      r := Pass;
    }

    /** `unload`: nothing to do unless initialised; the flag is cleared only
        after the native unload resolves. */
    method Unload(settled: Outcome) returns (r: Outcome)
      modifies this
      ensures r == UnloadOutcome(old(isInitialized), nativeModule, settled)
      ensures isInitialized == (old(isInitialized) && r.Fail?)
      ensures calls == old(calls) + (if old(isInitialized) && nativeModule.Some? then [UnloadModel] else [])
      ensures subscribed == old(subscribed) && hasEventEmitter == old(hasEventEmitter)
      ensures nativeModule == old(nativeModule) && config == old(config)
      ensures State() == AfterUnload(old(State()), settled)
    {
      if !isInitialized {
        return Pass;
      }
      if nativeModule.None? {
        return Fail(NoNativeModule);
      }
      calls := calls + [UnloadModel];
      if settled.Fail? {
        return settled;
      }
      isInitialized := false;
      r := Pass;
    }

    /** `isModelLoaded`. */
    method IsModelLoaded() returns (loaded: bool)
      ensures loaded == isInitialized
    {
      loaded := isInitialized;
    }
  }
}
