/** ios/FastVLMModule.swift: the native iOS module that runs the FastVLM
    model. The model container, the busy flag and the current generation
    task are the module's state; one `GenerationTask` object holds what a
    running task keeps between token callbacks. The MLX engine is reduced
    to the token snapshots it hands the callback and how the generation
    ends. */
module FastVLMModule {
  import opened Wrappers
  import opened JsStrings
  import opened Bridge

  /** `maxTokens`. */
  const MaxTokens := 240

  const LoadedText := "Model loaded successfully"
  const LoadFailed := "Failed to load FastVLM model: "
  const NotLoadedText := "Model not loaded. Call loadModel() first."
  const BusyText := "Generation already in progress"
  const GenerateFailed := "Failed to generate: "
  const ImageFailedText := "Failed to load image"
  const StoppedText := "Generation stopped"
  const UnloadedText := "Model unloaded successfully"

  /** What the token callback tells the engine. */
  datatype Decision = More | Stop

  /** The prepared engine input: the prompt, and whether an image goes with it. */
  datatype UserInput = UserInput(prompt: string, withImage: bool)

  // ----- The chunks a task emits -----

  /** No snapshot is shorter than the one before. */
  predicate Growing(snaps: seq<seq<int>>) {
    |snaps| < 2 || (Growing(snaps[..|snaps| - 1]) && |snaps[|snaps| - 2]| <= |snaps[|snaps| - 1]|)
  }

  /** Every snapshot extends the one before: the engine only appends. */
  predicate Extending(snaps: seq<seq<int>>) {
    |snaps| < 2 || (Extending(snaps[..|snaps| - 1]) && snaps[|snaps| - 2] <= snaps[|snaps| - 1])
  }

  /** How many tokens had been seen before the last snapshot. */
  function SeenBefore(snaps: seq<seq<int>>): nat {
    if |snaps| < 2 then 0 else |snaps[|snaps| - 2]|
  }

  /** The non-empty chunks the callback emits for a run of snapshots: each
      snapshot's tokens past the previous snapshot's length. */
  function Chunks(snaps: seq<seq<int>>): seq<seq<int>>
    requires Growing(snaps)
  {
    if snaps == [] then []
    else
      var last := snaps[|snaps| - 1];
      var chunk := last[SeenBefore(snaps)..];
      Chunks(snaps[..|snaps| - 1]) + (if chunk == [] then [] else [chunk])
  }

  lemma {:induction false} ExtendingGrows(snaps: seq<seq<int>>)
    requires Extending(snaps)
    ensures Growing(snaps)
  {
    if |snaps| >= 2 {
      ExtendingGrows(snaps[..|snaps| - 1]);
      assert snaps[|snaps| - 2] <= snaps[|snaps| - 1];
    }
  }

  /** When the engine only appends, the emitted chunks join to the latest
      snapshot: nothing is lost and nothing is sent twice. */
  lemma {:induction false} ChunksConcat(snaps: seq<seq<int>>)
    requires snaps != [] && Extending(snaps)
    ensures Growing(snaps)
    ensures Concat(Chunks(snaps)) == snaps[|snaps| - 1]
  {
    ExtendingGrows(snaps);
    var init, last := snaps[..|snaps| - 1], snaps[|snaps| - 1];
    assert snaps == init + [last];
    ExtendingGrows(init);
    if init == [] {
      ChunksConcatStep(init, last, []);
    } else {
      ChunksConcat(init);
      assert init[|init| - 1] == snaps[|snaps| - 2];
      ChunksConcatStep(init, last, init[|init| - 1]);
    }
  }

  /** The induction step: if the chunks so far join to `before`, the
      latest snapshot, and the next snapshot extends it, the chunks then
      join to the next snapshot. */
  lemma ChunksConcatStep(init: seq<seq<int>>, last: seq<int>, before: seq<int>)
    requires Growing(init) && Concat(Chunks(init)) == before && before <= last
    requires (if init == [] then 0 else |init[|init| - 1]|) == |before|
    ensures Growing(init + [last])
    ensures Concat(Chunks(init + [last])) == last
  {
    ChunksStep(init, last);
    var chunk := last[|before|..];
    assert last == before + chunk;
    if chunk == [] {
      assert Chunks(init + [last]) == Chunks(init) + [];
      assert Chunks(init) + [] == Chunks(init) && last == before;
    } else {
      ConcatSnoc(Chunks(init), chunk);
    }
  }

  /** One more snapshot, no shorter than the count so far, adds its new
      tokens as one chunk when there are any. */
  lemma ChunksStep(seen: seq<seq<int>>, tokens: seq<int>)
    requires Growing(seen)
    requires (if seen == [] then 0 else |seen[|seen| - 1]|) <= |tokens|
    ensures Growing(seen + [tokens])
    ensures var from := if seen == [] then 0 else |seen[|seen| - 1]|;
      Chunks(seen + [tokens]) == Chunks(seen) + (if tokens[from..] == [] then [] else [tokens[from..]])
  {
    var snaps := seen + [tokens];
    assert snaps[..|snaps| - 1] == seen;
  }

  /** What a running task keeps between callbacks. */
  class GenerationTask {
    const id: nat
    const prompt: string
    const imagePath: Option<string>
    /** The callback's `lastTokenCount`. */
    var lastTokenCount: nat
    /** The token chunks sent as `onGenerateToken` events, in order. */
    var sent: seq<seq<int>>
    /** The engine has been told to stop. */
    var halted: bool
    /** The snapshots handed to the callback so far, before it stopped. */
    ghost var seen: seq<seq<int>>

    constructor(id: nat, prompt: string, imagePath: Option<string>)
      ensures this.id == id && this.prompt == prompt && this.imagePath == imagePath
      ensures lastTokenCount == 0 && sent == [] && !halted && seen == []
      ensures Valid()
    {
      this.id := id;
      this.prompt := prompt;
      this.imagePath := imagePath;
      lastTokenCount := 0;
      sent := [];
      halted := false;
      seen := [];
    }

    /** The chunks sent are those of the snapshots seen, and the count is
        the latest snapshot's length. */
    ghost predicate Valid()
      reads this
    {
      && Growing(seen)
      && sent == Chunks(seen)
      && lastTokenCount == (if seen == [] then 0 else |seen[|seen| - 1]|)
    }
  }

  class FastVLMModule {
    /** `modelContainer` is not nil. */
    var hasContainer: bool
    var isGenerating: bool
    /** The id of `currentTask`, when there is one. */
    var currentTask: Option<nat>
    /** The ids of the tasks that have been cancelled. */
    var cancelled: set<nat>
    /** The id the next task gets. */
    var nextTask: nat
    /** How many times a container was loaded. */
    var containerLoads: nat

    constructor()
      ensures !hasContainer && !isGenerating && currentTask == None
      ensures cancelled == {} && nextTask == 0 && containerLoads == 0
    {
      hasContainer := false;
      isGenerating := false;
      currentTask := None;
      cancelled := {};
      nextTask := 0;
      containerLoads := 0;
    }

    /** `loadModel`: loads only when there is no container yet; `load` is
        how loading it would end. */
    method LoadModel(load: Outcome) returns (reply: Reply)
      modifies this
      ensures old(hasContainer) ==>
        reply == Resolved(LoadedText) && containerLoads == old(containerLoads) && hasContainer
      ensures !old(hasContainer) && load.Pass? ==>
        reply == Resolved(LoadedText) && containerLoads == old(containerLoads) + 1 && hasContainer
      ensures !old(hasContainer) && load.Fail? ==>
        reply == Rejected("LOAD_ERROR", LoadFailed + load.message)
        && containerLoads == old(containerLoads) && !hasContainer
      ensures isGenerating == old(isGenerating) && currentTask == old(currentTask)
      ensures cancelled == old(cancelled) && nextTask == old(nextTask)
    {
      if !hasContainer {
        if load.Fail? {
          return Rejected("LOAD_ERROR", LoadFailed + load.message);
        }
        hasContainer := true;
        containerLoads := containerLoads + 1;
      }
      reply := Resolved(LoadedText);
    }

    /** `generateWithImage`: refuse without a model or while busy, otherwise
        cancel the previous task and start a new one. */
    method GenerateWithImage(prompt: string, imagePath: Option<string>)
      returns (rejection: Option<Reply>, task: Option<GenerationTask>)
      modifies this
      ensures !old(hasContainer) ==>
        rejection == Some(Rejected("MODEL_ERROR", NotLoadedText)) && task == None && unchanged(this)
      ensures old(hasContainer) && old(isGenerating) ==>
        rejection == Some(Rejected("BUSY_ERROR", BusyText)) && task == None && unchanged(this)
      ensures old(hasContainer) && !old(isGenerating) ==>
        && rejection == None && task.Some? && fresh(task.value)
        && task.value.id == old(nextTask) && task.value.prompt == prompt
        && task.value.imagePath == imagePath && task.value.Valid()
        && task.value.sent == [] && !task.value.halted
        && isGenerating && currentTask == Some(old(nextTask)) && nextTask == old(nextTask) + 1
        && cancelled == old(cancelled) + (if old(currentTask).Some? then {old(currentTask).value} else {})
        && hasContainer && containerLoads == old(containerLoads)
    {
      if !hasContainer {
        return Some(Rejected("MODEL_ERROR", NotLoadedText)), None;
      }
      if isGenerating {
        return Some(Rejected("BUSY_ERROR", BusyText)), None;
      }
      isGenerating := true;
      if currentTask.Some? {
        cancelled := cancelled + {currentTask.value};
      }
      var t := new GenerationTask(nextTask, prompt, imagePath);
      currentTask := Some(nextTask);
      nextTask := nextTask + 1;
      rejection, task := None, Some(t);
    }

    /** `generate`: the same request with no image. */
    method Generate(prompt: string) returns (rejection: Option<Reply>, task: Option<GenerationTask>)
      modifies this
      ensures !old(hasContainer) ==>
        rejection == Some(Rejected("MODEL_ERROR", NotLoadedText)) && task == None && unchanged(this)
      ensures old(hasContainer) && old(isGenerating) ==>
        rejection == Some(Rejected("BUSY_ERROR", BusyText)) && task == None && unchanged(this)
      ensures old(hasContainer) && !old(isGenerating) ==>
        && rejection == None && task.Some? && fresh(task.value)
        && task.value.id == old(nextTask) && task.value.prompt == prompt
        && task.value.imagePath == None && task.value.Valid()
        && task.value.sent == [] && !task.value.halted
        && isGenerating && currentTask == Some(old(nextTask)) && nextTask == old(nextTask) + 1
        && cancelled == old(cancelled) + (if old(currentTask).Some? then {old(currentTask).value} else {})
        && hasContainer && containerLoads == old(containerLoads)
    {
      rejection, task := GenerateWithImage(prompt, None);
    }

    /** The task's first step: a non-empty image path must name an image
        that loads (`imageLoads`); a nil or empty path means text only. */
    static method PrepareInput(task: GenerationTask, imageLoads: bool) returns (input: Result<UserInput>)
      ensures (task.imagePath.None? || task.imagePath.value == []) ==>
        input == Success(UserInput(task.prompt, false))
      ensures task.imagePath.Some? && task.imagePath.value != [] ==>
        input == (if imageLoads then Success(UserInput(task.prompt, true)) else Failure(ImageFailedText))
    {
      if task.imagePath.Some? && task.imagePath.value != [] {
        if !imageLoads {
          return Failure(ImageFailedText);
        }
        return Success(UserInput(task.prompt, true));
      }
      input := Success(UserInput(task.prompt, false));
    }

    /** The engine's token callback with the tokens generated so far: a
        cancelled task stops at once; otherwise the tokens past the last
        count are sent, and generation stops at `maxTokens`. */
    method OnTokens(task: GenerationTask, tokens: seq<int>) returns (chunk: Option<seq<int>>, decision: Decision)
      requires task.Valid() && !task.halted
      requires task.lastTokenCount <= |tokens|
      modifies task
      ensures task.Valid()
      ensures decision == Stop <==> task.id in cancelled || |tokens| >= MaxTokens
      ensures task.halted == (decision == Stop)
      ensures task.id in cancelled ==>
        chunk == None && task.sent == old(task.sent) && task.lastTokenCount == old(task.lastTokenCount)
      ensures task.id !in cancelled ==>
        && task.seen == old(task.seen) + [tokens]
        && task.lastTokenCount == |tokens|
        && chunk == (if |tokens| == old(task.lastTokenCount) then None else Some(tokens[old(task.lastTokenCount)..]))
        && task.sent == old(task.sent) + (if chunk.Some? then [chunk.value] else [])
    {
      if task.id in cancelled {
        task.halted := true;
        return None, Stop;
      }
      var newTokens := tokens[task.lastTokenCount..];
      ChunksStep(task.seen, tokens);
      task.seen := task.seen + [tokens];
      task.lastTokenCount := |tokens|;
      chunk := None;
      if newTokens != [] {
        task.sent := task.sent + [newTokens];
        chunk := Some(newTokens);
      }
      if |tokens| >= MaxTokens {
        task.halted := true;
        return chunk, Stop;
      }
      decision := More;
    }

    /** The end of a task: the busy flag drops whatever the outcome; an
        error from a cancelled task is not reported. */
    method FinishTask(task: GenerationTask, result: Result<string>) returns (reply: Option<Reply>)
      modifies this
      ensures !isGenerating
      ensures result.Success? ==> reply == Some(Resolved(result.value))
      ensures result.Failure? && task.id in cancelled ==> reply == None
      ensures result.Failure? && task.id !in cancelled ==>
        reply == Some(Rejected("GENERATION_ERROR", GenerateFailed + result.message))
      ensures hasContainer == old(hasContainer) && currentTask == old(currentTask)
      ensures cancelled == old(cancelled) && nextTask == old(nextTask) && containerLoads == old(containerLoads)
    {
      isGenerating := false;
      match result
      case Success(output) =>
        reply := Some(Resolved(output));
      case Failure(message) =>
        if task.id in cancelled {
          reply := None;
        } else {
          reply := Some(Rejected("GENERATION_ERROR", GenerateFailed + message));
        }
    }

    /** `stopGeneration`: cancel and forget the current task; always resolves. */
    method StopGeneration() returns (reply: Reply)
      modifies this
      ensures reply == Resolved(StoppedText)
      ensures currentTask == None && !isGenerating
      ensures cancelled == old(cancelled) + (if old(currentTask).Some? then {old(currentTask).value} else {})
      ensures hasContainer == old(hasContainer) && nextTask == old(nextTask) && containerLoads == old(containerLoads)
    {
      if currentTask.Some? {
        cancelled := cancelled + {currentTask.value};
      }
      currentTask := None;
      isGenerating := false;
      reply := Resolved(StoppedText);
    }

    /** `unloadModel`: as `stopGeneration`, and the container goes too. */
    method UnloadModel() returns (reply: Reply)
      modifies this
      ensures reply == Resolved(UnloadedText)
      ensures currentTask == None && !isGenerating && !hasContainer
      ensures cancelled == old(cancelled) + (if old(currentTask).Some? then {old(currentTask).value} else {})
      ensures nextTask == old(nextTask) && containerLoads == old(containerLoads)
    {
      if currentTask.Some? {
        cancelled := cancelled + {currentTask.value};
      }
      currentTask := None;
      hasContainer := false;
      isGenerating := false;
      reply := Resolved(UnloadedText);
    }
  }

  /** A stopped task that ends after a newer task has started still clears
      the busy flag, so a third request is accepted while the newer task
      runs. */
  method StaleFinishAdmitsThird() returns (third: Option<GenerationTask>)
    ensures third.Some?
  {
    var m := new FastVLMModule();
    var _ := m.LoadModel(Pass);
    var _, first := m.Generate("a");
    var _ := m.StopGeneration();
    var _, second := m.Generate("b");
    var _ := m.FinishTask(first.value, Failure("cancelled"));
    assert m.currentTask == Some(second.value.id) && !m.isGenerating;
    var rejection;
    rejection, third := m.Generate("c");
    assert rejection == None;
  }
}
