/** ios/LAI/GemmaModule.swift: the native iOS module that runs Gemma
    through MediaPipe. Its state is the engine (`llmInference`), the
    `isGenerating` flag and the `onGenerateToken` events it has sent. The
    source runs every method's work as one block on a serial queue; here
    only the generation blocks are queued, in order, while loading,
    stopping and unloading take effect when called. A generation request
    passes the model check when it is made, and its block runs later with
    the engine it captured then. The engine is reduced to the callbacks it
    makes and whether its call throws. */
module IosGemmaModule {
  import opened Wrappers
  import opened Bridge

  const LoadError := "LOAD_ERROR"
  const LoadedText := "Model loaded successfully"
  const NoModel := "NO_MODEL"
  const NotLoadedText := "Model not loaded"
  const FileNotFound := "FILE_NOT_FOUND"
  const InvalidImage := "INVALID_IMAGE"
  const DecodeFailedText := "Failed to decode image"
  const ConvertFailedText := "Failed to convert image to CGImage format"
  const GenerateError := "GENERATE_ERROR"
  const CompletedText := "Generation completed"
  const StoppedText := "Generation stopped"
  const UnloadedText := "Model unloaded"

  function NotFoundText(path: string): string { "Model file not found at: " + path }
  function EmptyFileText(path: string): string { "Model file is empty: " + path }
  function ImageMissingText(path: string): string { "Image file does not exist at " + path }

  /** A generation request that passed the model check: the prompt, and
      the image path of `generateWithImage`. */
  datatype Request = Request(prompt: string, imagePath: Option<string>)

  /** One call of the engine's progress callback: a partial result, an
      error, or neither. */
  datatype Callback = Partial(text: string) | Error(message: string) | Empty

  /** How `loadModel` settles. `attributes` is how reading the file's
      attributes ends: a thrown error, or the size attribute, which may be
      missing (and then counts as 0). */
  function LoadReply(path: string, present: bool, attributes: Result<Option<int>>, create: Outcome): Reply {
    if !present then Rejected(LoadError, NotFoundText(path))
    else if attributes.Failure? then Rejected(LoadError, attributes.message)
    else if attributes.value.None? || attributes.value.value == 0 then Rejected(LoadError, EmptyFileText(path))
    else if create.Fail? then Rejected(LoadError, create.message)
    else Resolved(LoadedText)
  }

  /** `loadModel` succeeds exactly when the file exists, has a non-zero
      size and the engine is created; the missing file is reported first,
      and a file without a size counts as empty. */
  lemma LoadChecksInOrder(path: string, present: bool, attributes: Result<Option<int>>, create: Outcome)
    ensures var r := LoadReply(path, present, attributes, create);
      && (r.Resolved? <==> present && attributes.Success? && attributes.value.Some? && attributes.value.value != 0 && create.Pass?)
      && (r.Rejected? ==> r.code == LoadError)
      && (!present ==> r.message == NotFoundText(path))
      && (present && attributes == Success(None) ==> r.message == EmptyFileText(path))
  {
  }

  /** The image checks of `generateWithImage`, in order: the file exists,
      decodes, and converts to a `CGImage`. */
  function ImageReply(path: string, image: ImageFile): Option<Reply> {
    if !image.present then Some(Rejected(FileNotFound, ImageMissingText(path)))
    else if !image.decodes then Some(Rejected(InvalidImage, DecodeFailedText))
    else if !image.converts then Some(Rejected(InvalidImage, ConvertFailedText))
    else None
  }

  /** The image passes exactly when all three checks pass; a missing file
      is reported whatever the other two say. */
  lemma ImageChecksInOrder(path: string, image: ImageFile)
    ensures ImageReply(path, image).None? <==> image.present && image.decodes && image.converts
    ensures !image.present ==> ImageReply(path, image) == Some(Rejected(FileNotFound, ImageMissingText(path)))
    ensures image.present && !(image.decodes && image.converts) ==> ImageReply(path, image).value.code == InvalidImage
  {
  }

  /** The partial results among the callbacks: each is sent as an event. */
  function Texts(callbacks: seq<Callback>): seq<string> {
    if callbacks == [] then []
    else
      var last := callbacks[|callbacks| - 1];
      Texts(callbacks[..|callbacks| - 1]) + (if last.Partial? then [last.text] else [])
  }

  /** The rejections the error callbacks make, in order. */
  function ErrorReplies(callbacks: seq<Callback>): seq<Reply> {
    if callbacks == [] then []
    else
      var last := callbacks[|callbacks| - 1];
      ErrorReplies(callbacks[..|callbacks| - 1]) + (if last.Error? then [Rejected(GenerateError, last.message)] else [])
  }

  /** The first error callback's message, reading from the front. */
  function FirstError(callbacks: seq<Callback>): Option<string> {
    if callbacks == [] then None
    else if callbacks[0].Error? then Some(callbacks[0].message)
    else FirstError(callbacks[1..])
  }

  /** Every settlement attempt of a generation that got as far as the
      engine: one per error callback, then the one after the call returns
      or throws. Only the first reaches JavaScript. */
  function Settlements(callbacks: seq<Callback>, thrown: Option<string>): seq<Reply> {
    ErrorReplies(callbacks) + [if thrown.Some? then Rejected(GenerateError, thrown.value) else Resolved(CompletedText)]
  }

  /** Two partial results around an empty callback stream two texts and
      no rejection. */
  lemma TwoPartials(first: string, second: string)
    ensures Texts([Partial(first), Empty, Partial(second)]) == [first, second]
    ensures ErrorReplies([Partial(first), Empty, Partial(second)]) == []
  {
    var one := [Partial(first)];
    var two := one + [Empty];
    var callbacks := two + [Partial(second)];
    assert one[..0] == [];
    assert Texts(one) == [first] && ErrorReplies(one) == [];
    assert two[..1] == one;
    assert Texts(two) == [first] && ErrorReplies(two) == [];
    assert callbacks[..2] == two;
    assert callbacks == [Partial(first), Empty, Partial(second)];
  }

  lemma {:induction false} ErrorRepliesCons(c: Callback, rest: seq<Callback>)
    ensures ErrorReplies([c] + rest) ==
      (if c.Error? then [Rejected(GenerateError, c.message)] else []) + ErrorReplies(rest)
    decreases |rest|
  {
    var cs := [c] + rest;
    if rest == [] {
      assert cs[..|cs| - 1] == [];
    } else {
      var init := rest[..|rest| - 1];
      assert cs[..|cs| - 1] == [c] + init;
      assert cs[|cs| - 1] == rest[|rest| - 1];
      ErrorRepliesCons(c, init);
    }
  }

  /** What JavaScript sees: the first error callback's rejection when there
      is one, otherwise how the engine call ended. */
  lemma {:induction false} FirstSettlement(callbacks: seq<Callback>, thrown: Option<string>)
    ensures Settlements(callbacks, thrown)[0] ==
      (if FirstError(callbacks).Some? then Rejected(GenerateError, FirstError(callbacks).value)
       else if thrown.Some? then Rejected(GenerateError, thrown.value)
       else Resolved(CompletedText))
    decreases |callbacks|
  {
    if callbacks == [] {
    } else {
      var c, rest := callbacks[0], callbacks[1..];
      assert callbacks == [c] + rest;
      ErrorRepliesCons(c, rest);
      if !c.Error? {
        FirstSettlement(rest, thrown);
      }
    }
  }

  class GemmaModule {
    /** `llmInference` is not nil. */
    var hasInference: bool
    var isGenerating: bool
    /** Accepted generation requests whose block has not run yet, in queue
        order. */
    var pending: seq<Request>
    /** The `onGenerateToken` payloads sent, in order. */
    var events: seq<string>

    constructor()
      ensures !hasInference && !isGenerating && pending == [] && events == []
    {
      hasInference := false;
      isGenerating := false;
      pending := [];
      events := [];
    }

    /** `loadModel`: only a successful load touches the engine. */
    method LoadModel(path: string, present: bool, attributes: Result<Option<int>>, create: Outcome) returns (reply: Reply)
      modifies this
      ensures reply == LoadReply(path, present, attributes, create)
      ensures hasInference == (old(hasInference) || reply.Resolved?)
      ensures isGenerating == old(isGenerating) && pending == old(pending) && events == old(events)
    {
      if !present {
        return Rejected(LoadError, NotFoundText(path));
      }
      if attributes.Failure? {
        return Rejected(LoadError, attributes.message);
      }
      var size := if attributes.value.Some? then attributes.value.value else 0;
      if size == 0 {
        return Rejected(LoadError, EmptyFileText(path));
      }
      if create.Fail? {
        return Rejected(LoadError, create.message);
      }
      hasInference := true;
      reply := Resolved(LoadedText);
    }

    /** The shared front of `generate` and `generateWithImage`: refuse
        without an engine, otherwise queue the work. `isGenerating` is not
        consulted. */
    method Accept(request: Request) returns (rejection: Option<Reply>)
      modifies this
      ensures !old(hasInference) ==> rejection == Some(Rejected(NoModel, NotLoadedText)) && unchanged(this)
      ensures old(hasInference) ==> rejection == None && pending == old(pending) + [request]
      ensures hasInference == old(hasInference) && isGenerating == old(isGenerating) && events == old(events)
    {
      if !hasInference {
        return Some(Rejected(NoModel, NotLoadedText));
      }
      pending := pending + [request];
      rejection := None;
    }

    /** `generate`. */
    method Generate(prompt: string) returns (rejection: Option<Reply>)
      modifies this
      ensures !old(hasInference) ==> rejection == Some(Rejected(NoModel, NotLoadedText)) && unchanged(this)
      ensures old(hasInference) ==> rejection == None && pending == old(pending) + [Request(prompt, None)]
      ensures hasInference == old(hasInference) && isGenerating == old(isGenerating) && events == old(events)
    {
      rejection := Accept(Request(prompt, None));
    }

    /** `generateWithImage`. */
    method GenerateWithImage(prompt: string, imagePath: string) returns (rejection: Option<Reply>)
      modifies this
      ensures !old(hasInference) ==> rejection == Some(Rejected(NoModel, NotLoadedText)) && unchanged(this)
      ensures old(hasInference) ==> rejection == None && pending == old(pending) + [Request(prompt, Some(imagePath))]
      ensures hasInference == old(hasInference) && isGenerating == old(isGenerating) && events == old(events)
    {
      rejection := Accept(Request(prompt, Some(imagePath)));
    }

    /** The queued block of the oldest accepted request. It runs with the
        engine captured when the request was made, even if the model has
        been unloaded since. An image request checks its image first; then
        every partial result is sent, whatever `isGenerating` says, and the
        flag is false when the block is done, however it ends. */
    method RunGeneration(image: ImageFile, callbacks: seq<Callback>, thrown: Option<string>)
      returns (settlements: seq<Reply>)
      requires pending != []
      modifies this
      ensures pending == old(pending)[1..] && !isGenerating && hasInference == old(hasInference)
      ensures var request := old(pending)[0];
        if request.imagePath.Some? && ImageReply(request.imagePath.value, image).Some?
        then settlements == [ImageReply(request.imagePath.value, image).value] && events == old(events)
        else settlements == Settlements(callbacks, thrown) && events == old(events) + Texts(callbacks)
    {
      var request := pending[0];
      pending := pending[1..];
      isGenerating := true;
      if request.imagePath.Some? {
        var refused := ImageReply(request.imagePath.value, image);
        if refused.Some? {
          isGenerating := false;
          return [refused.value];
        }
      }
      settlements := Deliver(callbacks);
      isGenerating := false;
      settlements := settlements + [if thrown.Some? then Rejected(GenerateError, thrown.value) else Resolved(CompletedText)];
    }

    /** The progress callback, once per engine call: a partial result is
        sent as an event, an error clears the flag and rejects. */
    method Deliver(callbacks: seq<Callback>) returns (rejections: seq<Reply>)
      modifies this
      ensures rejections == ErrorReplies(callbacks) && events == old(events) + Texts(callbacks)
      ensures hasInference == old(hasInference) && pending == old(pending)
      ensures isGenerating == (old(isGenerating) && rejections == [])
    {
      rejections := [];
      var i := 0;
      while i < |callbacks|
        invariant 0 <= i <= |callbacks|
        invariant rejections == ErrorReplies(callbacks[..i]) && events == old(events) + Texts(callbacks[..i])
        invariant hasInference == old(hasInference) && pending == old(pending)
        invariant isGenerating == (old(isGenerating) && rejections == [])
      {
        assert callbacks[..i + 1][..i] == callbacks[..i];
        match callbacks[i] {
          case Partial(text) =>
            events := events + [text];
          case Error(message) =>
            isGenerating := false;
            rejections := rejections + [Rejected(GenerateError, message)];
          case Empty =>
        }
        i := i + 1;
      }
      assert callbacks[..i] == callbacks;
    }

    /** `stopGeneration`: only the flag changes; nothing reaches the engine. */
    method StopGeneration() returns (reply: Reply)
      modifies this
      ensures reply == Resolved(StoppedText) && !isGenerating
      ensures hasInference == old(hasInference) && pending == old(pending) && events == old(events)
    {
      isGenerating := false;
      reply := Resolved(StoppedText);
    }

    /** `unloadModel`: clear the flag and drop the engine. */
    method UnloadModel() returns (reply: Reply)
      modifies this
      ensures reply == Resolved(UnloadedText) && !isGenerating && !hasInference
      ensures pending == old(pending) && events == old(events)
    {
      isGenerating := false;
      hasInference := false;
      reply := Resolved(UnloadedText);
    }
  }

  /** Stopping and even unloading do not silence a request already
      accepted: its block still streams every partial result and still
      completes. In the source, stop and unload are blocks queued behind the
      generation, so they run only after it has streamed and settled; they
      cannot reach it either way. */
  method StopDoesNotSilence(first: string, second: string) returns (events: seq<string>, settlements: seq<Reply>)
    ensures events == [first, second]
    ensures settlements == [Resolved(CompletedText)]
  {
    var m := new GemmaModule();
    var _ := m.LoadModel("m", true, Success(Some(1)), Pass);
    var _ := m.Generate("p");
    var _ := m.StopGeneration();
    var _ := m.UnloadModel();
    var callbacks := [Partial(first), Empty, Partial(second)];
    TwoPartials(first, second);
    settlements := m.RunGeneration(ImageFile(true, true, true), callbacks, None);
    events := m.events;
  }
}
