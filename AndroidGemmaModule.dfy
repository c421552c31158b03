/** android/app/src/main/java/com/lai/GemmaModule.kt: the native Android
    module that runs Gemma through MediaPipe. The module's state is the
    loaded model, the current session, the current generation job and the
    `onGenerateToken` events it has sent. Each launched job is tracked by
    an id and runs in three kinds of step: it begins (checks the image,
    opens a session), it receives partial results, and it ends; the
    `finally` of every job clears the current session and job. The engine
    and the file system are reduced to the facts each step observes. */
module AndroidGemmaModule {
  import opened Wrappers
  import opened Bridge

  const LoadError := "LOAD_ERROR"
  const LoadedText := "Model loaded successfully"
  const NoModel := "NO_MODEL"
  const NotLoadedText := "Model not loaded"
  const FileNotFound := "FILE_NOT_FOUND"
  const InvalidImage := "INVALID_IMAGE"
  const DecodeFailedText := "Failed to decode image"
  const CancelledCode := "CANCELLED"
  const StoppedByUserText := "Generation was stopped by user"
  const GenerateError := "GENERATE_ERROR"
  const CompletedText := "Generation completed"
  const StopError := "STOP_ERROR"
  const StoppedText := "Generation stopped"
  const UnloadError := "UNLOAD_ERROR"
  const UnloadedText := "Model unloaded"
  /** The message of the exception `model!!` throws on a null model: it
      has none, and the bridge passes an empty one. */
  const NullModelText := ""

  function NotFoundText(path: string): string { "Model file not found at: " + path }
  function EmptyFileText(path: string): string { "Model file is empty: " + path }
  function ImageMissingText(path: string): string { "Image file does not exist at " + path }

  /** A generation request: the prompt, and the image path of
      `generateWithImage`. */
  datatype Request = Request(prompt: string, imagePath: Option<string>)

  /** Where a launched job is: waiting to begin, streaming in a session, or
      ended with the settlement of its promise. */
  datatype Phase = Launched(request: Request) | Streaming | Ended(reply: Reply)

  /** How `loadModel` settles: the file must exist, then be non-empty, then
      the engine must be created from it. */
  function LoadReply(path: string, present: bool, length: int, create: Outcome): Reply {
    if !present then Rejected(LoadError, NotFoundText(path))
    else if length == 0 then Rejected(LoadError, EmptyFileText(path))
    else if create.Fail? then Rejected(LoadError, create.message)
    else Resolved(LoadedText)
  }

  /** `loadModel` succeeds exactly when all three checks pass; a missing
      file is reported before an empty one, and both before the engine is
      tried. */
  lemma LoadChecksInOrder(path: string, present: bool, length: int, create: Outcome)
    ensures LoadReply(path, present, length, create).Resolved? <==> present && length != 0 && create.Pass?
    ensures LoadReply(path, present, length, create).Rejected? ==> LoadReply(path, present, length, create).code == LoadError
    ensures !present ==> LoadReply(path, present, length, create).message == NotFoundText(path)
    ensures present && length == 0 ==> LoadReply(path, present, length, create).message == EmptyFileText(path)
  {
  }

  /** How the first stretch of a launched job ends: `None` when a session
      opens. An image job checks its file before anything else; the first
      suspension notices a cancelled job; then the image must decode, the
      model must still be there and the session must be created. */
  function BeginReply(request: Request, cancelled: bool, image: ImageFile, hasModel: bool, create: Outcome): Option<Reply> {
    if request.imagePath.Some? && !image.present then Some(Rejected(FileNotFound, ImageMissingText(request.imagePath.value)))
    else if cancelled then Some(Rejected(CancelledCode, StoppedByUserText))
    else if request.imagePath.Some? && !image.decodes then Some(Rejected(InvalidImage, DecodeFailedText))
    else if !hasModel then Some(Rejected(GenerateError, NullModelText))
    else if create.Fail? then Some(Rejected(GenerateError, create.message))
    else None
  }

  /** A session opens exactly when the job is not cancelled, its image (if
      any) exists and decodes, and the session can be created; image
      problems are reported before any session is attempted. */
  lemma BeginChecks(request: Request, cancelled: bool, image: ImageFile, hasModel: bool, create: Outcome)
    ensures var r := BeginReply(request, cancelled, image, hasModel, create);
      && (r.None? <==> !cancelled && hasModel && create.Pass? && (request.imagePath.Some? ==> image.present && image.decodes))
      && (request.imagePath.Some? && !image.present ==> r == Some(Rejected(FileNotFound, ImageMissingText(request.imagePath.value))))
      && (request.imagePath.Some? && image.present && !cancelled && !image.decodes ==> r == Some(Rejected(InvalidImage, DecodeFailedText)))
      && (request.imagePath.None? ==> r.None? || (r.value.code != FileNotFound && r.value.code != InvalidImage))
  {
  }

  /** How a streaming job settles once the engine is done (final result or
      timeout): an engine error wins, then a cancellation noticed on the
      way out of the session, then completion. */
  function EndReply(cancelled: bool, result: Outcome): Reply {
    if result.Fail? then Rejected(GenerateError, result.message)
    else if cancelled then Rejected(CancelledCode, StoppedByUserText)
    else Resolved(CompletedText)
  }

  /** A job that was not cancelled and met no engine error completes; a
      cancelled one never reports completion. */
  lemma EndCases(cancelled: bool, result: Outcome)
    ensures EndReply(cancelled, result) == Resolved(CompletedText) <==> !cancelled && result.Pass?
    ensures EndReply(cancelled, result).Rejected? ==>
      EndReply(cancelled, result).code in {GenerateError, CancelledCode}
  {
  }

  class GemmaModule {
    /** `model` is not null. */
    var hasModel: bool
    /** The job `currentSession` belongs to, when there is one. */
    var currentSession: Option<nat>
    /** The id of `currentGenerationJob`, when there is one. */
    var currentJob: Option<nat>
    /** Every job launched so far, by id. */
    var jobs: map<nat, Phase>
    var nextJob: nat
    /** Jobs whose coroutine was cancelled. */
    var cancelledJobs: set<nat>
    /** Jobs whose session was told to stop generating. */
    var cancelledSessions: set<nat>
    /** The `onGenerateToken` payloads sent, in order. */
    var events: seq<string>

    constructor()
      ensures Valid()
      ensures !hasModel && currentSession == None && currentJob == None
      ensures jobs == map[] && nextJob == 0 && cancelledJobs == {} && cancelledSessions == {} && events == []
    {
      hasModel := false;
      currentSession := None;
      currentJob := None;
      jobs := map[];
      nextJob := 0;
      cancelledJobs := {};
      cancelledSessions := {};
      events := [];
    }

    /** Ids are handed out in order; the current job has not ended; the
        current session belongs to a job that is streaming. */
    ghost predicate Valid()
      reads this
    {
      && (forall j :: j in jobs ==> j < nextJob)
      && (currentJob.Some? ==> currentJob.value in jobs && !jobs[currentJob.value].Ended?)
      && (currentSession.Some? ==> currentSession.value in jobs && jobs[currentSession.value].Streaming?)
    }

    /** `loadModel`: only a successful load touches the model. */
    method LoadModel(path: string, present: bool, length: int, create: Outcome) returns (reply: Reply)
      requires Valid()
      modifies this
      ensures Valid()
      ensures reply == LoadReply(path, present, length, create)
      ensures hasModel == (old(hasModel) || reply.Resolved?)
      ensures currentSession == old(currentSession) && currentJob == old(currentJob) && jobs == old(jobs)
      ensures nextJob == old(nextJob) && cancelledJobs == old(cancelledJobs)
      ensures cancelledSessions == old(cancelledSessions) && events == old(events)
    {
      if !present {
        return Rejected(LoadError, NotFoundText(path));
      }
      if length == 0 {
        return Rejected(LoadError, EmptyFileText(path));
      }
      if create.Fail? {
        return Rejected(LoadError, create.message);
      }
      hasModel := true;
      reply := Resolved(LoadedText);
    }

    /** The shared front of `generate` and `generateWithImage`: refuse
        without a model, otherwise launch a job and make it the current one.
        Nothing is refused for being busy and the previous job is left
        running. */
    method Launch(request: Request) returns (rejection: Option<Reply>, job: Option<nat>)
      requires Valid()
      modifies this
      ensures Valid()
      ensures !old(hasModel) ==> rejection == Some(Rejected(NoModel, NotLoadedText)) && job == None && unchanged(this)
      ensures old(hasModel) ==>
        && rejection == None && job == Some(old(nextJob)) && currentJob == job
        && jobs == old(jobs)[old(nextJob) := Launched(request)] && nextJob == old(nextJob) + 1
        && hasModel && currentSession == old(currentSession) && cancelledJobs == old(cancelledJobs)
        && cancelledSessions == old(cancelledSessions) && events == old(events)
    {
      if !hasModel {
        return Some(Rejected(NoModel, NotLoadedText)), None;
      }
      job := Some(nextJob);
      jobs := jobs[nextJob := Launched(request)];
      currentJob := job;
      nextJob := nextJob + 1;
      rejection := None;
    }

    /** `generate`. */
    method Generate(prompt: string) returns (rejection: Option<Reply>, job: Option<nat>)
      requires Valid()
      modifies this
      ensures Valid()
      ensures !old(hasModel) ==> rejection == Some(Rejected(NoModel, NotLoadedText)) && job == None && unchanged(this)
      ensures old(hasModel) ==>
        && rejection == None && job == Some(old(nextJob)) && currentJob == job
        && jobs == old(jobs)[old(nextJob) := Launched(Request(prompt, None))] && nextJob == old(nextJob) + 1
        && hasModel && currentSession == old(currentSession) && cancelledJobs == old(cancelledJobs)
        && cancelledSessions == old(cancelledSessions) && events == old(events)
    {
      rejection, job := Launch(Request(prompt, None));
    }

    /** `generateWithImage`. */
    method GenerateWithImage(prompt: string, imagePath: string) returns (rejection: Option<Reply>, job: Option<nat>)
      requires Valid()
      modifies this
      ensures Valid()
      ensures !old(hasModel) ==> rejection == Some(Rejected(NoModel, NotLoadedText)) && job == None && unchanged(this)
      ensures old(hasModel) ==>
        && rejection == None && job == Some(old(nextJob)) && currentJob == job
        && jobs == old(jobs)[old(nextJob) := Launched(Request(prompt, Some(imagePath)))] && nextJob == old(nextJob) + 1
        && hasModel && currentSession == old(currentSession) && cancelledJobs == old(cancelledJobs)
        && cancelledSessions == old(cancelledSessions) && events == old(events)
    {
      rejection, job := Launch(Request(prompt, Some(imagePath)));
    }

    /** A launched job starts running: it either opens a session and
        becomes the current session, or settles at once, and then its
        `finally` clears the current session and job, whichever job they
        belong to. */
    method BeginJob(id: nat, image: ImageFile, create: Outcome) returns (reply: Option<Reply>)
      requires Valid() && id in jobs && jobs[id].Launched?
      modifies this
      ensures Valid()
      ensures reply == BeginReply(old(jobs)[id].request, id in old(cancelledJobs), image, old(hasModel), create)
      ensures reply.None? ==>
        currentSession == Some(id) && currentJob == old(currentJob) && jobs == old(jobs)[id := Streaming]
      ensures reply.Some? ==>
        currentSession == None && currentJob == None && jobs == old(jobs)[id := Ended(reply.value)]
      ensures hasModel == old(hasModel) && nextJob == old(nextJob) && cancelledJobs == old(cancelledJobs)
      ensures cancelledSessions == old(cancelledSessions) && events == old(events)
    {
      reply := BeginReply(jobs[id].request, id in cancelledJobs, image, hasModel, create);
      if reply.None? {
        currentSession := Some(id);
        jobs := jobs[id := Streaming];
      } else {
        jobs := jobs[id := Ended(reply.value)];
        currentSession := None;
        currentJob := None;
      }
    }

    /** The engine's partial result for a streaming job is sent on as an
        event, cancelled or not. */
    method OnPartialResult(id: nat, partial: string)
      requires Valid() && id in jobs && jobs[id].Streaming?
      modifies this
      ensures Valid()
      ensures events == old(events) + [partial]
      ensures hasModel == old(hasModel) && currentSession == old(currentSession) && currentJob == old(currentJob)
      ensures jobs == old(jobs) && nextJob == old(nextJob)
      ensures cancelledJobs == old(cancelledJobs) && cancelledSessions == old(cancelledSessions)
    {
      events := events + [partial];
    }

    /** A streaming job ends; its `finally` clears the current session and
        job, whichever job they belong to. */
    method EndJob(id: nat, result: Outcome) returns (reply: Reply)
      requires Valid() && id in jobs && jobs[id].Streaming?
      modifies this
      ensures Valid()
      ensures reply == EndReply(id in old(cancelledJobs), result)
      ensures currentSession == None && currentJob == None && jobs == old(jobs)[id := Ended(reply)]
      ensures hasModel == old(hasModel) && nextJob == old(nextJob) && cancelledJobs == old(cancelledJobs)
      ensures cancelledSessions == old(cancelledSessions) && events == old(events)
    {
      reply := EndReply(id in cancelledJobs, result);
      jobs := jobs[id := Ended(reply)];
      currentSession := None;
      currentJob := None;
    }

    /** `stopGeneration`: cancel the current session's generation, then the
        current job; `cancel` is how the session's cancel call ends. The
        handles themselves stay until the job's `finally`. */
    method StopGeneration(cancel: Outcome) returns (reply: Reply)
      requires Valid()
      modifies this
      ensures Valid()
      ensures old(currentSession).Some? && cancel.Fail? ==>
        reply == Rejected(StopError, cancel.message) && unchanged(this)
      ensures old(currentSession).None? || cancel.Pass? ==>
        && reply == Resolved(StoppedText)
        && cancelledSessions == old(cancelledSessions) + (if old(currentSession).Some? then {old(currentSession).value} else {})
        && cancelledJobs == old(cancelledJobs) + (if old(currentJob).Some? then {old(currentJob).value} else {})
        && currentSession == old(currentSession) && currentJob == old(currentJob)
        && hasModel == old(hasModel) && jobs == old(jobs) && nextJob == old(nextJob) && events == old(events)
    {
      if currentSession.Some? {
        if cancel.Fail? {
          return Rejected(StopError, cancel.message);
        }
        cancelledSessions := cancelledSessions + {currentSession.value};
      }
      if currentJob.Some? {
        cancelledJobs := cancelledJobs + {currentJob.value};
      }
      reply := Resolved(StoppedText);
    }

    /** `unloadModel`: cancel and forget the current session and job, then
        close and drop the model; `cancel` and `close` are how the session's
        cancel call and the model's close end. */
    method UnloadModel(cancel: Outcome, close: Outcome) returns (reply: Reply)
      requires Valid()
      modifies this
      ensures Valid()
      ensures old(currentSession).Some? && cancel.Fail? ==>
        reply == Rejected(UnloadError, cancel.message) && unchanged(this)
      ensures old(currentSession).None? || cancel.Pass? ==>
        && currentSession == None && currentJob == None
        && cancelledSessions == old(cancelledSessions) + (if old(currentSession).Some? then {old(currentSession).value} else {})
        && cancelledJobs == old(cancelledJobs) + (if old(currentJob).Some? then {old(currentJob).value} else {})
        && jobs == old(jobs) && nextJob == old(nextJob) && events == old(events)
        && (if old(hasModel) && close.Fail?
            then reply == Rejected(UnloadError, close.message) && hasModel
            else reply == Resolved(UnloadedText) && !hasModel)
    {
      if currentSession.Some? {
        if cancel.Fail? {
          return Rejected(UnloadError, cancel.message);
        }
        cancelledSessions := cancelledSessions + {currentSession.value};
      }
      currentSession := None;
      if currentJob.Some? {
        cancelledJobs := cancelledJobs + {currentJob.value};
      }
      currentJob := None;
      if hasModel && close.Fail? {
        return Rejected(UnloadError, close.message);
      }
      hasModel := false;
      reply := Resolved(UnloadedText);
    }
  }

  /** An older job that ends while a newer one streams clears the handles
      of the newer one, so a later `stopGeneration` cannot reach it: the
      newer job is neither cancelled nor ended. */
  method StaleEndOrphansNewerJob() returns (newer: nat, m: GemmaModule)
    ensures newer in m.jobs && m.jobs[newer].Streaming?
    ensures newer !in m.cancelledJobs && newer !in m.cancelledSessions
  {
    m := new GemmaModule();
    var _ := m.LoadModel("m", true, 1, Pass);
    var _, older := m.Generate("a");
    var _ := m.BeginJob(older.value, ImageFile(true, true, true), Pass);
    var _, second := m.Generate("b");
    newer := second.value;
    var _ := m.BeginJob(newer, ImageFile(true, true, true), Pass);
    var _ := m.EndJob(older.value, Pass);
    var _ := m.StopGeneration(Pass);
  }
}
