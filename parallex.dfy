/** The orchestrator: `parallex` / `_execute` for a PDF and
    `parallex_simple_prompts` / `_prompts_execute` for a list of prompts.

    Both start one batch job per uploaded batch file and gather them; with
    no post-process callable they return the jobs at once. Otherwise they
    wait for every batch, gather the per-batch result lists, flatten them,
    sort them stably by page number or prompt index, build the output,
    hand it to the callable once and return it. The outer functions log and
    re-raise any exception and, only when a callable was given, delete the
    files registered at the provider, whatever the outcome.

    Every step behind an `await` is a parameter holding its outcome:
    preparing the upload (fetching the PDF, rendering pages, uploading
    them), `_create_batch_jobs` for a file, `wait_and_create_pages` /
    `wait_and_create_prompt_responses` for a batch, the callable, and
    `delete_file`. */
module Parallex {
  import opened Common
  import opened Uuids
  import opened Records
  import opened UploadBatchModel
  import opened FanIn

  /** The output handed to the callable by `_execute`. */
  datatype ParallexCallableOutput =
    ParallexCallableOutput(fileName: string, pdfSourceUrl: string, traceId: Uuid, pages: seq<PageResponse>)

  /** The output handed to the callable by `_prompts_execute`; `R` is the
      type of one prompt's response. */
  datatype ParallexPromptsCallableOutput<R> =
    ParallexPromptsCallableOutput(originalPrompts: seq<string>, traceId: Uuid, responses: seq<R>)

  /** What `_execute` had once the PDF was fetched, rendered and uploaded:
      the raw file's name, source and trace id, and the batch files. */
  datatype PdfUpload = PdfUpload(givenName: string, pdfSourceUrl: string, traceId: Uuid, batchFiles: seq<BatchFile>)

  /** What the orchestrator returns: the batch jobs when there is no
      callable, else the output. */
  datatype Returned<O> = Jobs(jobs: seq<UploadBatch>) | Output(output: O)

  /** A run: its result (returned or raised), the batches it waited on and
      the arguments the callable was invoked with, in order. */
  datatype Run<O> = Run(result: Result<Returned<O>, Exception>, awaited: seq<UploadBatch>, callbackCalls: seq<O>)

  /** `_create_batch_jobs(batch_file, client, trace_id, semaphore)` for a
      file id. */
  type JobCreator = (FileId, Uuid) -> Result<UploadBatch, Exception>

  /** The user's callable: None when it returns, else what it raised. */
  type Callback<!O> = O -> Option<Exception>

  function PageNumber(p: PageResponse): int {
    p.pageNumber
  }

  /** One create task per batch file, in file order. */
  function CreateTasks(batchFiles: seq<BatchFile>, traceId: Uuid, createJob: JobCreator)
    : (r: seq<Result<UploadBatch, Exception>>)
    ensures |r| == |batchFiles| && forall i | 0 <= i < |r| :: r[i] == createJob(batchFiles[i].id, traceId)
  {
    seq(|batchFiles|, i requires 0 <= i < |batchFiles| => createJob(batchFiles[i].id, traceId))
  }

  /** One wait task per batch job, in job order. */
  function AwaitTasks<R>(batchJobs: seq<UploadBatch>, waitAndCreate: UploadBatch -> Result<seq<R>, Exception>)
    : (r: seq<Result<seq<R>, Exception>>)
    ensures |r| == |batchJobs| && forall i | 0 <= i < |r| :: r[i] == waitAndCreate(batchJobs[i])
  {
    seq(|batchJobs|, i requires 0 <= i < |batchJobs| => waitAndCreate(batchJobs[i]))
  }

  /** The loop creating one task per batch file, then `asyncio.gather`. */
  method StartBatchJobs(batchFiles: seq<BatchFile>, traceId: Uuid, createJob: JobCreator)
    returns (batchJobs: Result<seq<UploadBatch>, Exception>)
    ensures batchJobs == Gather(CreateTasks(batchFiles, traceId, createJob))
  {
    var startBatchTasks: seq<Result<UploadBatch, Exception>> := [];
    for i := 0 to |batchFiles|
      invariant startBatchTasks == CreateTasks(batchFiles[..i], traceId, createJob)
    {
      startBatchTasks := startBatchTasks + [createJob(batchFiles[i].id, traceId)];
    }
    assert batchFiles[..|batchFiles|] == batchFiles;
    batchJobs := Gather(startBatchTasks);
  }

  /** The loop creating one wait task per batch job, then `asyncio.gather`. */
  method AwaitBatches<R>(batchJobs: seq<UploadBatch>, waitAndCreate: UploadBatch -> Result<seq<R>, Exception>)
    returns (groups: Result<seq<seq<R>>, Exception>)
    ensures groups == Gather(AwaitTasks(batchJobs, waitAndCreate))
  {
    var tasks: seq<Result<seq<R>, Exception>> := [];
    for i := 0 to |batchJobs|
      invariant tasks == AwaitTasks(batchJobs[..i], waitAndCreate)
    {
      tasks := tasks + [waitAndCreate(batchJobs[i])];
    }
    assert batchJobs[..|batchJobs|] == batchJobs;
    groups := Gather(tasks);
  }

  /** What `_execute` does. */
  function ExecuteRun(prepare: Result<PdfUpload, Exception>, createJob: JobCreator,
                      waitAndCreatePages: UploadBatch -> Result<seq<PageResponse>, Exception>,
                      callback: Option<Callback<ParallexCallableOutput>>): Run<ParallexCallableOutput>
  {
    match prepare
    case Failure(e) => Run(Failure(e), [], [])
    case Success(upload) =>
      match Gather(CreateTasks(upload.batchFiles, upload.traceId, createJob))
      case Failure(e) => Run(Failure(e), [], [])
      case Success(batchJobs) =>
        if callback.None? then Run(Success(Jobs(batchJobs)), [], [])
        else
          match Gather(AwaitTasks(batchJobs, waitAndCreatePages))
          case Failure(e) => Run(Failure(e), batchJobs, [])
          case Success(pageGroups) =>
            var output := ParallexCallableOutput(upload.givenName, upload.pdfSourceUrl, upload.traceId,
                                                 SortByKey(Flatten(pageGroups), PageNumber));
            match callback.value(output)
            case Some(e) => Run(Failure(e), batchJobs, [output])
            case None => Run(Success(Output(output)), batchJobs, [output])
  }

  /** `_execute(...)`. */
  method Execute(prepare: Result<PdfUpload, Exception>, createJob: JobCreator,
                 waitAndCreatePages: UploadBatch -> Result<seq<PageResponse>, Exception>,
                 callback: Option<Callback<ParallexCallableOutput>>)
    returns (result: Result<Returned<ParallexCallableOutput>, Exception>, awaited: seq<UploadBatch>,
             callbackCalls: seq<ParallexCallableOutput>)
    ensures Run(result, awaited, callbackCalls) == ExecuteRun(prepare, createJob, waitAndCreatePages, callback)
  {
    awaited, callbackCalls := [], [];
    if prepare.Failure? {
      return Failure(prepare.error), awaited, callbackCalls;
    }
    var upload := prepare.value;
    var batchJobs := StartBatchJobs(upload.batchFiles, upload.traceId, createJob);
    if batchJobs.Failure? {
      return Failure(batchJobs.error), awaited, callbackCalls;
    }
    if callback.None? {
      return Success(Jobs(batchJobs.value)), awaited, callbackCalls;
    }
    awaited := batchJobs.value;
    var pageGroups := AwaitBatches(batchJobs.value, waitAndCreatePages);
    if pageGroups.Failure? {
      return Failure(pageGroups.error), awaited, callbackCalls;
    }
    var pages := Flatten(pageGroups.value);
    var sortedPages := SortByKey(pages, PageNumber);
    var output := ParallexCallableOutput(upload.givenName, upload.pdfSourceUrl, upload.traceId, sortedPages);
    callbackCalls := [output];
    var raised := callback.value(output);
    if raised.Some? {
      return Failure(raised.value), awaited, callbackCalls;
    }
    result := Success(Output(output));
  }

  /** What `_prompts_execute` does, once the prompts are uploaded. */
  function PromptsExecuteRun<R>(prompts: seq<string>, traceId: Uuid, upload: Result<seq<BatchFile>, Exception>,
                                createJob: JobCreator, waitAndCreateResponses: UploadBatch -> Result<seq<R>, Exception>,
                                promptIndex: R -> int, callback: Option<Callback<ParallexPromptsCallableOutput<R>>>)
    : Run<ParallexPromptsCallableOutput<R>>
  {
    match upload
    case Failure(e) => Run(Failure(e), [], [])
    case Success(batchFiles) =>
      match Gather(CreateTasks(batchFiles, traceId, createJob))
      case Failure(e) => Run(Failure(e), [], [])
      case Success(batchJobs) =>
        if callback.None? then Run(Success(Jobs(batchJobs)), [], [])
        else
          match Gather(AwaitTasks(batchJobs, waitAndCreateResponses))
          case Failure(e) => Run(Failure(e), batchJobs, [])
          case Success(responseGroups) =>
            var output := ParallexPromptsCallableOutput(prompts, traceId,
                                                        SortByKey(Flatten(responseGroups), promptIndex));
            match callback.value(output)
            case Some(e) => Run(Failure(e), batchJobs, [output])
            case None => Run(Success(Output(output)), batchJobs, [output])
  }

  /** `_prompts_execute(...)`, with `traceId` the fresh `uuid.uuid4()`. */
  method PromptsExecute<R>(prompts: seq<string>, traceId: Uuid, upload: Result<seq<BatchFile>, Exception>,
                           createJob: JobCreator, waitAndCreateResponses: UploadBatch -> Result<seq<R>, Exception>,
                           promptIndex: R -> int, callback: Option<Callback<ParallexPromptsCallableOutput<R>>>)
    returns (result: Result<Returned<ParallexPromptsCallableOutput<R>>, Exception>, awaited: seq<UploadBatch>,
             callbackCalls: seq<ParallexPromptsCallableOutput<R>>)
    ensures Run(result, awaited, callbackCalls)
         == PromptsExecuteRun(prompts, traceId, upload, createJob, waitAndCreateResponses, promptIndex, callback)
  {
    awaited, callbackCalls := [], [];
    if upload.Failure? {
      return Failure(upload.error), awaited, callbackCalls;
    }
    var batchJobs := StartBatchJobs(upload.value, traceId, createJob);
    if batchJobs.Failure? {
      return Failure(batchJobs.error), awaited, callbackCalls;
    }
    if callback.None? {
      return Success(Jobs(batchJobs.value)), awaited, callbackCalls;
    }
    awaited := batchJobs.value;
    var responseGroups := AwaitBatches(batchJobs.value, waitAndCreateResponses);
    if responseGroups.Failure? {
      return Failure(responseGroups.error), awaited, callbackCalls;
    }
    var flatResponses := Flatten(responseGroups.value);
    var sortedResponses := SortByKey(flatResponses, promptIndex);
    var output := ParallexPromptsCallableOutput(prompts, traceId, sortedResponses);
    callbackCalls := [output];
    var raised := callback.value(output);
    if raised.Some? {
      return Failure(raised.value), awaited, callbackCalls;
    }
    result := Success(Output(output));
  }

  // ---- cleanup ----

  /** The files whose deletion raised, with what it raised, in order. */
  function DeleteFailures(createdFiles: seq<FileId>, deleteFile: FileId -> Option<Exception>)
    : seq<(FileId, Exception)>
  {
    if |createdFiles| == 0 then []
    else
      (match deleteFile(createdFiles[0])
       case Some(e) => [(createdFiles[0], e)]
       case None => [])
      + DeleteFailures(createdFiles[1..], deleteFile)
  }

  /** `delete_associated_files(open_ai_client, remote_file_handler)`: one
      delete attempt per registered file, in order; a failing delete is
      logged as a warning and the loop goes on, so the call never raises.
      `warnings` lists the failed deletes. */
  method DeleteAssociatedFiles(createdFiles: seq<FileId>, deleteFile: FileId -> Option<Exception>)
    returns (attempts: seq<FileId>, warnings: seq<(FileId, Exception)>)
    ensures attempts == createdFiles
    ensures warnings == DeleteFailures(createdFiles, deleteFile)
  {
    attempts, warnings := [], [];
    for i := 0 to |createdFiles|
      invariant attempts == createdFiles[..i]
      invariant warnings + DeleteFailures(createdFiles[i..], deleteFile) == DeleteFailures(createdFiles, deleteFile)
    {
      attempts := attempts + [createdFiles[i]];
      var raised := deleteFile(createdFiles[i]);
      assert createdFiles[i..][1..] == createdFiles[i + 1..];
      if raised.Some? {
        warnings := warnings + [(createdFiles[i], raised.value)];
      }
    }
    assert createdFiles[..|createdFiles|] == createdFiles;
  }

  /** A warning is logged for a file exactly when it is registered and its
      delete raised; nothing else is reported. */
  lemma {:induction false} DeleteFailuresMembers(createdFiles: seq<FileId>, deleteFile: FileId -> Option<Exception>,
                                                 f: FileId, e: Exception)
    ensures (f, e) in DeleteFailures(createdFiles, deleteFile) <==> f in createdFiles && deleteFile(f) == Some(e)
  {
    if |createdFiles| > 0 {
      DeleteFailuresMembers(createdFiles[1..], deleteFile, f, e);
      assert createdFiles == [createdFiles[0]] + createdFiles[1..];
    }
  }

  /** `parallex(...)`: `_execute`, with any exception re-raised unchanged,
      and in `finally` the cleanup when a callable was given. */
  method Parallex(prepare: Result<PdfUpload, Exception>, createJob: JobCreator,
                  waitAndCreatePages: UploadBatch -> Result<seq<PageResponse>, Exception>,
                  callback: Option<Callback<ParallexCallableOutput>>,
                  createdFiles: seq<FileId>, deleteFile: FileId -> Option<Exception>)
    returns (result: Result<Returned<ParallexCallableOutput>, Exception>,
             callbackCalls: seq<ParallexCallableOutput>, deleteAttempts: seq<FileId>)
    ensures var run := ExecuteRun(prepare, createJob, waitAndCreatePages, callback);
      result == run.result && callbackCalls == run.callbackCalls
    ensures deleteAttempts == if callback.Some? then createdFiles else []
  {
    var awaited;
    result, awaited, callbackCalls := Execute(prepare, createJob, waitAndCreatePages, callback);
    deleteAttempts := [];
    if callback.Some? {
      var warnings;
      deleteAttempts, warnings := DeleteAssociatedFiles(createdFiles, deleteFile);
    }
  }

  /** `parallex_simple_prompts(...)`: `_prompts_execute`, with any exception
      re-raised unchanged, and the cleanup when a callable was given. */
  method ParallexSimplePrompts<R>(prompts: seq<string>, traceId: Uuid, upload: Result<seq<BatchFile>, Exception>,
                                  createJob: JobCreator,
                                  waitAndCreateResponses: UploadBatch -> Result<seq<R>, Exception>,
                                  promptIndex: R -> int,
                                  callback: Option<Callback<ParallexPromptsCallableOutput<R>>>,
                                  createdFiles: seq<FileId>, deleteFile: FileId -> Option<Exception>)
    returns (result: Result<Returned<ParallexPromptsCallableOutput<R>>, Exception>,
             callbackCalls: seq<ParallexPromptsCallableOutput<R>>, deleteAttempts: seq<FileId>)
    ensures var run := PromptsExecuteRun(prompts, traceId, upload, createJob, waitAndCreateResponses, promptIndex, callback);
      result == run.result && callbackCalls == run.callbackCalls
    ensures deleteAttempts == if callback.Some? then createdFiles else []
  {
    var awaited;
    result, awaited, callbackCalls :=
      PromptsExecute(prompts, traceId, upload, createJob, waitAndCreateResponses, promptIndex, callback);
    deleteAttempts := [];
    if callback.Some? {
      var warnings;
      deleteAttempts, warnings := DeleteAssociatedFiles(createdFiles, deleteFile);
    }
  }

  // ---- properties of a run ----

  /** Without a callable, `_execute` returns the gathered jobs, one per
      batch file and in file order, and neither waits on a batch nor calls
      anything; with one, it never returns the jobs. */
  lemma ExecuteWithoutCallback(prepare: Result<PdfUpload, Exception>, createJob: JobCreator,
                               waitAndCreatePages: UploadBatch -> Result<seq<PageResponse>, Exception>,
                               callback: Option<Callback<ParallexCallableOutput>>)
    ensures var run := ExecuteRun(prepare, createJob, waitAndCreatePages, callback);
      callback.None? ==>
        && run.awaited == [] && run.callbackCalls == []
        && (run.result.Success? ==>
              && run.result.value.Jobs?
              && var files := prepare.value.batchFiles;
                 |run.result.value.jobs| == |files|
                 && forall i | 0 <= i < |files| ::
                      createJob(files[i].id, prepare.value.traceId) == Success(run.result.value.jobs[i]))
    ensures var run := ExecuteRun(prepare, createJob, waitAndCreatePages, callback);
      callback.Some? && run.result.Success? ==> run.result.value.Output?
  {
    if prepare.Success? {
      GatherSuccess(CreateTasks(prepare.value.batchFiles, prepare.value.traceId, createJob));
    }
  }

  /** The pages handed to the callable and returned are the pages of all
      batches, in ascending page order, none added or dropped, pages with
      equal numbers keeping their batch order; the output carries the raw
      file's name, source and trace id; and the callable ran exactly once,
      on that output. */
  lemma ExecuteOutput(prepare: Result<PdfUpload, Exception>, createJob: JobCreator,
                      waitAndCreatePages: UploadBatch -> Result<seq<PageResponse>, Exception>,
                      callback: Option<Callback<ParallexCallableOutput>>)
    requires ExecuteRun(prepare, createJob, waitAndCreatePages, callback).result.Success?
    requires ExecuteRun(prepare, createJob, waitAndCreatePages, callback).result.value.Output?
    ensures var run := ExecuteRun(prepare, createJob, waitAndCreatePages, callback);
      var output := run.result.value.output;
      var upload := prepare.value;
      var jobs := Gather(CreateTasks(upload.batchFiles, upload.traceId, createJob)).value;
      var groups := Gather(AwaitTasks(jobs, waitAndCreatePages)).value;
      && |groups| == |jobs| == |upload.batchFiles| && run.awaited == jobs
      && (forall i | 0 <= i < |jobs| :: waitAndCreatePages(jobs[i]) == Success(groups[i]))
      && SortedByKey(output.pages, PageNumber)
      && multiset(output.pages) == multiset(Flatten(groups))
      && (forall k :: WithKey(output.pages, PageNumber, k) == WithKey(Flatten(groups), PageNumber, k))
      && output.fileName == upload.givenName && output.pdfSourceUrl == upload.pdfSourceUrl
      && output.traceId == upload.traceId
      && run.callbackCalls == [output]
  {
    var upload := prepare.value;
    GatherSuccess(CreateTasks(upload.batchFiles, upload.traceId, createJob));
    var jobs := Gather(CreateTasks(upload.batchFiles, upload.traceId, createJob)).value;
    GatherSuccess(AwaitTasks(jobs, waitAndCreatePages));
    var groups := Gather(AwaitTasks(jobs, waitAndCreatePages)).value;
    SortByKeySorted(Flatten(groups), PageNumber);
    SortByKeyPermutation(Flatten(groups), PageNumber);
    forall k
      ensures WithKey(SortByKey(Flatten(groups), PageNumber), PageNumber, k) == WithKey(Flatten(groups), PageNumber, k)
    {
      SortByKeyStable(Flatten(groups), PageNumber, k);
    }
  }

  /** The same for prompts: the responses are those of all batches, in
      ascending prompt order, none added or dropped, ties keeping their
      batch order; the output carries the original prompts and the trace
      id; and the callable ran exactly once, on that output. */
  lemma PromptsExecuteOutput<R>(prompts: seq<string>, traceId: Uuid, upload: Result<seq<BatchFile>, Exception>,
                                createJob: JobCreator, waitAndCreateResponses: UploadBatch -> Result<seq<R>, Exception>,
                                promptIndex: R -> int, callback: Option<Callback<ParallexPromptsCallableOutput<R>>>)
    requires PromptsExecuteRun(prompts, traceId, upload, createJob, waitAndCreateResponses, promptIndex, callback).result.Success?
    requires PromptsExecuteRun(prompts, traceId, upload, createJob, waitAndCreateResponses, promptIndex, callback).result.value.Output?
    ensures var run := PromptsExecuteRun(prompts, traceId, upload, createJob, waitAndCreateResponses, promptIndex, callback);
      var output := run.result.value.output;
      var jobs := Gather(CreateTasks(upload.value, traceId, createJob)).value;
      var groups := Gather(AwaitTasks(jobs, waitAndCreateResponses)).value;
      && |groups| == |jobs| == |upload.value| && run.awaited == jobs
      && SortedByKey(output.responses, promptIndex)
      && multiset(output.responses) == multiset(Flatten(groups))
      && (forall k :: WithKey(output.responses, promptIndex, k) == WithKey(Flatten(groups), promptIndex, k))
      && output.originalPrompts == prompts && output.traceId == traceId
      && run.callbackCalls == [output]
  {
    GatherSuccess(CreateTasks(upload.value, traceId, createJob));
    var jobs := Gather(CreateTasks(upload.value, traceId, createJob)).value;
    GatherSuccess(AwaitTasks(jobs, waitAndCreateResponses));
    var groups := Gather(AwaitTasks(jobs, waitAndCreateResponses)).value;
    SortByKeySorted(Flatten(groups), promptIndex);
    SortByKeyPermutation(Flatten(groups), promptIndex);
    forall k
      ensures WithKey(SortByKey(Flatten(groups), promptIndex), promptIndex, k) == WithKey(Flatten(groups), promptIndex, k)
    {
      SortByKeyStable(Flatten(groups), promptIndex, k);
    }
  }

  /** The callable runs at most once, and only when one was given; when the
      call returns an output, the callable ran on exactly that output. */
  lemma ExecuteCallsCallbackOnce(prepare: Result<PdfUpload, Exception>, createJob: JobCreator,
                                 waitAndCreatePages: UploadBatch -> Result<seq<PageResponse>, Exception>,
                                 callback: Option<Callback<ParallexCallableOutput>>)
    ensures var run := ExecuteRun(prepare, createJob, waitAndCreatePages, callback);
      && |run.callbackCalls| <= 1
      && (callback.None? ==> run.callbackCalls == [])
      && (run.result.Success? && run.result.value.Output? ==> run.callbackCalls == [run.result.value.output])
      && (|run.callbackCalls| == 1 && callback.value(run.callbackCalls[0]).Some? ==>
            run.result == Failure(callback.value(run.callbackCalls[0]).value))
  {
  }
}
