# parallex, modelled in Dafny

parallex turns a PDF into markdown by using the OpenAI Batch API. It
fetches the PDF and renders each page as an image. Each page becomes a
one-line JSONL request file, and each file is uploaded. A batch job is
created per file, the jobs are polled until they finish, and every page
comes back as a response line. The orchestrator gathers the pages, sorts
them by page number and hands them to a user callable. When a callable was
given, the files it registered at the provider are then deleted. A second
entry point does the same for a list of plain prompts.

This project models the core of that pipeline and proves its properties:

- `batch_processor.dfy`, module `BatchProcessor`:
  - `create_batch`, the retry loop with exponential backoff;
  - `wait_for_batch_completion`, the polling loop.
- `parallex.dfy`, module `Parallex`:
  - `_execute` and `_prompts_execute`: the fan-out loops, the gathers,
    the early return without a callable, flatten, stable sort, the output
    and the single callable invocation;
  - `parallex` and `parallex_simple_prompts`: re-raise, and cleanup in
    `finally`;
  - `delete_associated_files`.
- `output_processor.dfy`, module `OutputProcessor`: `process_output`.
- `uploader.dfy`, module `Uploader`:
  - the upload file name (also the `custom_id`);
  - `_jsonl_format` and `_prompt_text`;
  - `upload_image_for_processing`.
- `upload_batch.dfy`, module `UploadBatchModel`: the `UploadBatch` record
  and `build_batch`.
- `file_finder.dfy`, module `FileFinder`: `_determine_file_name` and
  `add_file_to_temp_directory`.

Supporting modules:

- `Common`: `Result`, `Option` and the exceptions.
- `Uuids`: `str(uuid)`.
- `Strings`: `strip`, `split`, `join` and `str(int)`.
- `Json`: JSON values and subscripting.
- `FanIn`: `asyncio.gather` over known outcomes, flattening, and a stable
  sort by key.
- `Records`: the plain records.

Effects are out-parameters or parameters:

- Every provider call is a function parameter that gives the call's
  outcome: the response, or the exception it raised. Calls that repeat are
  indexed by attempt or poll number.
- `asyncio.sleep(d)` appends `d` to a returned list of delays.
- A written file is returned as its path and contents.
- A callable invocation is returned as the list of arguments it was
  called with.
- A delete is returned as the list of ids attempted.

The loops are methods with loop invariants. Each is proved equal to a
recursive specification function, and the properties are lemmas about
that function.

## Model

| member | source | states |
|---|---|---|
| BatchProcessor.CreateBatch | parallex/ai/batch_processor.py:10-28 | the loop's result, attempt count and slept delays are exactly the run `CreateFrom` specifies from attempt 0 with a 5 s backoff |
| BatchProcessor.CreateFromEnds | parallex/ai/batch_processor.py:17-26 | a run ends at its first attempt that is not retried, at the tenth at the latest; it returns or raises that attempt's outcome, and it slept once per earlier attempt |
| BatchProcessor.CreateFromRetries | parallex/ai/batch_processor.py:24-26 | every attempt before the last one raised BadRequestError and was not the tenth |
| BatchProcessor.CreateFromDelays | parallex/ai/batch_processor.py:27-28 | the i-th sleep is the backoff of attempt i: the delay doubles after every sleep |
| BatchProcessor.CreateBatchContract | parallex/ai/batch_processor.py:14-28 | 1 to 10 attempts; the result is the last attempt's outcome; all earlier attempts raised BadRequestError; one sleep per earlier attempt, the k-th lasting `Backoff(k)` |
| BatchProcessor.CreateBatchStopsAt | parallex/ai/batch_processor.py:19-26 | after n BadRequestErrors, a success, another exception or the tenth attempt ends the run at once: n + 1 attempts, n sleeps, that attempt's outcome (no sleep before a non-BadRequest exception) |
| BatchProcessor.CreateBatchAllBadRequests | parallex/ai/batch_processor.py:24-28 | when every attempt raises BadRequestError: 10 attempts, sleeps of 5, 10, 20, ..., 1280 s, and the tenth error is raised |
| BatchProcessor.CreateBatchBackoffIncreasing | parallex/ai/batch_processor.py:27-28 | each sleep lasts strictly longer than the one before |
| BatchProcessor.BackoffSchedule | parallex/ai/batch_processor.py:15-28 | the backoffs of attempts 0 to 8 are 5, 10, ..., 1280 s, i.e. 5·2^k |
| BatchProcessor.BackoffIncreasing | parallex/ai/batch_processor.py:27-28 | the backoff strictly increases with the attempt number |
| BatchProcessor.WaitForBatchCompletion | parallex/ai/batch_processor.py:31-42 | the loop's outcome and delays are exactly the run `WaitFrom` specifies with exits "completed", "failed", "canceled" |
| BatchProcessor.WaitStopsAt | parallex/ai/batch_processor.py:35-42 | if polls before n continue and poll n does not, the loop ends at poll n after n + 1 sleeps (5 s, then 300 s each); the outcome is the output file id on "completed", None on another exit status, or the retrieve exception |
| BatchProcessor.WaitKeepsPolling | parallex/ai/batch_processor.py:35-42 | while every poll reports a status outside the exits, the loop neither returns nor raises, and it sleeps before every poll |
| BatchProcessor.WaitDelays | parallex/ai/batch_processor.py:33-42 | the loop always polls at least once; it sleeps 5 s before the first poll and 300 s before each later one; it polls at most as often as observed |
| BatchProcessor.CancelledPollsForever | parallex/ai/batch_processor.py:35 | as written, a batch reported "cancelled" keeps the loop polling for any number of polls |
| BatchProcessor.CorrectedStopsOnFinal | parallex/ai/batch_processor.py:35-40 | with the provider's final statuses as exits, the loop stops at the first final status, returning the output file id for "completed" and None otherwise |
| FanIn.GatherSuccess | parallex/parallex.py:295 | gather succeeds iff every task does; then it gives one result per task, in task order |
| FanIn.GatherFailsAtFirstFailure | parallex/parallex.py:295 | a failing gather raises the exception of the first failing task |
| FanIn.FlattenAppend | parallex/parallex.py:314 | flattening distributes over concatenation of group lists |
| FanIn.FlattenMembers | parallex/parallex.py:314 | an item is in the flat list iff it is in some group |
| FanIn.SortByKeySorted | parallex/parallex.py:316 | the sorted list is in ascending key order |
| FanIn.SortByKeyPermutation | parallex/parallex.py:316 | sorting neither adds nor drops items (same multiset) |
| FanIn.SortByKeyStable | parallex/parallex.py:316 | items with equal keys keep their relative order |
| Parallex.StartBatchJobs | parallex/parallex.py:283-295 | the append loop followed by gather yields the gather of one create task per file |
| Parallex.AwaitBatches | parallex/parallex.py:300-312 | the append loop followed by gather yields the gather of one wait task per job |
| Parallex.Execute | parallex/parallex.py:238-333 | the steps of `_execute` produce exactly the run `ExecuteRun` specifies: result, batches awaited and callable invocations |
| Parallex.PromptsExecute | parallex/parallex.py:145-235 | the steps of `_prompts_execute` produce exactly the run `PromptsExecuteRun` specifies |
| Parallex.ExecuteWithoutCallback | parallex/parallex.py:283-298 | without a callable, the jobs are returned (one per batch file, in file order), nothing is awaited and nothing is called; with one, jobs are never returned |
| Parallex.ExecuteOutput | parallex/parallex.py:300-327 | the output pages are all pages of all batches, sorted by page number, a permutation of the flattened groups, ties in batch order; name, source and trace id come from the raw file; the callable ran exactly once, on that output |
| Parallex.PromptsExecuteOutput | parallex/parallex.py:198-229 | the output responses are all responses, sorted by prompt index, a permutation, ties in batch order; it carries the original prompts and trace id; the callable ran exactly once, on it |
| Parallex.ExecuteCallsCallbackOnce | parallex/parallex.py:297-327 | the callable runs at most once and only when given; a returned output is the one it ran on; if it raised, that exception is the result |
| Parallex.DeleteAssociatedFiles | parallex/parallex.py:433-450 | one delete attempt per registered file, in order; the warnings are exactly the failed deletes; the call never raises |
| Parallex.DeleteFailuresMembers | parallex/parallex.py:443-450 | a warning is logged for a file iff it is registered and its delete raised |
| Parallex.Parallex | parallex/parallex.py:42-92 | the result (returned or re-raised unchanged) and the callable calls are those of `_execute`; the files are deleted iff a callable was given, on success and on failure |
| Parallex.ParallexSimplePrompts | parallex/parallex.py:95-142 | the same for `_prompts_execute` |
| OutputProcessor.ProcessOutput | parallex/ai/output_processor.py:7-19 | the loop returns or raises exactly what `ProcessOutputResult` specifies |
| OutputProcessor.Lines | parallex/ai/output_processor.py:9 | stripping and splitting yields at least one line |
| OutputProcessor.ProcessOutputSucceeds | parallex/ai/output_processor.py:7-19 | a page comes out iff the file is fetched and every line decodes to a document whose content path holds a string; then the text is those strings joined with "\r", one per line, and the page number is the argument |
| OutputProcessor.ProcessOutputRaisesAtFirstBadLine | parallex/ai/output_processor.py:13-16 | the first line that does not decode or lacks the content path raises its exception: no line is skipped |
| OutputProcessor.ProcessOutputEmptyRaises | parallex/ai/output_processor.py:9-14 | an empty or all-whitespace file still yields the line "", whose decoding raises |
| OutputProcessor.ProcessOutputSplitRecoversContents | parallex/ai/output_processor.py:19 | splitting the page text on "\r" gives back the contents when none contains "\r" |
| Strings.Split | parallex/ai/output_processor.py:9 | `split` gives at least one piece, and no piece contains the separator |
| Strings.StripIsSlice | parallex/ai/output_processor.py:9 | `strip()` keeps a contiguous middle part of the text |
| Strings.StripRemovesOnlySpace | parallex/ai/output_processor.py:9 | everything `strip()` removes is whitespace |
| Strings.StripEndsNonSpace | parallex/ai/output_processor.py:9 | what `strip()` keeps neither starts nor ends with whitespace |
| Strings.StripIdempotent | parallex/ai/output_processor.py:9 | stripping twice is stripping once |
| Strings.StripAppendSpace | parallex/ai/output_processor.py:9 | a trailing whitespace character does not change `strip()` |
| Strings.SplitJoin | parallex/ai/output_processor.py:19 | splitting a join gives back the parts when none contains the separator |
| Strings.JoinSplit | parallex/ai/output_processor.py:19 | joining a split gives back the text |
| Strings.ParseDecimalString | parallex/ai/uploader.py:20 | `str(n)` is read back as n, negative numbers included |
| Uuids.UuidString | parallex/ai/uploader.py:20 | `str(uuid)` has 36 characters: dashes at 8, 13, 18, 23 and lower-case hex digits elsewhere |
| Uuids.UuidStringInjective | parallex/ai/uploader.py:20 | distinct UUIDs render to distinct strings |
| Uuids.UuidStringHasNoDoubleDash | parallex/ai/uploader.py:20 | a rendered UUID never contains "--" and ends in a hex digit |
| Uploader.DecodeUploadFileNameRoundTrip | parallex/ai/uploader.py:20 | the trace id text and the page number are read back from the upload file name (the `custom_id`) |
| Uploader.UploadFileNameInjective | parallex/ai/uploader.py:20 | different (trace id, page number) pairs never share a file name |
| Uploader.JsonlFormatRequest | parallex/ai/uploader.py:39-43 | the record's `custom_id` is the file name, `method` is "POST" and `url` is "/chat/completions" |
| Uploader.JsonlFormatBody | parallex/ai/uploader.py:44-60 | `body.model` is the deployment (null when unset) and `body.max_tokens` is 2000 |
| Uploader.JsonlFormatMessage | parallex/ai/uploader.py:46-58 | `body.messages` holds exactly one message, with role "user" and content `MessageContent` |
| Uploader.MessageContentParts | parallex/ai/uploader.py:49-57 | the content has exactly two parts: the prompt text, then an `image_url` whose url is "data:image/png;base64," followed by the encoded image |
| Uploader.JsonlTextOneLine | parallex/ai/uploader.py:25-26 | the written text is the serialised record plus "\n": exactly one line once stripped and split |
| Uploader.UploadImageForProcessing | parallex/ai/uploader.py:11-35 | a failed image read raises before anything is written; otherwise the request line is written to the temp-dir path for the file name, that path is uploaded, and the BatchFile takes id, name, purpose and status from the response and the trace id from the image |
| UploadBatchModel.InvalidFields | parallex/models/upload_batch.py:32 | a field is listed as invalid iff its value has the wrong type for its declaration |
| UploadBatchModel.FromFieldsReadsBack | parallex/models/upload_batch.py:8-26 | an admissible field value is read back unchanged from the built record |
| UploadBatchModel.BuildBatchCopiesFields | parallex/models/upload_batch.py:28-32 | a built batch holds, for every field but `trace_id`, the same-named attribute of the provider object (None when absent); its `trace_id` is the argument |
| UploadBatchModel.BuildBatchFailsOnInvalidField | parallex/models/upload_batch.py:8-32 | the build fails iff some field other than `trace_id` has an inadmissible value (a required field absent or None included); the error names exactly those fields |
| UploadBatchModel.ConstructFails | parallex/models/upload_batch.py:32 | construction fails iff some field value is inadmissible, with a ValidationError listing them in declaration order |
| UploadBatchModel.BuildBatchIgnoresOtherAttributes | parallex/models/upload_batch.py:29-31 | an attribute that is not a field, or is `trace_id`, has no effect on the result |
| FileFinder.DetermineFileName | parallex/file_management/file_finder.py:19-24 | a name is produced iff the Content-Type is exactly "application/pdf" (otherwise ValueError, None included); it is the 36-character UUID string followed by ".pdf" |
| FileFinder.DetermineFileNameInjective | parallex/file_management/file_finder.py:24 | distinct UUIDs give distinct file names |
| FileFinder.AddFileToTempDirectory | parallex/file_management/file_finder.py:7-16 | an HTTP error or a rejected Content-Type raises before any file is written; otherwise the body's chunks, concatenated in order, are written to `temp_directory + "/" + name` and the name is returned |

## Left out

- Concurrency: the semaphores and task scheduling are not modelled. `asyncio.gather` is an order-preserving sequential map that raises the first failure in task order.
- Time: `asyncio.sleep` is a list of requested delays, not elapsed time.
- BatchProcessor.WaitForBatchCompletion: the source loop has no bound. The model observes at most `fuel` polls and reports `StillPolling` when the loop would poll again.
- Library calls are parameters: JSON serialisation and parsing, base64 encoding, `uuid.uuid4()`, the temp-file path helper and the environment variable holding the deployment name.
- I/O is not modelled: HTTP streaming, temporary directories, and reading and writing files.
- The provider client (`open_ai_client.py`) is a set of outcome oracles.
- The shown files come from different revisions, so calls between them do not line up:
  - `create_batch` passes `page_number` to a `build_batch` that does not take it, so `BatchProcessor` receives the builder as a parameter;
  - `_create_batch_jobs` omits `page_number`, and `wait_and_create_pages` passes `batch=`, so both are parameters of the orchestrator;
  - `process_output` uses the result of the asynchronous `retrieve_file` directly, and the model takes the file's text as an outcome.
- Modules not shown are parameters: `convert_pdf_to_images`, `upload_images_for_processing`, `upload_prompts_for_processing`, `process_images_output`, `process_prompts_output`, `RemoteFileHandler` (its `created_files` is a sequence of ids) and `constants`.
- Pydantic coercion is not modelled. A field accepts only a value of its declared type (or None when optional); lax-mode conversions such as "1" to 1 are out of scope.
- JSON numbers are integers only: the documents involved hold no other numbers.
- Logging is not modelled, nor are `temperature` and the other floating-point parameters, which are passed through and never computed on.

## Findings

| source | as written | input that shows it | evidently intended | confidence | as-written member | corrected member |
|---|---|---|---|---|---|---|
| parallex/ai/batch_processor.py:35 | the loop exits only on "completed", "failed" or "canceled" | a batch whose every poll reports "cancelled" (the Batch API's spelling), or "expired" | stop polling on every final Batch API status: "completed", "failed", "expired", "cancelled" | medium, not executed | BatchProcessor.CancelledPollsForever | BatchProcessor.CorrectedStopsOnFinal |
