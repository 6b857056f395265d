/** The batch lifecycle: `create_batch`, which retries the provider's
    batch creation with exponential backoff, and `wait_for_batch_completion`,
    which polls the batch until it reaches a status the loop treats as final.

    The provider is an oracle: `client(fileId, k)` is the answer to the k-th
    `client.create_batch` call and `retrieve(k)` the answer to the k-th
    `client.retrieve_batch` call, each either a response or the exception it
    raised. `asyncio.sleep(d)` is recorded by appending `d` to a list of
    requested delays. */
module BatchProcessor {
  import opened Common
  import opened Uuids
  import opened UploadBatchModel

  // ---- create_batch ----

  const MaxRetries: nat := 10
  const InitialBackoff: nat := 5

  /** The sleep after attempt k when it is retried: 5 seconds, doubled
      after every sleep. */
  function Backoff(k: nat): (d: nat)
    ensures d >= InitialBackoff
  {
    if k == 0 then InitialBackoff else 2 * Backoff(k - 1)
  }

  /** The nine sleeps of a run that uses every attempt. */
  lemma BackoffSchedule()
    ensures [Backoff(0), Backoff(1), Backoff(2), Backoff(3), Backoff(4), Backoff(5), Backoff(6), Backoff(7), Backoff(8)]
         == [5, 10, 20, 40, 80, 160, 320, 640, 1280]
  {
  }

  lemma {:induction false} BackoffIncreasing(i: nat, j: nat)
    requires i < j
    ensures Backoff(i) < Backoff(j)
  {
    if j > i + 1 {
      BackoffIncreasing(i, j - 1);
    }
  }

  /** The provider's answer to the k-th batch creation for a file. */
  type CreateClient = (FileId, nat) -> Result<Attributes, Exception>

  /** `build_batch(open_ai_batch=..., trace_id=..., page_number=...)`; the
      call passes a page number that `UploadBatchModel.BuildBatch` does not
      take, so the builder stays a parameter. */
  type Builder = (Attributes, Uuid, int) -> Result<UploadBatch, Exception>

  /** The arguments of one `create_batch` call, with the provider and the
      builder it calls. */
  datatype CreateCall = CreateCall(client: CreateClient, build: Builder, fileId: FileId, traceId: Uuid, pageNumber: int)

  /** The body of the `try` for attempt k: create, then build. Either step
      may raise. */
  function Attempt(call: CreateCall, k: nat): Result<UploadBatch, Exception> {
    match call.client(call.fileId, k)
    case Failure(e) => Failure(e)
    case Success(response) => call.build(response, call.traceId, call.pageNumber)
  }

  /** Whether attempt k is retried: it raised BadRequestError and is not
      the last one. */
  predicate Retried(outcome: Result<UploadBatch, Exception>, k: nat) {
    outcome.Failure? && outcome.error.IsBadRequest() && k < MaxRetries - 1
  }

  /** What a run of `create_batch` did: its result (returned or raised),
      how many attempts it made, and the delays it slept. */
  datatype CreateRun = CreateRun(result: Result<UploadBatch, Exception>, attempts: nat, delays: seq<nat>)

  /** The run from attempt `k` on, with `delay` the current backoff. */
  function CreateFrom(call: CreateCall, k: nat, delay: nat): CreateRun
    requires k < MaxRetries
    decreases MaxRetries - k
  {
    var outcome := Attempt(call, k);
    if Retried(outcome, k) then
      var rest := CreateFrom(call, k + 1, 2 * delay);
      CreateRun(rest.result, rest.attempts, [delay] + rest.delays)
    else
      CreateRun(outcome, k + 1, [])
  }

  /** `create_batch(client, file_id, trace_id, page_number)`. */
  method CreateBatch(client: CreateClient, build: Builder, fileId: FileId, traceId: Uuid, pageNumber: int)
    returns (result: Result<UploadBatch, Exception>, attempts: nat, delays: seq<nat>)
    ensures CreateRun(result, attempts, delays)
         == CreateFrom(CreateCall(client, build, fileId, traceId, pageNumber), 0, InitialBackoff)
  {
    var call := CreateCall(client, build, fileId, traceId, pageNumber);
    ghost var run := CreateFrom(call, 0, InitialBackoff);
    var backoffDelay := InitialBackoff;
    var attempt := 0;
    delays := [];
    var outcome := Attempt(call, attempt);
    while Retried(outcome, attempt)
      invariant attempt < MaxRetries
      invariant outcome == Attempt(call, attempt)
      invariant var rest := CreateFrom(call, attempt, backoffDelay);
        run == CreateRun(rest.result, rest.attempts, delays + rest.delays)
      decreases MaxRetries - attempt
    {
      ghost var rest := CreateFrom(call, attempt + 1, 2 * backoffDelay);
      assert CreateFrom(call, attempt, backoffDelay).delays == [backoffDelay] + rest.delays;
      assert delays + ([backoffDelay] + rest.delays) == (delays + [backoffDelay]) + rest.delays;
      delays := delays + [backoffDelay];
      backoffDelay := backoffDelay * 2;
      attempt := attempt + 1;
      outcome := Attempt(call, attempt);
    }
    assert delays + [] == delays;
    result := outcome;
    attempts := attempt + 1;
  }

  /** The run from attempt `k` ends after the first attempt that is not
      retried, at the tenth at the latest; it returns or raises what that
      attempt did, having slept once per earlier attempt. */
  lemma {:induction false} CreateFromEnds(call: CreateCall, k: nat, delay: nat)
    requires k < MaxRetries
    ensures var r := CreateFrom(call, k, delay);
      && k < r.attempts <= MaxRetries
      && r.result == Attempt(call, r.attempts - 1)
      && !Retried(r.result, r.attempts - 1)
      && |r.delays| == r.attempts - 1 - k
    decreases MaxRetries - k
  {
    if Retried(Attempt(call, k), k) {
      CreateFromEnds(call, k + 1, 2 * delay);
    }
  }

  /** Every attempt of the run before its last one raised BadRequestError
      and was retried. */
  lemma {:induction false} CreateFromRetries(call: CreateCall, k: nat, delay: nat)
    requires k < MaxRetries
    ensures var r := CreateFrom(call, k, delay);
      forall j | k <= j < r.attempts - 1 :: Retried(Attempt(call, j), j)
    decreases MaxRetries - k
  {
    if Retried(Attempt(call, k), k) {
      CreateFromRetries(call, k + 1, 2 * delay);
    }
  }

  /** Started with the backoff of attempt `k`, the run's i-th sleep is the
      backoff of attempt `k + i`: the delay doubles after every sleep. */
  lemma {:induction false} CreateFromDelays(call: CreateCall, k: nat, delay: nat)
    requires k < MaxRetries && delay == Backoff(k)
    ensures var r := CreateFrom(call, k, delay);
      forall i | 0 <= i < |r.delays| :: r.delays[i] == Backoff(k + i)
    decreases MaxRetries - k
  {
    if Retried(Attempt(call, k), k) {
      assert Backoff(k + 1) == 2 * delay;
      CreateFromDelays(call, k + 1, 2 * delay);
      var rest := CreateFrom(call, k + 1, 2 * delay);
      var r := CreateFrom(call, k, delay);
      assert var q := CreateFrom(call, k + 1, 2 * delay);
        forall i | 0 <= i < |q.delays| :: q.delays[i] == Backoff(k + 1 + i);
      assert r.delays == [delay] + rest.delays;
      forall i | 0 <= i < |r.delays|
        ensures r.delays[i] == Backoff(k + i)
      {
        if i == 0 {
          assert r.delays[i] == delay;
        } else {
          assert r.delays[i] == rest.delays[i - 1];
        }
      }
    }
  }

  /** The contract of `create_batch`: between one and ten attempts; it
      returns or raises what the last attempt did; every earlier attempt
      raised BadRequestError; and the sleep after attempt k lasted 5·2^k
      seconds, with no sleep after the last attempt. */
  lemma CreateBatchContract(call: CreateCall)
    ensures var r := CreateFrom(call, 0, InitialBackoff);
      && 1 <= r.attempts <= MaxRetries
      && r.result == Attempt(call, r.attempts - 1)
      && (forall j | 0 <= j < r.attempts - 1 ::
            var o := Attempt(call, j);
            o.Failure? && o.error.IsBadRequest())
      && |r.delays| == r.attempts - 1
      && (forall k | 0 <= k < |r.delays| :: r.delays[k] == Backoff(k))
  {
    CreateFromEnds(call, 0, InitialBackoff);
    CreateFromRetries(call, 0, InitialBackoff);
    CreateFromDelays(call, 0, InitialBackoff);
  }

  /** When every attempt before n raised BadRequestError and attempt n
      succeeds, raises anything else, or is the tenth, the run ends there:
      n + 1 attempts were made, n sleeps happened and the outcome of
      attempt n is the result. In particular a success is returned at once
      and any other exception propagates without a sleep. */
  lemma CreateBatchStopsAt(call: CreateCall, n: nat)
    requires n < MaxRetries
    requires forall j | 0 <= j < n :: Retried(Attempt(call, j), j)
    requires !Retried(Attempt(call, n), n)
    ensures var r := CreateFrom(call, 0, InitialBackoff);
      && r.attempts == n + 1
      && |r.delays| == n
      && r.result == Attempt(call, n)
  {
    CreateFromEnds(call, 0, InitialBackoff);
    CreateFromRetries(call, 0, InitialBackoff);
    var r := CreateFrom(call, 0, InitialBackoff);
    var last: nat := r.attempts - 1;
    assert !Retried(Attempt(call, last), last);
    assert !Retried(Attempt(call, n), n);
  }

  /** When every attempt raises BadRequestError, ten attempts are made,
      nine sleeps of 5, 10, ..., 1280 seconds happen and the tenth error is
      raised. */
  lemma CreateBatchAllBadRequests(call: CreateCall)
    requires forall j | 0 <= j < MaxRetries ::
      var o := Attempt(call, j);
      o.Failure? && o.error.IsBadRequest()
    ensures var r := CreateFrom(call, 0, InitialBackoff);
      && r.attempts == 10
      && r.result == Attempt(call, 9)
      && r.delays == [5, 10, 20, 40, 80, 160, 320, 640, 1280]
  {
    CreateFromEnds(call, 0, InitialBackoff);
    CreateFromDelays(call, 0, InitialBackoff);
    var r := CreateFrom(call, 0, InitialBackoff);
    var last: nat := r.attempts - 1;
    assert !Retried(Attempt(call, last), last);
    assert |r.delays| == 9;
    BackoffSchedule();
    assert r.delays == [Backoff(0), Backoff(1), Backoff(2), Backoff(3), Backoff(4),
                        Backoff(5), Backoff(6), Backoff(7), Backoff(8)];
  }

  /** The backoff strictly grows: each sleep is longer than the one before. */
  lemma CreateBatchBackoffIncreasing(call: CreateCall, i: nat, j: nat)
    requires var r := CreateFrom(call, 0, InitialBackoff);
      i < j < |r.delays|
    ensures var r := CreateFrom(call, 0, InitialBackoff);
      r.delays[i] < r.delays[j]
  {
    CreateFromDelays(call, 0, InitialBackoff);
    BackoffIncreasing(i, j);
  }

  // ---- wait_for_batch_completion ----

  /** The attributes of a retrieved batch that the loop reads. */
  datatype Polled = Polled(status: string, outputFileId: Option<string>)

  /** The provider's answer to the k-th `retrieve_batch` call. */
  type Retriever = nat -> Result<Polled, Exception>

  /** Returned: the function returned (an output file id, or None after a
      failed or cancelled batch). Raised: a retrieve call raised.
      StillPolling: the polls observed so far did not end the loop. */
  datatype WaitOutcome = Returned(fileId: Option<string>) | Raised(error: Exception) | StillPolling

  datatype WaitRun = WaitRun(outcome: WaitOutcome, delays: seq<nat>)

  const FirstDelay: nat := 5
  const PollDelay: nat := 5 * 60

  /** The statuses the loop guard treats as final, as written. */
  const SourceExits: set<string> := {"completed", "failed", "canceled"}

  /** The sleep before poll k. */
  function DelayBefore(k: nat): nat {
    if k == 0 then FirstDelay else PollDelay
  }

  /** The loop from poll k on, with at most `fuel` more polls observed and
      `exits` the statuses that end it. */
  function WaitFrom(retrieve: Retriever, exits: set<string>, k: nat, fuel: nat): WaitRun
    decreases fuel
  {
    if fuel == 0 then WaitRun(StillPolling, [])
    else
      match retrieve(k)
      case Failure(e) => WaitRun(Raised(e), [DelayBefore(k)])
      case Success(p) =>
        if p.status == "completed" then WaitRun(Returned(p.outputFileId), [DelayBefore(k)])
        else if p.status in exits then WaitRun(Returned(None), [DelayBefore(k)])
        else
          var rest := WaitFrom(retrieve, exits, k + 1, fuel - 1);
          WaitRun(rest.outcome, [DelayBefore(k)] + rest.delays)
  }

  /** `wait_for_batch_completion(client, batch_id)`, observed for at most
      `fuel` polls. */
  method WaitForBatchCompletion(retrieve: Retriever, fuel: nat) returns (outcome: WaitOutcome, delays: seq<nat>)
    ensures WaitRun(outcome, delays) == WaitFrom(retrieve, SourceExits, 0, fuel)
  {
    var status := "validating";
    var delay := FirstDelay;
    var polls := 0;
    delays := [];
    while status !in SourceExits && polls < fuel
      invariant polls <= fuel
      invariant delay == DelayBefore(polls)
      invariant status !in SourceExits ==>
        var rest := WaitFrom(retrieve, SourceExits, polls, fuel - polls);
        WaitFrom(retrieve, SourceExits, 0, fuel) == WaitRun(rest.outcome, delays + rest.delays)
      invariant status in SourceExits ==> WaitFrom(retrieve, SourceExits, 0, fuel) == WaitRun(Returned(None), delays)
      decreases fuel - polls
    {
      delays := delays + [delay];
      var response := retrieve(polls);
      if response.Failure? {
        return Raised(response.error), delays;
      }
      status := response.value.status;
      if status == "completed" {
        return Returned(response.value.outputFileId), delays;
      } else {
        delay := PollDelay;
      }
      polls := polls + 1;
    }
    if status in SourceExits {
      outcome := Returned(None);
    } else {
      outcome := StillPolling;
    }
  }

  /** Whether a poll lets the loop go on. */
  predicate Continues(response: Result<Polled, Exception>, exits: set<string>) {
    response.Success? && response.value.status != "completed" && response.value.status !in exits
  }

  /** When every earlier poll let the loop go on and poll n does not, the
      loop ends at poll n: n + 1 polls were made, the first after 5
      seconds and each later one after 300, and the outcome is the file id
      of a completed batch, None after a final status, or the exception. */
  lemma {:induction false} WaitStopsAt(retrieve: Retriever, exits: set<string>, k: nat, n: nat, fuel: nat)
    requires k <= n < k + fuel
    requires forall j | k <= j < n :: Continues(retrieve(j), exits)
    requires !Continues(retrieve(n), exits)
    ensures var r := WaitFrom(retrieve, exits, k, fuel);
      && |r.delays| == n + 1 - k
      && (forall i | 0 <= i < |r.delays| :: r.delays[i] == DelayBefore(k + i))
      && r.outcome == match retrieve(n)
         case Failure(e) => Raised(e)
         case Success(p) => if p.status == "completed" then Returned(p.outputFileId) else Returned(None)
    decreases fuel
  {
    if n > k {
      assert Continues(retrieve(k), exits);
      WaitStopsAt(retrieve, exits, k + 1, n, fuel - 1);
      var r := WaitFrom(retrieve, exits, k, fuel);
      var rest := WaitFrom(retrieve, exits, k + 1, fuel - 1);
      assert r.delays == [DelayBefore(k)] + rest.delays;
      forall i | 0 <= i < |r.delays|
        ensures r.delays[i] == DelayBefore(k + i)
      {
        if i > 0 {
          assert r.delays[i] == rest.delays[i - 1];
        }
      }
    }
  }

  /** While every poll lets the loop go on, it keeps polling: after `fuel`
      polls it has neither returned nor raised, and it slept before each. */
  lemma {:induction false} WaitKeepsPolling(retrieve: Retriever, exits: set<string>, k: nat, fuel: nat)
    requires forall j | k <= j < k + fuel :: Continues(retrieve(j), exits)
    ensures WaitFrom(retrieve, exits, k, fuel).outcome == StillPolling
    ensures |WaitFrom(retrieve, exits, k, fuel).delays| == fuel
    decreases fuel
  {
    if fuel > 0 {
      assert Continues(retrieve(k), exits);
      WaitKeepsPolling(retrieve, exits, k + 1, fuel - 1);
    }
  }

  /** The loop always polls at least once (the status starts as
      "validating", which does not end it) and never more than the polls
      observed; it sleeps before every poll, 5 seconds before the first and
      300 before each later one. */
  lemma {:induction false} WaitDelays(retrieve: Retriever, exits: set<string>, k: nat, fuel: nat)
    requires fuel >= 1
    ensures var r := WaitFrom(retrieve, exits, k, fuel);
      && 1 <= |r.delays| <= fuel
      && (forall i | 0 <= i < |r.delays| :: r.delays[i] == DelayBefore(k + i))
      && (r.outcome == StillPolling ==> |r.delays| == fuel)
    decreases fuel
  {
    var r := WaitFrom(retrieve, exits, k, fuel);
    if fuel > 1 && Continues(retrieve(k), exits) {
      WaitDelays(retrieve, exits, k + 1, fuel - 1);
      var rest := WaitFrom(retrieve, exits, k + 1, fuel - 1);
      assert r.delays == [DelayBefore(k)] + rest.delays;
      forall i | 0 <= i < |r.delays|
        ensures r.delays[i] == DelayBefore(k + i)
      {
        if i > 0 {
          assert r.delays[i] == rest.delays[i - 1];
        }
      }
    }
  }

  /** As written: a batch the provider reports as "cancelled" (its spelling)
      never ends the loop, because the guard tests "canceled"; however many
      polls are observed, the call is still polling. */
  lemma CancelledPollsForever(retrieve: Retriever, fuel: nat)
    requires forall j :: retrieve(j) == Success(Polled("cancelled", None))
    ensures WaitFrom(retrieve, SourceExits, 0, fuel) == WaitRun(StillPolling, WaitFrom(retrieve, SourceExits, 0, fuel).delays)
    ensures |WaitFrom(retrieve, SourceExits, 0, fuel).delays| == fuel
  {
    WaitKeepsPolling(retrieve, SourceExits, 0, fuel);
  }

  /** The provider's final batch statuses. */
  const ProviderFinal: set<string> := {"completed", "failed", "expired", "cancelled"}

  /** The loop with the provider's final statuses as its exits. */
  function WaitCorrected(retrieve: Retriever, fuel: nat): WaitRun {
    WaitFrom(retrieve, ProviderFinal, 0, fuel)
  }

  /** Corrected: once the provider reports any final status, the loop ends
      at that poll, returning the output file id for a completed batch and
      None otherwise. */
  lemma CorrectedStopsOnFinal(retrieve: Retriever, n: nat, fuel: nat)
    requires n < fuel
    requires forall j | 0 <= j < n :: retrieve(j).Success? && retrieve(j).value.status !in ProviderFinal
    requires retrieve(n).Success? && retrieve(n).value.status in ProviderFinal
    ensures WaitCorrected(retrieve, fuel).outcome ==
      if retrieve(n).value.status == "completed" then Returned(retrieve(n).value.outputFileId) else Returned(None)
    ensures |WaitCorrected(retrieve, fuel).delays| == n + 1
  {
    WaitStopsAt(retrieve, ProviderFinal, 0, n, fuel);
  }
}
