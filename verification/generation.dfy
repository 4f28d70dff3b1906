/**
 * `generateVectorImage`: compose the prompt, build one request, issue four
 * calls of the remote model (each under `withRetry` with its defaults), and
 * settle their outcomes into the list of images or the error thrown.
 *
 * The remote model is a parameter: `remote(request, slot, k)` is what the
 * k-th call (0-based) of call slot `slot` returns or throws.
 */
module Generation {
  import opened Types
  import opened Prompt
  import opened Retry
  import opened Responses

  const ModelName := "gemini-2.5-flash-image"
  const ImageCount := 4

  /** The request payload: the model, the uploaded image, and the prompt. */
  datatype Request = Request(model: string, imageData: string, mimeType: string, prompt: string)

  /** The calls of one slot as `withRetry` sees them. */
  function SlotCalls(remote: (Request, nat, nat) -> Outcome<Response>, request: Request, slot: nat): nat -> Outcome<Response>
  {
    (k: nat) => remote(request, slot, k)
  }

  /** How the retry loop of one slot ends, with the default retry settings. */
  function SlotRun(remote: (Request, nat, nat) -> Outcome<Response>, request: Request, slot: nat): RetryRun<Response>
  {
    RunRetry(SlotCalls(remote, request, slot), DefaultMaxRetries, DefaultInitialDelay)
  }

  /** The outcomes of the four slots, in slot order. */
  function SlotResults(remote: (Request, nat, nat) -> Outcome<Response>, request: Request): (results: seq<CallResult>)
    ensures |results| == ImageCount
  {
    seq(ImageCount, slot requires 0 <= slot < ImageCount => SlotRun(remote, request, slot).result)
  }

  /** The request built from the upload and the settings. */
  function RequestFor(imageData: string, mimeType: string, style: VectorStyle, shading: ShadingLevel,
                      background: BackgroundStyle, color: string): Request
  {
    Request(ModelName, imageData, mimeType, PromptText(style, shading, background, color))
  }

  /** What `generateVectorImage` returns or throws, as a function of its arguments and the remote model. */
  function Generate(imageData: string, mimeType: string, style: VectorStyle, shading: ShadingLevel,
                    background: BackgroundStyle, color: string,
                    remote: (Request, nat, nat) -> Outcome<Response>): Result<seq<string>, Thrown>
  {
    Settle(SlotResults(remote, RequestFor(imageData, mimeType, style, shading, background, color)))
  }

  /**
   * The four calls of `generateVectorImage`, each under `withRetry` with
   * its defaults. They run one after another here; what each slot returns
   * or throws does not depend on the order. Returns the slot outcomes and
   * the number of calls made in all.
   */
  method RunSlots(remote: (Request, nat, nat) -> Outcome<Response>, request: Request)
    returns (results: seq<CallResult>, calls: nat)
    ensures results == SlotResults(remote, request)
    ensures ImageCount <= calls <= ImageCount * DefaultMaxRetries
  {
    results := [];
    calls := 0;
    for slot := 0 to ImageCount
      invariant |results| == slot
      invariant forall j :: 0 <= j < slot ==> results[j] == SlotRun(remote, request, j).result
      invariant slot <= calls <= slot * DefaultMaxRetries
    {
      var result, slotCalls, delays := WithRetry(SlotCalls(remote, request, slot), DefaultMaxRetries, DefaultInitialDelay);
      RetryContract(SlotCalls(remote, request, slot), DefaultMaxRetries, DefaultInitialDelay);
      results := results + [result];
      calls := calls + slotCalls;
    }
  }

  /**
   * `generateVectorImage`: the prompt, the request, the four calls and the
   * settling of their outcomes. Besides the outcome, the method returns the
   * request it sent and the number of calls made in all.
   */
  method GenerateVectorImage(imageData: string, mimeType: string, style: VectorStyle, shading: ShadingLevel,
                             background: BackgroundStyle, color: string,
                             remote: (Request, nat, nat) -> Outcome<Response>)
    returns (outcome: Result<seq<string>, Thrown>, request: Request, calls: nat)
    ensures request == RequestFor(imageData, mimeType, style, shading, background, color)
    ensures outcome == Generate(imageData, mimeType, style, shading, background, color, remote)
    ensures ImageCount <= calls <= ImageCount * DefaultMaxRetries
  {
    var prompt := ComposePrompt(style, shading, background, color);
    request := Request(ModelName, imageData, mimeType, prompt);
    var results;
    results, calls := RunSlots(remote, request);
    outcome := Settle(results);
  }

  /**
   * The outcomes of a generation: at most four images, in slot order, each
   * the image of its slot's final response; a slot whose retries end in an
   * error makes the whole generation throw an `Error`; with every slot
   * answered and no image accepted, the first slot's failure message.
   */
  lemma GenerateOutcomes(imageData: string, mimeType: string, style: VectorStyle, shading: ShadingLevel,
                         background: BackgroundStyle, color: string,
                         remote: (Request, nat, nat) -> Outcome<Response>)
    ensures var results := SlotResults(remote, RequestFor(imageData, mimeType, style, shading, background, color));
      var outcome := Generate(imageData, mimeType, style, shading, background, color, remote);
      && (outcome.Ok? ==> 0 < |outcome.value| <= ImageCount)
      && (outcome.Ok? ==> outcome.value == AcceptedImages(ResponsesOf(results)))
      && (outcome.Err? ==> outcome.error.Error?)
      && ((exists slot :: 0 <= slot < ImageCount && results[slot].Err?) ==> outcome.Err?)
      && ((forall slot :: 0 <= slot < ImageCount ==> results[slot].Ok?) && outcome.Err? ==>
            outcome == Err(Error(FailureMessage(results[0].value))))
  {
    var results := SlotResults(remote, RequestFor(imageData, mimeType, style, shading, background, color));
    SettleOutcomes(results);
  }

  /** Every call of the slot fails with a rate-limit error. */
  ghost predicate AlwaysRateLimited(remote: (Request, nat, nat) -> Outcome<Response>, request: Request, slot: nat)
  {
    forall k: nat :: remote(request, slot, k).Threw? && IsRateLimitError(remote(request, slot, k).error)
  }

  /**
   * A slot whose calls are all rate-limited ends in an error after three
   * calls, so the whole generation throws: rate limiting is never turned
   * into a partial or empty result.
   */
  lemma RateLimitedSlotFailsGeneration(imageData: string, mimeType: string, style: VectorStyle, shading: ShadingLevel,
                                       background: BackgroundStyle, color: string,
                                       remote: (Request, nat, nat) -> Outcome<Response>, slot: nat)
    requires slot < ImageCount
    requires AlwaysRateLimited(remote, RequestFor(imageData, mimeType, style, shading, background, color), slot)
    ensures Generate(imageData, mimeType, style, shading, background, color, remote).Err?
  {
    var request := RequestFor(imageData, mimeType, style, shading, background, color);
    var calls := SlotCalls(remote, request, slot);
    RetryContract(calls, DefaultMaxRetries, DefaultInitialDelay);
    var run := RunRetry(calls, DefaultMaxRetries, DefaultInitialDelay);
    assert calls(run.calls - 1).Threw?;
    assert SlotResults(remote, request)[slot] == run.result;
    GenerateOutcomes(imageData, mimeType, style, shading, background, color, remote);
  }
}
