/**
 * backend/internal/services/huggingface.go: image prompts for Stable
 * Diffusion XL and the retry loop around the Inference API. The loop makes
 * up to three tries; a "model loading" answer waits (10 to 60 seconds) and
 * retries without recording an error. `attempt(i)` is whatever try number
 * `i` produced. The code builds one request over one body buffer and hands
 * it to every try; the first try consumes that body, so what a later try
 * actually sends (an empty body, or an error from the client) is left to
 * `attempt` and not modelled here.
 *
 * As written, three "loading" answers in a row leave no error recorded, so
 * the service reports neither an image nor an error and the photo becomes an
 * empty data URL. `GenerateImageAsWritten` and `PhotoAsWritten` model that
 * code; `GenerateImage` and `GenerateCompanionPhoto` report an error instead.
 */
module HuggingFace {
  import opened Wrappers
  import opened Strings
  import opened Fal
  import opened Int64

  type Bytes = seq<bv8>

  const HfFlirty := "flirty expression, playful pose, looking at camera, "

  const HfQuality :=
    "highly detailed, professional photography, 8k uhd, beautiful lighting, sharp focus, photorealistic, masterpiece, best quality"

  function HfImagePrompt(a: CompanionAppearance, context: string, photoType: string): string
  {
    PromptBody(a, context, PosePhrase(photoType, HfFlirty)) + HfQuality
  }

  /** `BuildImagePrompt` of the Hugging Face service. */
  method BuildImagePrompt(a: CompanionAppearance, context: string, photoType: string) returns (prompt: string)
    ensures prompt == HfImagePrompt(a, context, photoType)
  {
    prompt := WritePrompt(a, context, photoType, HfFlirty, HfQuality);
  }

  /** The prompt starts with "photo of a beautiful " and ends with the SDXL quality tags. */
  lemma HfImagePromptFrame(a: CompanionAppearance, context: string, photoType: string)
    ensures PromptBase <= HfImagePrompt(a, context, photoType)
    ensures |HfImagePrompt(a, context, photoType)| >= |HfQuality|
    ensures HfImagePrompt(a, context, photoType)[|HfImagePrompt(a, context, photoType)| - |HfQuality|..] == HfQuality
  {
    PromptFrame(a, context, PosePhrase(photoType, HfFlirty), HfQuality);
  }

  // -------------------------------------------------------------- requests

  const HfNegativePrompt :=
    "ugly, deformed, noisy, blurry, low quality, distorted, disfigured, bad anatomy, bad proportions, extra limbs, mutation, text, watermark, nsfw, nude"

  /** The request body; the guidance scale 7.5 is not modelled. */
  datatype HfRequest = HfRequest(inputs: string, negativePrompt: string, inferenceSteps: int, waitForModel: bool)

  /** A decoded error body; `estimatedTime` is already truncated to whole seconds. */
  datatype HfError = HfError(error: string, estimatedTime: int)

  /**
   * What one try produced: a send or read failure (its error text), or an
   * answer with its status, its body decoded as an error object (`None`
   * when that fails), the raw bytes and the bytes read as text.
   */
  datatype HfAttempt =
    | SendFailed(message: string)
    | ReadFailed(message: string)
    | Answer(status: int, asError: Option<HfError>, body: Bytes, bodyText: string)

  const MaxRetries := 3

  predicate IsLoading(error: string)
  {
    Contains(error, "loading") || Contains(error, "currently loading")
  }

  /** One second as a Go `time.Duration`, in nanoseconds. */
  const Second := 1_000_000_000

  /**
   * `waitTime`, the pause before retrying a loading model, in nanoseconds:
   * the estimate in whole seconds times `time.Second`, a 64-bit product that
   * wraps, clamped to 10..60 seconds.
   */
  function WaitTime(estimated: int): (w: int)
    ensures 10 * Second <= w <= 60 * Second
    ensures 10 <= estimated <= 60 ==> w == estimated * Second
    ensures estimated < 10 && MinInt64 <= estimated * Second ==> w == 10 * Second
    ensures estimated > 60 && estimated * Second <= MaxInt64 ==> w == 60 * Second
  {
    var product := Wrap64(estimated * Second);
    if product < 10 * Second then 10 * Second
    else if product > 60 * Second then 60 * Second
    else product
  }

  /** The longest estimate, in seconds, whose duration does not wrap. */
  const MaxExactEstimate := MaxInt64 / Second

  /** One second more than that wraps to a negative duration, so the wait is the 10-second minimum. */
  lemma WrappedEstimateWaitsMinimum()
    ensures MaxExactEstimate == 9223372036
    ensures WaitTime(MaxExactEstimate) == 60 * Second
    ensures WaitTime(MaxExactEstimate + 1) == 10 * Second
  {
    assert Wrap64((MaxExactEstimate + 1) * Second) == (MaxExactEstimate + 1) * Second - 0x1_0000_0000_0000_0000;
  }

  predicate IsLoadingAnswer(t: HfAttempt)
  {
    t.Answer? && t.status != 200 && t.asError.Some? && IsLoading(t.asError.value.error)
  }

  /** The error a failed try records; a loading answer records none. */
  function TryError(t: HfAttempt): Option<string>
  {
    match t
    case SendFailed(m) => Some("failed to send request: " + m)
    case ReadFailed(m) => Some("failed to read response: " + m)
    case Answer(status, asError, body, bodyText) =>
      if status == 200 then None
      else if asError.Some? then
        if IsLoading(asError.value.error) then None
        else Some("Hugging Face API error: " + asError.value.error)
      else Some("Hugging Face API error: status " + IntToDecimal(status) + ", body: " + bodyText)
  }

  /**
   * The Go pair `(body, err)` returned by the tries from `i` on, with `lastErr`
   * recorded so far: the body of the first 200 answer, or no body and the
   * last error recorded, which may be none.
   */
  function TriesFrom(attempt: nat -> HfAttempt, i: nat, lastErr: Option<string>): (Option<Bytes>, Option<string>)
    decreases MaxRetries - i
  {
    if i >= MaxRetries then (None, lastErr)
    else if attempt(i).Answer? && attempt(i).status == 200 then (Some(attempt(i).body), None)
    else TriesFrom(attempt, i + 1, if TryError(attempt(i)).Some? then TryError(attempt(i)) else lastErr)
  }

  /**
   * `GenerateImage` as written: the pair it returns, the request and the
   * waits it sleeps, in nanoseconds.
   */
  method GenerateImageAsWritten(apiKey: string, prompt: string, attempt: nat -> HfAttempt)
    returns (request: Option<HfRequest>, body: Option<Bytes>, err: Option<string>, waits: seq<int>)
    ensures apiKey == "" <==> request.None?
    ensures apiKey == "" ==> body.None? && err == Some("Hugging Face API key not configured")
    ensures request.Some? ==> request.value == HfRequest(prompt, HfNegativePrompt, 30, true)
    ensures request.Some? ==> (body, err) == TriesFrom(attempt, 0, None)
    ensures |waits| <= MaxRetries
    ensures forall k :: 0 <= k < |waits| ==> 10 * Second <= waits[k] <= 60 * Second
  {
    waits := [];
    if apiKey == "" {
      return None, None, Some("Hugging Face API key not configured"), waits;
    }
    request := Some(HfRequest(prompt, HfNegativePrompt, 30, true));
    var lastErr: Option<string> := None;
    var i := 0;
    while i < MaxRetries
      invariant 0 <= i <= MaxRetries
      invariant TriesFrom(attempt, i, lastErr) == TriesFrom(attempt, 0, None)
      invariant |waits| <= i
      invariant forall k :: 0 <= k < |waits| ==> 10 * Second <= waits[k] <= 60 * Second
      decreases MaxRetries - i
    {
      match attempt(i) {
        case SendFailed(m) =>
          lastErr := Some("failed to send request: " + m);
        case ReadFailed(m) =>
          lastErr := Some("failed to read response: " + m);
        case Answer(status, asError, bytes, bodyText) =>
          if status == 200 {
            return request, Some(bytes), None, waits;
          }
          if asError.Some? {
            if IsLoading(asError.value.error) {
              waits := waits + [WaitTime(asError.value.estimatedTime)];
            } else {
              lastErr := Some("Hugging Face API error: " + asError.value.error);
            }
          } else {
            lastErr := Some("Hugging Face API error: status " + IntToDecimal(status) + ", body: " + bodyText);
          }
      }
      i := i + 1;
    }
    body, err := None, lastErr;
  }

  const DataUrlPrefix := "data:image/png;base64,"

  /**
   * `GenerateCompanionPhoto` as written, given the service's pair:
   * an error is passed on, anything else is encoded (a nil body as no bytes).
   */
  function PhotoAsWritten(pair: (Option<Bytes>, Option<string>), base64: Bytes -> string): (r: Result<string>)
    ensures pair.1.None? ==> r == Ok(DataUrlPrefix + base64(if pair.0.Some? then pair.0.value else []))
  {
    if pair.1.Some? then Err(pair.1.value)
    else Ok(DataUrlPrefix + base64(if pair.0.Some? then pair.0.value else []))
  }

  /**
   * Three loading answers in a row: the code as written returns neither bytes
   * nor an error, and the photo "succeeds" as an empty data URL.
   */
  lemma AllLoadingAsWritten(attempt: nat -> HfAttempt, base64: Bytes -> string)
    requires forall i :: 0 <= i < MaxRetries ==> IsLoadingAnswer(attempt(i))
    ensures TriesFrom(attempt, 0, None) == (None, None)
    ensures PhotoAsWritten(TriesFrom(attempt, 0, None), base64) == Ok(DataUrlPrefix + base64([]))
  {
    assert IsLoadingAnswer(attempt(0)) && IsLoadingAnswer(attempt(1)) && IsLoadingAnswer(attempt(2));
  }

  /** A concrete instance: a model that reports "Model is currently loading" three times. */
  lemma AllLoadingExample(base64: Bytes -> string)
    ensures var attempt := (i: nat) => Answer(503, Some(HfError("Model is currently loading", 20)), [], "");
            PhotoAsWritten(TriesFrom(attempt, 0, None), base64) == Ok(DataUrlPrefix + base64([]))
  {
    var attempt := (i: nat) => Answer(503, Some(HfError("Model is currently loading", 20)), [], "");
    var e := "Model is currently loading";
    assert e[19..26] == "loading";
    ContainsAt(e, "loading", 19);
    AllLoadingAsWritten(attempt, base64);
  }

  // ----------------------------------------------------- corrected service

  const StillLoading := "Hugging Face model still loading"

  /** The corrected outcome: the first 200 body, or an error, never neither. */
  function Outcome(attempt: nat -> HfAttempt): (r: Result<Bytes>)
  {
    match TriesFrom(attempt, 0, None)
    case (Some(b), _) => Ok(b)
    case (None, Some(e)) => Err(e)
    case (None, None) => Err(StillLoading)
  }

  /** `GenerateImage`, reporting an error when every try found the model loading. */
  method GenerateImage(apiKey: string, prompt: string, attempt: nat -> HfAttempt)
    returns (request: Option<HfRequest>, result: Result<Bytes>, waits: seq<int>)
    ensures apiKey == "" <==> request.None?
    ensures apiKey == "" ==> result == Err("Hugging Face API key not configured")
    ensures request.Some? ==> request.value == HfRequest(prompt, HfNegativePrompt, 30, true)
    ensures request.Some? ==> result == Outcome(attempt)
    ensures |waits| <= MaxRetries
    ensures forall k :: 0 <= k < |waits| ==> 10 * Second <= waits[k] <= 60 * Second
  {
    var body, err;
    request, body, err, waits := GenerateImageAsWritten(apiKey, prompt, attempt);
    if body.Some? {
      result := Ok(body.value);
    } else if err.Some? {
      result := Err(err.value);
    } else {
      result := Err(StillLoading);
    }
  }

  predicate Succeeded(t: HfAttempt)
  {
    t.Answer? && t.status == 200
  }

  /** From try `i` on, a body comes back exactly when some later try is answered 200, and it is that answer's. */
  lemma {:induction false} TriesSucceedIffAnswered(attempt: nat -> HfAttempt, i: nat, lastErr: Option<string>)
    ensures TriesFrom(attempt, i, lastErr).0.Some? <==>
              exists j :: i <= j < MaxRetries && Succeeded(attempt(j))
    ensures TriesFrom(attempt, i, lastErr).0.Some? ==>
              exists j :: i <= j < MaxRetries && Succeeded(attempt(j)) &&
                          TriesFrom(attempt, i, lastErr).0.value == attempt(j).body
    decreases MaxRetries - i
  {
    if i < MaxRetries && !Succeeded(attempt(i)) {
      var next := if TryError(attempt(i)).Some? then TryError(attempt(i)) else lastErr;
      TriesSucceedIffAnswered(attempt, i + 1, next);
      assert TriesFrom(attempt, i, lastErr) == TriesFrom(attempt, i + 1, next);
      if exists j :: i <= j < MaxRetries && Succeeded(attempt(j)) {
        var j :| i <= j < MaxRetries && Succeeded(attempt(j));
        assert j != i;
      }
    }
  }

  /**
   * The corrected service succeeds exactly when one of the three tries was
   * answered 200, with that answer's bytes; otherwise it reports an error.
   */
  lemma OutcomeSucceedsIffAnswered(attempt: nat -> HfAttempt)
    ensures Outcome(attempt).Ok? <==> exists j :: 0 <= j < MaxRetries && Succeeded(attempt(j))
    ensures Outcome(attempt).Ok? ==>
              exists j :: 0 <= j < MaxRetries && Succeeded(attempt(j)) && Outcome(attempt).value == attempt(j).body
  {
    TriesSucceedIffAnswered(attempt, 0, None);
  }

  /** `GenerateCompanionPhoto`: the data URL of the image bytes; `base64` is the standard encoding. */
  method GenerateCompanionPhoto(apiKey: string, a: CompanionAppearance, context: string, photoType: string,
                                attempt: nat -> HfAttempt, base64: Bytes -> string)
    returns (request: Option<HfRequest>, result: Result<string>)
    ensures request.Some? ==> request.value.inputs == HfImagePrompt(a, context, photoType)
    ensures apiKey == "" ==> result == Err("Hugging Face API key not configured")
    ensures apiKey != "" && Outcome(attempt).Ok? ==> result == Ok(DataUrlPrefix + base64(Outcome(attempt).value))
    ensures apiKey != "" && Outcome(attempt).Err? ==> result == Err(Outcome(attempt).message)
    ensures result.Ok? ==> DataUrlPrefix <= result.value
  {
    var prompt := BuildImagePrompt(a, context, photoType);
    var image, waits;
    request, image, waits := GenerateImage(apiKey, prompt, attempt);
    if image.Err? {
      return request, Err(image.message);
    }
    result := Ok(DataUrlPrefix + base64(image.value));
  }
}
