/**
 * backend/internal/services/fal.go: image prompts for the FLUX model and the
 * fal.ai queue protocol. A submission answered 200 carries the result; one
 * answered 202 is polled, once a second, at most 30 times. Each HTTP exchange
 * is an input: `Submission` is what the submit call produced, and `poll(i)`
 * is what status check number `i` produced.
 */
module Fal {
  import opened Wrappers
  import opened Strings

  datatype CompanionAppearance = CompanionAppearance(
    name: string,
    gender: string,
    age: int,
    ethnicity: string,
    hairColor: string,
    hairStyle: string,
    eyeColor: string,
    bodyType: string,
    style: string,
    personality: string)

  // ---------------------------------------------------------- prompt pieces

  const PromptBase := "photo of a beautiful "

  function AgePart(a: CompanionAppearance): (r: string)
    ensures r == "" <==> a.age <= 0
  {
    if a.age > 0 then NatToDecimal(a.age) + " year old " else ""
  }

  function GenderPart(a: CompanionAppearance): (r: string)
    ensures a.gender == "" ==> r == "woman "
    ensures a.gender != "" ==> r == a.gender + " "
  {
    if a.gender != "" then a.gender + " " else "woman "
  }

  function EthnicityPart(a: CompanionAppearance): (r: string)
    ensures r == "" <==> a.ethnicity == ""
  {
    if a.ethnicity != "" then a.ethnicity + " " else ""
  }

  /** `with [colour ][style ]hair, `, present only when colour or style is given. */
  function HairPart(a: CompanionAppearance): (r: string)
    ensures r == "" <==> a.hairColor == "" && a.hairStyle == ""
    ensures r != "" ==> "with " <= r
  {
    if a.hairColor != "" || a.hairStyle != "" then
      "with " + (if a.hairColor != "" then a.hairColor + " " else "") +
      (if a.hairStyle != "" then a.hairStyle + " " else "") + "hair, "
    else ""
  }

  function EyesPart(a: CompanionAppearance): (r: string)
    ensures r == "" <==> a.eyeColor == ""
  {
    if a.eyeColor != "" then a.eyeColor + " eyes, " else ""
  }

  function ContextPart(context: string): (r: string)
    ensures r == "" <==> context == ""
  {
    if context != "" then context + ", " else ""
  }

  function StylePart(a: CompanionAppearance): (r: string)
    ensures r == "" <==> a.style == ""
  {
    if a.style != "" then "wearing " + a.style + ", " else ""
  }

  const PhotoTypes: seq<string> := ["selfie", "portrait", "full_body", "candid", "flirty", "cute", "romantic"]

  const NaturalPose := "natural pose, "

  /** The photo-type phrase shared by both image back ends, given their own flirty phrase. */
  function PosePhrase(photoType: string, flirty: string): (r: string)
    ensures photoType !in PhotoTypes ==> r == NaturalPose
  {
    if photoType == "selfie" then "taking a selfie, looking at camera, smartphone selfie angle, "
    else if photoType == "portrait" then "portrait photo, looking at camera, soft lighting, "
    else if photoType == "full_body" then "full body shot, standing pose, "
    else if photoType == "candid" then "candid photo, natural moment, "
    else if photoType == "flirty" then flirty
    else if photoType == "cute" then "cute pose, sweet smile, adorable expression, "
    else if photoType == "romantic" then "romantic mood, soft gaze, intimate feeling, "
    else NaturalPose
  }

  const FalFlirty := "flirty expression, playful pose, looking at camera seductively, "

  const FalQuality := "highly detailed, professional photography, 8k, beautiful lighting, sharp focus, photorealistic"

  /** Everything before the quality tags, for a given pose phrase. */
  function PromptBody(a: CompanionAppearance, context: string, pose: string): string
  {
    PromptBase + AgePart(a) + GenderPart(a) + EthnicityPart(a) + HairPart(a) + EyesPart(a) +
    pose + ContextPart(context) + StylePart(a)
  }

  function ImagePrompt(a: CompanionAppearance, context: string, photoType: string): string
  {
    PromptBody(a, context, PosePhrase(photoType, FalFlirty)) + FalQuality
  }

  /**
   * The builder's writes, in order. The fal and Hugging Face builders are
   * the same code except for the flirty phrase and the closing quality tags.
   */
  method WritePrompt(a: CompanionAppearance, context: string, photoType: string, flirty: string, quality: string)
    returns (prompt: string)
    ensures prompt == PromptBody(a, context, PosePhrase(photoType, flirty)) + quality
  {
    var sb := PromptBase;
    ghost var before := sb;
    if a.age > 0 {
      sb := sb + (NatToDecimal(a.age) + " year old ");
    }
    assert sb == before + AgePart(a);
    before := sb;
    if a.gender != "" {
      sb := sb + (a.gender + " ");
    } else {
      sb := sb + "woman ";
    }
    assert sb == before + GenderPart(a);
    before := sb;
    if a.ethnicity != "" {
      sb := sb + (a.ethnicity + " ");
    }
    assert sb == before + EthnicityPart(a);
    before := sb;
    if a.hairColor != "" || a.hairStyle != "" {
      var hair := "with ";
      if a.hairColor != "" {
        hair := hair + (a.hairColor + " ");
      }
      if a.hairStyle != "" {
        hair := hair + (a.hairStyle + " ");
      }
      hair := hair + "hair, ";
      assert hair == HairPart(a);
      sb := sb + hair;
    }
    assert sb == before + HairPart(a);
    before := sb;
    if a.eyeColor != "" {
      sb := sb + (a.eyeColor + " eyes, ");
    }
    assert sb == before + EyesPart(a);
    sb := sb + PosePhrase(photoType, flirty);
    before := sb;
    if context != "" {
      sb := sb + (context + ", ");
    }
    assert sb == before + ContextPart(context);
    before := sb;
    if a.style != "" {
      sb := sb + ("wearing " + a.style + ", ");
    }
    assert sb == before + StylePart(a);
    sb := sb + quality;
    prompt := sb;
  }

  /** `BuildImagePrompt` of the fal service. */
  method BuildImagePrompt(a: CompanionAppearance, context: string, photoType: string) returns (prompt: string)
    ensures prompt == ImagePrompt(a, context, photoType)
  {
    prompt := WritePrompt(a, context, photoType, FalFlirty, FalQuality);
  }

  /** The prompt opens with the base phrase. */
  lemma PromptBodyStarts(a: CompanionAppearance, context: string, pose: string, tail: string)
    ensures PromptBase <= PromptBody(a, context, pose) + tail
  {
    var s := PromptBase;
    PrefixExtend(PromptBase, s, AgePart(a)); s := s + AgePart(a);
    PrefixExtend(PromptBase, s, GenderPart(a)); s := s + GenderPart(a);
    PrefixExtend(PromptBase, s, EthnicityPart(a)); s := s + EthnicityPart(a);
    PrefixExtend(PromptBase, s, HairPart(a)); s := s + HairPart(a);
    PrefixExtend(PromptBase, s, EyesPart(a)); s := s + EyesPart(a);
    PrefixExtend(PromptBase, s, pose); s := s + pose;
    PrefixExtend(PromptBase, s, ContextPart(context)); s := s + ContextPart(context);
    PrefixExtend(PromptBase, s, StylePart(a)); s := s + StylePart(a);
    PrefixExtend(PromptBase, s, tail);
  }

  /** Any prompt body followed by quality tags starts with the base phrase and ends with the tags. */
  lemma PromptFrame(a: CompanionAppearance, context: string, pose: string, quality: string)
    ensures PromptBase <= PromptBody(a, context, pose) + quality
    ensures |PromptBody(a, context, pose) + quality| >= |quality|
    ensures (PromptBody(a, context, pose) + quality)[|PromptBody(a, context, pose) + quality| - |quality|..] == quality
  {
    var body := PromptBody(a, context, pose);
    PromptBodyStarts(a, context, pose, quality);
    SuffixSplit(body, quality, "");
    assert quality + "" == quality;
    assert body + quality + "" == body + quality;
  }

  /** The fal prompt always starts with "photo of a beautiful " and ends with its quality tags. */
  lemma ImagePromptFrame(a: CompanionAppearance, context: string, photoType: string)
    ensures PromptBase <= ImagePrompt(a, context, photoType)
    ensures |ImagePrompt(a, context, photoType)| >= |FalQuality|
    ensures ImagePrompt(a, context, photoType)[|ImagePrompt(a, context, photoType)| - |FalQuality|..] == FalQuality
  {
    PromptFrame(a, context, PosePhrase(photoType, FalFlirty), FalQuality);
  }

  /** A bare appearance still names a woman, and an unknown photo type a natural pose. */
  lemma BareAppearancePrompt(a: CompanionAppearance, photoType: string)
    requires a.age <= 0 && a.gender == "" && a.ethnicity == "" && a.hairColor == "" && a.hairStyle == ""
    requires a.eyeColor == "" && a.style == "" && photoType !in PhotoTypes
    ensures ImagePrompt(a, "", photoType) == PromptBase + "woman " + NaturalPose + FalQuality
  {
  }

  // -------------------------------------------------------------- requests

  const DefaultNegativePrompt :=
    "ugly, deformed, noisy, blurry, low quality, distorted, disfigured, bad anatomy, bad proportions, extra limbs, mutation, text, watermark"

  datatype FalRequest = FalRequest(prompt: string, negativePrompt: string, imageSize: string, numImages: int,
                                   enableSafetyChecker: bool)

  datatype FalImage = FalImage(url: string, width: int, height: int, contentType: string)

  datatype FalResponse = FalResponse(images: seq<FalImage>)

  /**
   * What the submit call produced: a failure before any status (its error
   * text), or a status with the body decoded as a result and as a queue
   * ticket (`None` where decoding fails) and the raw body.
   */
  datatype Submission =
    | SubmitFailed(message: string)
    | Answered(status: int, asResult: Option<FalResponse>, asTicket: Option<string>, body: string)

  /** What fetching the finished result produced. */
  datatype Fetch = FetchFailed(message: string) | Fetched(parsed: Option<FalResponse>)

  /** What one status check produced: a failed or unreadable check is skipped. */
  datatype PollAttempt =
    | CheckFailed
    | Unparsable
    | Status(status: string, error: string, fetch: Fetch)

  const MaxPollAttempts := 30

  /** A check that ends the polling. */
  predicate Decisive(p: PollAttempt)
  {
    p.Status? && (p.status == "COMPLETED" || p.status == "FAILED")
  }

  function Settle(p: PollAttempt): (r: Result<FalResponse>)
    requires Decisive(p)
  {
    if p.status == "COMPLETED" then
      match p.fetch
      case FetchFailed(m) => Err(m)
      case Fetched(parsed) =>
        if parsed.Some? then Ok(parsed.value) else Err("failed to unmarshal result")
    else Err("image generation failed: " + p.error)
  }

  /** The outcome of polling from check `i` on. */
  function PollFrom(poll: nat -> PollAttempt, i: nat): Result<FalResponse>
    decreases MaxPollAttempts - i
  {
    if i >= MaxPollAttempts then Err("timeout waiting for image generation")
    else if Decisive(poll(i)) then Settle(poll(i))
    else PollFrom(poll, i + 1)
  }

  /** `pollForResult`; `checks` is the number of status checks made. */
  method PollForResult(poll: nat -> PollAttempt) returns (result: Result<FalResponse>, checks: nat)
    ensures result == PollFrom(poll, 0)
    ensures 1 <= checks <= MaxPollAttempts
    ensures checks < MaxPollAttempts ==> Decisive(poll(checks - 1))
    ensures forall k :: 0 <= k < checks - 1 ==> !Decisive(poll(k))
  {
    var i := 0;
    while i < MaxPollAttempts
      invariant 0 <= i <= MaxPollAttempts
      invariant PollFrom(poll, i) == PollFrom(poll, 0)
      invariant forall k :: 0 <= k < i ==> !Decisive(poll(k))
    {
      var attempt := poll(i);
      if attempt.Status? && attempt.status == "COMPLETED" {
        match attempt.fetch
        case FetchFailed(m) =>
          return Err(m), i + 1;
        case Fetched(parsed) =>
          if parsed.None? {
            return Err("failed to unmarshal result"), i + 1;
          }
          return Ok(parsed.value), i + 1;
      }
      if attempt.Status? && attempt.status == "FAILED" {
        return Err("image generation failed: " + attempt.error), i + 1;
      }
      i := i + 1;
    }
    return Err("timeout waiting for image generation"), MaxPollAttempts;
  }

  /** Without a decisive check among the first 30, polling times out. */
  lemma {:induction false} PollTimesOut(poll: nat -> PollAttempt, i: nat)
    requires forall k :: i <= k < MaxPollAttempts ==> !Decisive(poll(k))
    ensures PollFrom(poll, i) == Err("timeout waiting for image generation")
    decreases MaxPollAttempts - i
  {
    if i < MaxPollAttempts {
      PollTimesOut(poll, i + 1);
    }
  }

  /** The first decisive check among the first 30 settles the outcome; later checks do not matter. */
  lemma {:induction false} PollFirstDecisive(poll: nat -> PollAttempt, i: nat, j: nat)
    requires i <= j < MaxPollAttempts && Decisive(poll(j))
    requires forall k :: i <= k < j ==> !Decisive(poll(k))
    ensures PollFrom(poll, i) == Settle(poll(j))
    decreases j - i
  {
    if i < j {
      PollFirstDecisive(poll, i + 1, j);
    }
  }

  /** `GenerateImage`: the request sent (`None` when unconfigured) and the outcome. */
  method GenerateImage(apiKey: string, prompt: string, negativePrompt: string, submission: Submission,
                       poll: nat -> PollAttempt)
    returns (request: Option<FalRequest>, result: Result<FalResponse>)
    ensures apiKey == "" <==> request.None?
    ensures apiKey == "" ==> result == Err("FAL API key not configured")
    ensures request.Some? ==>
              request.value == FalRequest(prompt, if negativePrompt == "" then DefaultNegativePrompt else negativePrompt,
                                          "square_hd", 1, true)
    ensures request.Some? ==> result == Dispatch(submission, poll)
  {
    if apiKey == "" {
      return None, Err("FAL API key not configured");
    }
    var negative := negativePrompt;
    if negative == "" {
      negative := DefaultNegativePrompt;
    }
    request := Some(FalRequest(prompt, negative, "square_hd", 1, true));
    match submission
    case SubmitFailed(m) =>
      result := Err(m);
    case Answered(status, asResult, asTicket, body) =>
      if status == 200 {
        if asResult.None? {
          result := Err("failed to unmarshal response, body: " + body);
        } else {
          result := Ok(asResult.value);
        }
      } else if status == 202 {
        if asTicket.None? {
          result := Err("failed to unmarshal queue response");
        } else {
          var checks;
          result, checks := PollForResult(poll);
        }
      } else {
        result := Err("FAL API error: status " + IntToDecimal(status) + ", body: " + body);
      }
  }

  /** The status dispatch after a submission: 200 is the result, 202 is polled, anything else an error. */
  function Dispatch(submission: Submission, poll: nat -> PollAttempt): (r: Result<FalResponse>)
    ensures submission.Answered? && submission.status == 200 && submission.asResult.Some? ==>
              r == Ok(submission.asResult.value)
    ensures submission.Answered? && submission.status == 202 && submission.asTicket.Some? ==>
              r == PollFrom(poll, 0)
    ensures submission.Answered? && submission.status != 200 && submission.status != 202 ==> r.Err?
  {
    match submission
    case SubmitFailed(m) => Err(m)
    case Answered(status, asResult, asTicket, body) =>
      if status == 200 then
        if asResult.None? then Err("failed to unmarshal response, body: " + body) else Ok(asResult.value)
      else if status == 202 then
        if asTicket.None? then Err("failed to unmarshal queue response") else PollFrom(poll, 0)
      else Err("FAL API error: status " + IntToDecimal(status) + ", body: " + body)
  }

  /** `GenerateCompanionPhoto`: the first image's URL, or an error when none came back. */
  method GenerateCompanionPhoto(apiKey: string, a: CompanionAppearance, context: string, photoType: string,
                                submission: Submission, poll: nat -> PollAttempt)
    returns (request: Option<FalRequest>, result: Result<string>)
    ensures request.Some? ==> request.value.prompt == ImagePrompt(a, context, photoType)
    ensures request.Some? ==> request.value.negativePrompt == DefaultNegativePrompt
    ensures apiKey == "" ==> request.None? && result == Err("FAL API key not configured")
    ensures apiKey != "" ==> result == PhotoUrl(Dispatch(submission, poll))
  {
    var prompt := BuildImagePrompt(a, context, photoType);
    var resp;
    request, resp := GenerateImage(apiKey, prompt, "", submission, poll);
    if resp.Err? {
      return request, Err(resp.message);
    }
    if |resp.value.images| == 0 {
      return request, Err("no images generated");
    }
    result := Ok(resp.value.images[0].url);
  }

  function PhotoUrl(r: Result<FalResponse>): (u: Result<string>)
    ensures u.Ok? <==> r.Ok? && r.value.images != []
    ensures u.Ok? ==> u.value == r.value.images[0].url
    ensures r.Ok? && r.value.images == [] ==> u == Err("no images generated")
  {
    match r
    case Err(m) => Err(m)
    case Ok(resp) => if |resp.images| == 0 then Err("no images generated") else Ok(resp.images[0].url)
  }
}
