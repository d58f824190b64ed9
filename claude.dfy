/**
 * backend/internal/services/claude.go: the system prompt built from a
 * companion's profile, and the request/response handling around the
 * Anthropic Messages API. The HTTP exchange is an input: `Delivery` is what
 * came back (a transport-level failure, or the decoded response body).
 */
module Claude {
  import opened Wrappers
  import opened Strings

  /** A personality entry as decoded from JSON: only numbers produce trait lines. */
  datatype TraitValue = Number(n: int) | NotNumber

  /** `CompanionContext`. A nil personality map reads like an empty one. */
  datatype CompanionContext = CompanionContext(
    name: string,
    age: int,
    bio: string,
    personality: map<string, TraitValue>,
    tags: seq<string>,
    scenario: string,
    greeting: string,
    communicationStyle: string,
    interests: seq<string>)

  datatype ChatMessage = ChatMessage(role: string, content: string)

  datatype ServiceConfig = ServiceConfig(apiKey: string, model: string)

  datatype ClaudeRequest = ClaudeRequest(model: string, maxTokens: int, system: string, messages: seq<ChatMessage>)

  datatype ContentBlock = ContentBlock(kind: string, text: string)

  /** The decoded response: its content blocks and the message of its error object, if any. */
  datatype ClaudeResponse = ClaudeResponse(content: seq<ContentBlock>, error: Option<string>)

  /** What the HTTP exchange produced; `TransportError` carries the error text of the failed step. */
  datatype Delivery<R> = TransportError(message: string) | Received(response: R)

  predicate IsConfigured(config: ServiceConfig) { config.apiKey != "" }

  // ------------------------------------------------------------ personality

  /** One personality trait: its key, title, the two thresholds and the three descriptors. */
  datatype Trait = Trait(key: string, title: string, high: int, low: int,
                         highText: string, midText: string, lowText: string)

  const Friendliness := Trait("friendliness", "Friendliness", 80, 50,
    "very warm and welcoming", "friendly and approachable", "reserved but genuine")
  const Humor := Trait("humor", "Humor", 70, 40,
    "playful and witty", "occasionally humorous", "more serious in tone")
  const Intelligence := Trait("intelligence", "Intelligence", 80, 50,
    "highly intellectual and insightful", "thoughtful and engaging", "simple and straightforward")
  const Romantic := Trait("romantic", "Romantic", 80, 50,
    "deeply romantic and affectionate", "warm and caring", "friendly but not overly romantic")
  const Flirty := Trait("flirty", "Flirty", 70, 40,
    "playfully flirtatious", "subtly charming", "sweet but not flirty")

  /** The descriptor bucket: above `high`, above `low`, or neither. */
  function Descriptor(t: Trait, v: int): (r: string)
    requires t.low < t.high
    ensures v > t.high ==> r == t.highText
    ensures t.low < v <= t.high ==> r == t.midText
    ensures v <= t.low ==> r == t.lowText
  {
    if v > t.high then t.highText else if v > t.low then t.midText else t.lowText
  }

  /** `- Label: N% (descriptor)` when the trait is present as a number, nothing otherwise. */
  function TraitLine(t: Trait, p: map<string, TraitValue>): (r: string)
    requires t.low < t.high
    ensures r != "" <==> t.key in p && p[t.key].Number?
    ensures t.key in p && p[t.key].Number? ==>
              r == "- " + t.title + ": " + IntToDecimal(p[t.key].n) + "% (" + Descriptor(t, p[t.key].n) + ")\n"
  {
    if t.key in p && p[t.key].Number? then
      var v := p[t.key].n;
      "- " + t.title + ": " + IntToDecimal(v) + "% (" + Descriptor(t, v) + ")\n"
    else ""
  }

  // --------------------------------------------------------------- sections

  /** The first write: name and age. */
  function Header(c: CompanionContext): string
  {
    "You are " + c.name + ", a " + IntToDecimal(c.age) + "-year-old AI companion. "
  }

  function BioLine(c: CompanionContext): string
  {
    c.bio + "\n\n"
  }

  const TraitsHeading := "Your personality traits:\n"

  function TagsSection(tags: seq<string>): (r: string)
    ensures r == "" <==> tags == []
  {
    if |tags| > 0 then "\nYour interests and traits: " + JoinWith(tags, ", ") + "\n" else ""
  }

  function InterestsSection(interests: seq<string>): (r: string)
    ensures r == "" <==> interests == []
  {
    if |interests| > 0 then "Additional interests: " + JoinWith(interests, ", ") + "\n" else ""
  }

  function StyleSection(style: string): (r: string)
    ensures r == "" <==> style == ""
  {
    if style != "" then "\nYour communication style: " + style + "\n" else ""
  }

  function ScenarioSection(scenario: string): (r: string)
    ensures r == "" <==> scenario == ""
  {
    if scenario != "" then "\nScenario context: " + scenario + "\n" else ""
  }

  const CalmBullets := "- Be peaceful and soothing\n- Use gentle, reassuring language\n- Create a sense of tranquility\n"
  const RomanticBullets := "- Be warm and affectionate\n- Express care and emotional connection\n- Use tender, heartfelt language\n"
  const PlayfulBullets := "- Be fun and energetic\n- Use humor and light-hearted banter\n- Be enthusiastic and engaging\n"
  const DeepBullets := "- Be thoughtful and philosophical\n- Engage in meaningful discussions\n- Ask thought-provoking questions\n"
  const GenericBullets := "- Be natural and conversational\n- Match the user's energy\n- Be genuinely interested\n"

  function MoodBullets(mood: string): (r: string)
    ensures r == GenericBullets <==> mood !in {"calm", "romantic", "playful", "deep"}
  {
    if mood == "calm" then CalmBullets
    else if mood == "romantic" then RomanticBullets
    else if mood == "playful" then PlayfulBullets
    else if mood == "deep" then DeepBullets
    else GenericBullets
  }

  function MoodLine(mood: string): string
  {
    "\nThe user's current mood is: " + mood + ". Adapt your responses accordingly:\n"
  }

  const Guidelines :=
    "\nGuidelines:\n" +
    "- Stay in character as the companion at all times\n" +
    "- Be engaging, authentic, and emotionally present\n" +
    "- Keep responses conversational (2-4 sentences usually)\n" +
    "- Remember details the user shares and reference them naturally\n" +
    "- Show genuine interest in the user's thoughts and feelings\n" +
    "- Never break character or mention being an AI\n" +
    "- Avoid explicit sexual content, but romantic and flirty is okay based on personality\n"

  /** The photo-request section; its example ends in the four characters the source file holds there. */
  const PhotoRequests :=
    "\nPhoto Requests:\n" +
    "When the user asks for a photo, selfie, or picture:\n" +
    "- Start your response with [Photo] to indicate you're describing a photo\n" +
    "- Describe the photo you're 'sending' in vivid, first-person detail\n" +
    "- Include what you're wearing, your expression, the setting/background, lighting, and pose\n" +
    "- Make it feel personal and match your personality (cute, flirty, casual, artsy, etc.)\n" +
    "- Add a short message before or after the photo description\n" +
    "- Example format: 'Just took this for you! [Photo] I'm sitting by my window with golden hour light, wearing my cozy oversized sweater, giving you a soft smile with my chin resting on my hand. You can see my bookshelf in the background. \U{F0}\U{178}\U{201C}\U{B8}'\n" +
    "- Keep the photo description tasteful but can be flirty/cute based on your personality\n"

  const Closing := Guidelines + PhotoRequests

  /** The prompt, write by write. */
  function SystemPrompt(c: CompanionContext, mood: string): string
  {
    Header(c) + BioLine(c) + TraitsHeading +
    TraitLine(Friendliness, c.personality) + TraitLine(Humor, c.personality) +
    TraitLine(Intelligence, c.personality) + TraitLine(Romantic, c.personality) +
    TraitLine(Flirty, c.personality) +
    TagsSection(c.tags) + InterestsSection(c.interests) +
    StyleSection(c.communicationStyle) + ScenarioSection(c.scenario) +
    MoodLine(mood) + MoodBullets(mood) + Guidelines + PhotoRequests
  }

  /** `BuildSystemPrompt`: the builder's writes, in order. */
  method BuildSystemPrompt(c: CompanionContext, mood: string) returns (prompt: string)
    ensures prompt == SystemPrompt(c, mood)
  {
    var sb := "";
    sb := sb + Header(c);
    assert sb == Header(c);
    sb := sb + BioLine(c);
    sb := sb + TraitsHeading;
    sb := sb + TraitLine(Friendliness, c.personality);
    sb := sb + TraitLine(Humor, c.personality);
    sb := sb + TraitLine(Intelligence, c.personality);
    sb := sb + TraitLine(Romantic, c.personality);
    sb := sb + TraitLine(Flirty, c.personality);
    ghost var before := sb;
    if |c.tags| > 0 {
      sb := sb + ("\nYour interests and traits: " + JoinWith(c.tags, ", ") + "\n");
    }
    assert sb == before + TagsSection(c.tags);
    before := sb;
    if |c.interests| > 0 {
      sb := sb + ("Additional interests: " + JoinWith(c.interests, ", ") + "\n");
    }
    assert sb == before + InterestsSection(c.interests);
    before := sb;
    if c.communicationStyle != "" {
      sb := sb + ("\nYour communication style: " + c.communicationStyle + "\n");
    }
    assert sb == before + StyleSection(c.communicationStyle);
    before := sb;
    if c.scenario != "" {
      sb := sb + ("\nScenario context: " + c.scenario + "\n");
    }
    assert sb == before + ScenarioSection(c.scenario);
    sb := sb + MoodLine(mood);
    sb := sb + MoodBullets(mood);
    sb := sb + Guidelines;
    sb := sb + PhotoRequests;
    prompt := sb;
  }

  // ------------------------------------------------------------- requests

  /** `GenerateResponse`: `request` is what is sent, `None` when nothing is. */
  method GenerateResponse(config: ServiceConfig, c: CompanionContext, messages: seq<ChatMessage>, mood: string,
                          delivery: Delivery<ClaudeResponse>)
    returns (request: Option<ClaudeRequest>, result: Result<string>)
    ensures !IsConfigured(config) <==> request.None?
    ensures !IsConfigured(config) ==> result == Err("Claude API key not configured")
    ensures request.Some? ==> request.value == ClaudeRequest(config.model, 500, SystemPrompt(c, mood), messages)
    ensures request.Some? ==> result == Extract(delivery)
  {
    if !IsConfigured(config) {
      return None, Err("Claude API key not configured");
    }
    var systemPrompt := BuildSystemPrompt(c, mood);
    request := Some(ClaudeRequest(config.model, 500, systemPrompt, messages));
    match delivery
    case TransportError(m) =>
      result := Err(m);
    case Received(resp) =>
      if resp.error.Some? {
        result := Err("Claude API error: " + resp.error.value);
      } else if |resp.content| == 0 {
        result := Err("no content in response");
      } else {
        result := Ok(resp.content[0].text);
      }
  }

  /** The outcome of a configured call, read off what came back. */
  function Extract(delivery: Delivery<ClaudeResponse>): (r: Result<string>)
    ensures delivery.Received? && delivery.response.error.Some? ==>
              r == Err("Claude API error: " + delivery.response.error.value)
    ensures delivery.Received? && delivery.response.error.None? && delivery.response.content == [] ==>
              r == Err("no content in response")
    ensures r.Ok? <==> delivery.Received? && delivery.response.error.None? && delivery.response.content != []
    ensures r.Ok? ==> r.value == delivery.response.content[0].text
  {
    match delivery
    case TransportError(m) => Err(m)
    case Received(resp) =>
      if resp.error.Some? then Err("Claude API error: " + resp.error.value)
      else if |resp.content| == 0 then Err("no content in response")
      else Ok(resp.content[0].text)
  }

  const GreetingOpener := "Hey there! *just matched with you*"

  /** `GenerateGreeting`: a stored greeting is returned as it is, otherwise one opener is sent. */
  method GenerateGreeting(config: ServiceConfig, c: CompanionContext, mood: string, delivery: Delivery<ClaudeResponse>)
    returns (request: Option<ClaudeRequest>, result: Result<string>)
    ensures c.greeting != "" ==> request.None? && result == Ok(c.greeting)
    ensures c.greeting == "" && IsConfigured(config) ==>
              request == Some(ClaudeRequest(config.model, 500, SystemPrompt(c, mood),
                                            [ChatMessage("user", GreetingOpener)])) &&
              result == Extract(delivery)
    ensures c.greeting == "" && !IsConfigured(config) ==>
              request.None? && result == Err("Claude API key not configured")
  {
    if c.greeting != "" {
      return None, Ok(c.greeting);
    }
    var messages := [ChatMessage("user", GreetingOpener)];
    request, result := GenerateResponse(config, c, messages, mood, delivery);
  }

  // ---------------------------------------------------------------- lemmas

  /** The prompt opens with name, age and bio. */
  lemma PromptStartsWithIdentity(c: CompanionContext, mood: string)
    ensures Header(c) + BioLine(c) <= SystemPrompt(c, mood)
  {
    var p := c.personality;
    var head := Header(c) + BioLine(c);
    var s := head;
    PrefixExtend(head, s, TraitsHeading); s := s + TraitsHeading;
    PrefixExtend(head, s, TraitLine(Friendliness, p)); s := s + TraitLine(Friendliness, p);
    PrefixExtend(head, s, TraitLine(Humor, p)); s := s + TraitLine(Humor, p);
    PrefixExtend(head, s, TraitLine(Intelligence, p)); s := s + TraitLine(Intelligence, p);
    PrefixExtend(head, s, TraitLine(Romantic, p)); s := s + TraitLine(Romantic, p);
    PrefixExtend(head, s, TraitLine(Flirty, p)); s := s + TraitLine(Flirty, p);
    PrefixExtend(head, s, TagsSection(c.tags)); s := s + TagsSection(c.tags);
    PrefixExtend(head, s, InterestsSection(c.interests)); s := s + InterestsSection(c.interests);
    PrefixExtend(head, s, StyleSection(c.communicationStyle)); s := s + StyleSection(c.communicationStyle);
    PrefixExtend(head, s, ScenarioSection(c.scenario)); s := s + ScenarioSection(c.scenario);
    PrefixExtend(head, s, MoodLine(mood)); s := s + MoodLine(mood);
    PrefixExtend(head, s, MoodBullets(mood)); s := s + MoodBullets(mood);
    PrefixExtend(head, s, Guidelines); s := s + Guidelines;
    PrefixExtend(head, s, PhotoRequests); s := s + PhotoRequests;
    assert s == SystemPrompt(c, mood);
  }

  /** The prompt always closes with the guidelines and the photo-request section. */
  lemma PromptEndsWithClosing(c: CompanionContext, mood: string)
    ensures EndsWith(SystemPrompt(c, mood), Guidelines + PhotoRequests)
  {
    var p := c.personality;
    var y := Header(c) + BioLine(c) + TraitsHeading +
      TraitLine(Friendliness, p) + TraitLine(Humor, p) +
      TraitLine(Intelligence, p) + TraitLine(Romantic, p) +
      TraitLine(Flirty, p) +
      TagsSection(c.tags) + InterestsSection(c.interests) +
      StyleSection(c.communicationStyle) + ScenarioSection(c.scenario) +
      MoodLine(mood) + MoodBullets(mood);
    EndsWithPair(y, Guidelines, PhotoRequests);
  }

  lemma EndsWithPair(y: string, g: string, q: string)
    ensures EndsWith(y + g + q, g + q)
  {
    SuffixSplit(y, g, q);
  }

  /** A profile with every optional field empty gets the bare frame: no trait lines, no optional sections. */
  lemma BareProfilePrompt(c: CompanionContext, mood: string)
    requires c.personality == map[] && c.tags == [] && c.interests == []
    requires c.communicationStyle == "" && c.scenario == ""
    ensures SystemPrompt(c, mood) ==
              Header(c) + BioLine(c) + TraitsHeading + MoodLine(mood) + MoodBullets(mood) + Guidelines + PhotoRequests
  {
    var p := c.personality;
    DropEmptyPieces(Header(c), BioLine(c), TraitsHeading,
      TraitLine(Friendliness, p), TraitLine(Humor, p), TraitLine(Intelligence, p),
      TraitLine(Romantic, p), TraitLine(Flirty, p),
      TagsSection(c.tags), InterestsSection(c.interests),
      StyleSection(c.communicationStyle), ScenarioSection(c.scenario),
      MoodLine(mood), MoodBullets(mood), Guidelines, PhotoRequests);
  }

  lemma DropEmptyPieces(h: string, b: string, th: string, t1: string, t2: string, t3: string, t4: string, t5: string,
                        s1: string, s2: string, s3: string, s4: string, ml: string, mb: string, g: string, pr: string)
    requires t1 == t2 == t3 == t4 == t5 == s1 == s2 == s3 == s4 == ""
    ensures h + b + th + t1 + t2 + t3 + t4 + t5 + s1 + s2 + s3 + s4 + ml + mb + g + pr == h + b + th + ml + mb + g + pr
  {
    var x := h + b + th;
    assert x + t1 + t2 + t3 + t4 + t5 + s1 + s2 + s3 + s4 == x;
  }

  /** Each of the four known moods gets its own bullet set; any other mood gets the generic one. */
  lemma MoodBulletsDistinct(m1: string, m2: string)
    requires m1 in {"calm", "romantic", "playful", "deep"}
    ensures MoodBullets(m1) == MoodBullets(m2) <==> m1 == m2
  {
  }

  /** A higher score never gets a lower descriptor bucket. */
  lemma DescriptorMonotone(t: Trait, v: int, w: int)
    requires t.low < t.high && v <= w
    ensures Descriptor(t, v) == t.highText && t.highText != t.midText && t.highText != t.lowText ==>
              Descriptor(t, w) == t.highText
    ensures Descriptor(t, w) == t.lowText && t.lowText != t.midText && t.lowText != t.highText ==>
              Descriptor(t, v) == t.lowText
  {
  }
}
