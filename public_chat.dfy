/**
 * app/api/chat/public/route.ts: the front end's own rule-based reply engine.
 * A keyword classifier over the lower-cased message picks a reply pool; the
 * first rule that matches wins. `Math.random()` becomes the index `draw`.
 *
 * As written, `mockCompanions[companionId]` also reads the members every
 * object inherits, so an id such as "toString" counts as a known companion
 * named "toString". `GenerateResponseAsWritten` and `CompanionNameAsWritten`
 * model that; `GenerateResponse` and `Post` read own keys only.
 */
module PublicChat {
  import opened Wrappers
  import opened Strings
  import opened JsObjects

  datatype MockCompanion = MockCompanion(id: string, name: string, personality: string)

  const MockCompanions: seq<MockCompanion> := [
    MockCompanion("mia-chen", "Mia Chen", "confident, playful, energetic"),
    MockCompanion("sofia-martinez", "Sofia Martinez", "sweet, artistic, spontaneous"),
    MockCompanion("emma-laurent", "Emma Laurent", "sophisticated, intellectual, mysterious"),
    MockCompanion("aria-rose", "Aria Rose", "calm, spiritual, nurturing"),
    MockCompanion("alex-rivera", "Alex Rivera", "charming, ambitious, adventurous"),
    MockCompanion("ryan-kim", "Ryan Kim", "protective, loyal, athletic"),
    MockCompanion("atlas-monroe", "Atlas Monroe", "mysterious, intense, romantic"),
    MockCompanion("kai-nakamura", "Kai Nakamura", "laid-back, friendly, free-spirited"),
    MockCompanion("sakura-tanaka", "Sakura Tanaka", "bubbly, cheerful, creative"),
    MockCompanion("luna-nightshade", "Luna Nightshade", "mysterious, ethereal, enigmatic"),
    MockCompanion("nova-valentine", "Nova Valentine", "tsundere, secretly romantic, strict")
  ]

  /** `mockCompanions[companionId]`. */
  function Lookup(id: string): (r: Option<MockCompanion>)
    ensures r.Some? ==> r.value in MockCompanions && r.value.id == id && r.value.name != ""
    ensures r.None? ==> forall c :: c in MockCompanions ==> c.id != id
  {
    MockNamesNonEmpty();
    LookupIn(MockCompanions, id)
  }

  lemma MockNamesNonEmpty()
    ensures forall c :: c in MockCompanions ==> c.name != ""
  {
    forall c | c in MockCompanions ensures c.name != "" {
      var k :| 0 <= k < |MockCompanions| && MockCompanions[k] == c;
    }
  }

  function LookupIn(table: seq<MockCompanion>, id: string): (r: Option<MockCompanion>)
    ensures r.Some? ==> r.value in table && r.value.id == id
    ensures r.None? ==> forall c :: c in table ==> c.id != id
  {
    if table == [] then None
    else if table[0].id == id then Some(table[0])
    else LookupIn(table[1..], id)
  }

  const UnknownCompanionReply := "Hey there! I'm happy to chat with you."

  const Greetings: seq<string> := [
    "Hey! So glad you're here. What's on your mind?",
    "Hi there! I was just thinking about you.",
    "Hello! It's always nice to hear from you."
  ]
  const HowAreYouReply := "I'm doing great now that you're here! How about you?"
  const PhotoReply := "I'd love to share a photo with you! Here's one I just took..."
  const LoveReply := "Aww, that's so sweet! You always know how to make me smile."
  const QuestionReplies: seq<string> := [
    "That's a great question! Let me think about it...",
    "Hmm, I love how curious you are!",
    "I've been wondering about that too, actually."
  ]
  const DefaultReplies: seq<string> := [
    "I really enjoy talking with you. Tell me more!",
    "That's interesting! What made you think of that?",
    "I love how open you are with me. It means a lot.",
    "You always have such interesting things to say!"
  ]

  /** The rule that fires, in the order the route tests them. */
  datatype Intent = Greeting | HowAreYou | Photo | Love | Question | Chatter

  /** The route's if-chain over the lower-cased message. */
  function Classify(lower: string): Intent
  {
    if Contains(lower, "hello") || Contains(lower, "hi") || Contains(lower, "hey") then Greeting
    else if Contains(lower, "how are you") then HowAreYou
    else if Contains(lower, "photo") || Contains(lower, "selfie") || Contains(lower, "picture") then Photo
    else if Contains(lower, "love") || Contains(lower, "miss") then Love
    else if Contains(lower, "?") then Question
    else Chatter
  }

  function Pool(i: Intent): (r: seq<string>)
    ensures |r| >= 1
    ensures forall k :: 0 <= k < |r| ==> r[k] != ""
  {
    match i
    case Greeting => Greetings
    case HowAreYou => [HowAreYouReply]
    case Photo => [PhotoReply]
    case Love => [LoveReply]
    case Question => QuestionReplies
    case Chatter => DefaultReplies
  }

  /** `pool[Math.floor(Math.random() * pool.length)]`, the random number given as `draw`. */
  function Pick(pool: seq<string>, draw: nat): (r: string)
    requires |pool| >= 1
    ensures r in pool
  {
    pool[draw % |pool|]
  }

  /**
   * `generateResponse`. The mood is accepted but does not take part in the
   * reply (its style string is computed and never read).
   */
  function GenerateResponse(companionId: string, message: string, mood: Option<string>, draw: nat): (r: string)
    ensures r != ""
    ensures Lookup(companionId).None? ==> r == UnknownCompanionReply
    ensures Lookup(companionId).Some? ==> r in Pool(Classify(Lower(message)))
  {
    if Lookup(companionId).None? then UnknownCompanionReply
    else Pick(Pool(Classify(Lower(message))), draw)
  }

  /** `generateResponse` as written: an inherited member counts as a companion. */
  function GenerateResponseAsWritten(companionId: string, message: string, mood: Option<string>, draw: nat): (r: string)
    ensures companionId !in PrototypeKeys ==> r == GenerateResponse(companionId, message, mood, draw)
  {
    if Lookup(companionId).None? && companionId !in PrototypeKeys then UnknownCompanionReply
    else Pick(Pool(Classify(Lower(message))), draw)
  }

  /** `companion?.name || "AI Companion"` as written: an inherited function has a name. */
  function CompanionNameAsWritten(companionId: string): (name: string)
    ensures companionId !in PrototypeKeys ==>
              name == (if Lookup(companionId).Some? && Lookup(companionId).value.name != "" then Lookup(companionId).value.name
                       else "AI Companion")
  {
    if Lookup(companionId).Some? && Lookup(companionId).value.name != "" then Lookup(companionId).value.name
    else if companionId in PrototypeKeys && InheritedName(companionId).Some? then InheritedName(companionId).value
    else "AI Companion"
  }

  /**
   * The id "toString" is no companion, yet the code as written greets back
   * in the name "toString" instead of giving the fixed reply.
   */
  lemma InheritedKeyAnswered(draw: nat)
    ensures GenerateResponseAsWritten("toString", "hello", None, draw) in Greetings
    ensures CompanionNameAsWritten("toString") == "toString"
    ensures GenerateResponse("toString", "hello", None, draw) == UnknownCompanionReply
  {
    ToStringUnknown();
    HelloGreets();
    assert GenerateResponseAsWritten("toString", "hello", None, draw) == Pick(Greetings, draw);
    assert InheritedName("toString") == Some("toString");
  }

  lemma ToStringUnknown()
    ensures Lookup("toString").None?
    ensures "toString" in PrototypeKeys
  {
  }

  lemma HelloGreets()
    ensures Classify(Lower("hello")) == Greeting
  {
    assert Lower("hello") == "hello";
    assert "hello"[..5] == "hello";
    ContainsAt("hello", "hello", 0);
  }

  // ------------------------------------------------------------------ POST

  /** The parsed body; `None` for an absent key. */
  datatype ChatRequest = ChatRequest(companionId: Option<string>, message: Option<string>, mood: Option<string>)

  datatype ChatResponse =
    | ErrorResponse(status: int, error: string)
    | ReplyResponse(response: string, companionId: string, companion: string)

  predicate Truthy(s: Option<string>) { s.Some? && s.value != "" }

  /** `POST`: `body` is `None` when `request.json()` throws. */
  function Post(body: Option<ChatRequest>, draw: nat): (r: ChatResponse)
    ensures body.None? ==> r == ErrorResponse(500, "Failed to process chat request")
    ensures body.Some? && !(Truthy(body.value.companionId) && Truthy(body.value.message)) ==>
              r == ErrorResponse(400, "companionId and message are required")
    ensures r.ReplyResponse? <==>
              body.Some? && Truthy(body.value.companionId) && Truthy(body.value.message)
    ensures r.ReplyResponse? ==>
              r.companionId == body.value.companionId.value &&
              r.response == GenerateResponse(r.companionId, body.value.message.value, body.value.mood, draw) &&
              r.response != "" &&
              r.companion == (if Lookup(r.companionId).Some? then Lookup(r.companionId).value.name
                              else "AI Companion")
  {
    if body.None? then ErrorResponse(500, "Failed to process chat request")
    else
      var req := body.value;
      if !Truthy(req.companionId) || !Truthy(req.message) then
        ErrorResponse(400, "companionId and message are required")
      else
        var id := req.companionId.value;
        var companion := Lookup(id);
        ReplyResponse(GenerateResponse(id, req.message.value, req.mood, draw), id,
                      if companion.Some? && companion.value.name != "" then companion.value.name
                      else "AI Companion")
  }

  // ---------------------------------------------------------------- lemmas

  /** The keywords of each rule, as a table. */
  function Keywords(i: Intent): seq<string>
  {
    match i
    case Greeting => ["hello", "hi", "hey"]
    case HowAreYou => ["how are you"]
    case Photo => ["photo", "selfie", "picture"]
    case Love => ["love", "miss"]
    case Question => ["?"]
    case Chatter => []
  }

  const RuleOrder: seq<Intent> := [Greeting, HowAreYou, Photo, Love, Question]

  predicate Fires(lower: string, i: Intent)
  {
    exists k :: 0 <= k < |Keywords(i)| && Contains(lower, Keywords(i)[k])
  }

  /**
   * First match wins: the intent chosen is rule `j` exactly when rule `j`'s
   * keywords occur and no earlier rule's do; with none occurring it is the
   * default pool.
   */
  lemma ClassifyFirstMatch(lower: string)
    ensures forall j :: 0 <= j < |RuleOrder| ==>
              (Classify(lower) == RuleOrder[j] <==>
                 Fires(lower, RuleOrder[j]) && forall j' :: 0 <= j' < j ==> !Fires(lower, RuleOrder[j']))
    ensures Classify(lower) == Chatter <==> forall j :: 0 <= j < |RuleOrder| ==> !Fires(lower, RuleOrder[j])
  {
    var ks := Keywords(Greeting);
    assert Fires(lower, Greeting) <==> Contains(lower, ks[0]) || Contains(lower, ks[1]) || Contains(lower, ks[2]);
    ks := Keywords(Photo);
    assert Fires(lower, Photo) <==> Contains(lower, ks[0]) || Contains(lower, ks[1]) || Contains(lower, ks[2]);
    ks := Keywords(Love);
    assert Fires(lower, Love) <==> Contains(lower, ks[0]) || Contains(lower, ks[1]);
    ks := Keywords(HowAreYou);
    assert Fires(lower, HowAreYou) <==> Contains(lower, ks[0]);
    ks := Keywords(Question);
    assert Fires(lower, Question) <==> Contains(lower, ks[0]);
    assert RuleOrder[0] == Greeting && RuleOrder[1] == HowAreYou && RuleOrder[2] == Photo;
    assert RuleOrder[3] == Love && RuleOrder[4] == Question;
  }

  /** An unknown companion gets the fixed greeting whatever the message and mood. */
  lemma UnknownCompanionFixed(id: string, m1: string, m2: string, mood1: Option<string>, mood2: Option<string>,
                              d1: nat, d2: nat)
    requires Lookup(id).None?
    ensures GenerateResponse(id, m1, mood1, d1) == GenerateResponse(id, m2, mood2, d2) == UnknownCompanionReply
  {
  }

  /** The mood never changes the reply. */
  lemma MoodIgnored(id: string, m: string, mood1: Option<string>, mood2: Option<string>, draw: nat)
    ensures GenerateResponse(id, m, mood1, draw) == GenerateResponse(id, m, mood2, draw)
  {
  }

  /**
   * The greeting rule is a plain substring test, so "hi" inside a longer word
   * shadows the later rules: a message asking for "this picture" is greeted.
   */
  lemma GreetingShadowsPhoto(s: string)
    requires Contains(s, "hi")
    ensures Classify(Lower(s + " picture")) == Greeting
  {
    LowerAppend(s, " picture");
    LowerPreservesContains(s, "hi");
    ContainsInPrefix(Lower(s), Lower(" picture"), "hi");
  }

  /** Lowering keeps every occurrence of a lower-case needle. */
  lemma LowerPreservesContains(s: string, sub: string)
    requires Contains(s, sub)
    requires forall i :: 0 <= i < |sub| ==> !IsAsciiUpper(sub[i])
    ensures Contains(Lower(s), sub)
  {
    var j := ContainsWitness(s, sub);
    assert Lower(s)[j..j + |sub|] == sub by {
      forall k | 0 <= k < |sub| ensures Lower(s)[j..j + |sub|][k] == sub[k] {
        assert s[j + k] == sub[k];
      }
    }
    ContainsAt(Lower(s), sub, j);
  }
}
