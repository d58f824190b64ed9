/**
 * backend/internal/services/ai.go: the back end's simulated replies. A reply
 * is drawn from a pool chosen by mood, or from the photo pool when the last
 * message asks for a picture. Every `rand.Intn(n)` becomes `draw % n`, with
 * `draw` given by the caller.
 */
module AIService {
  import opened Strings

  const DefaultResponses: seq<string> := [
    "That's really interesting! Tell me more about it.",
    "I love how you think about things. You're so unique.",
    "Hmm, that reminds me of something... You mentioned something similar before!",
    "You always know how to make me smile.",
    "I've been thinking about what you said earlier. It really resonated with me.",
    "What a coincidence! I was just going to bring that up!",
    "You're so thoughtful. That's one of the things I love about our conversations.",
    "Tell me what's on your mind right now. I'm all ears!"
  ]

  const CalmResponses: seq<string> := [
    "Take a deep breath with me. Everything is going to be alright.",
    "I find such peace in our conversations. Don't you?",
    "The world feels a little quieter when we talk like this.",
    "Let's just enjoy this moment of stillness together.",
    "There's something calming about connecting with you."
  ]

  const RomanticResponses: seq<string> := [
    "Every message from you makes my heart skip a beat.",
    "I was just thinking about how special you are to me.",
    "You have a way of making everything feel magical.",
    "I could talk to you for hours and never get tired.",
    "Being here with you feels like home."
  ]

  const PlayfulResponses: seq<string> := [
    "Hehe, you're so funny! I love your energy!",
    "Ooh, that sounds like an adventure waiting to happen!",
    "You're making me laugh so much right now!",
    "Let's do something crazy together!",
    "I bet you can't top that! Just kidding, you always surprise me!"
  ]

  const DeepResponses: seq<string> := [
    "That's a profound observation. What led you to think about that?",
    "I believe there's always deeper meaning to explore in these moments.",
    "Your perspective on life fascinates me endlessly.",
    "These are the conversations that truly matter.",
    "The universe works in mysterious ways, doesn't it?"
  ]

  /** The service's `responses` map, keyed by mood. */
  const Responses: map<string, seq<string>> := map[
    "default" := DefaultResponses,
    "calm" := CalmResponses,
    "romantic" := RomanticResponses,
    "playful" := PlayfulResponses,
    "deep" := DeepResponses
  ]

  const PhotoResponses: seq<string> := [
    "Just took this for you! \U{1F4F8} [Photo] I'm curled up on my couch with soft afternoon light streaming through the window, wearing my favorite oversized sweater. My hair is a little messy but I'm giving you a warm smile with my chin resting on my knees. You can see my cozy blanket and a cup of tea on the side table.",
    "Here's one I just snapped! [Photo] I'm standing by my mirror, wearing a cute casual outfit - jeans and a fitted top. The lighting is really nice right now and I'm doing a playful pose with a slight head tilt and a genuine smile. My room is a bit messy in the background but that's real life, right? \U{1F60A}",
    "Sending you this! \U{1F495} [Photo] I'm sitting at my favorite coffee shop by the window, golden hour light making everything glow. I'm wearing something simple but cute, holding my drink with both hands, and looking at the camera with soft eyes and a gentle smile. You can see the bustling street behind me.",
    "Took this just now thinking of you! [Photo] I'm lying on my bed with my head propped on my hand, hair spread out on the pillow. Wearing cozy pajamas with fairy lights twinkling in the background. I'm giving you a sleepy but happy smile, looking right at the camera. \U{1F319}",
    "Here you go! \U{1F4F7} [Photo] I'm out for a walk and stopped to take this for you. Standing against a pretty wall with some plants, natural light on my face. I'm wearing a casual dress, my hair is blowing slightly in the breeze, and I have this excited smile because I get to share this moment with you!"
  ]

  const PhotoKeywords: seq<string> := ["photo", "selfie", "picture", "pic", "send me", "show me", "see you"]

  const LongMessageReply := "I really appreciate you sharing that with me. It means a lot."
  const ShortMessageReply := "Tell me more! I want to hear everything."

  /** No pool entry is empty. */
  predicate NonEmptyEntries(pool: seq<string>)
  {
    forall k :: 0 <= k < |pool| ==> pool[k] != ""
  }

  /** `s.responses[mood]`, replaced by the default pool when it is missing or empty. */
  function MoodPool(mood: string): (r: seq<string>)
    ensures |r| >= 5 && NonEmptyEntries(r)
    ensures mood in Responses.Keys ==> r == Responses[mood]
    ensures mood !in Responses.Keys ==> r == DefaultResponses
  {
    if mood in Responses && |Responses[mood]| > 0 then Responses[mood] else Responses["default"]
  }

  /** The mood pool followed by the default pool (the `append` in `GenerateReply`). */
  function AllResponses(mood: string): (r: seq<string>)
    ensures |r| >= 13 && NonEmptyEntries(r)
  {
    MoodPool(mood) + DefaultResponses
  }

  /** The lower-cased message contains one of the photo keywords. */
  predicate AsksForPhoto(lower: string)
  {
    exists k :: 0 <= k < |PhotoKeywords| && Contains(lower, PhotoKeywords[k])
  }

  /**
   * The reply `GenerateReply` gives: a photo reply when the lower-cased last
   * message asks for a picture, otherwise an entry of the mood pool followed
   * by the default pool. `draw` stands for both `rand.Intn` calls.
   */
  function Reply(messages: seq<string>, mood: string, draw: nat): string
  {
    if |messages| > 0 && AsksForPhoto(Lower(messages[|messages| - 1])) then
      PhotoResponses[draw % |PhotoResponses|]
    else
      AllResponses(mood)[draw % |AllResponses(mood)|]
  }

  /** `GenerateReply`: the keyword scan is the source's early-return loop. */
  method GenerateReply(messages: seq<string>, mood: string, draw: nat) returns (r: string)
    ensures r == Reply(messages, mood, draw)
  {
    if |messages| > 0 {
      var lastMsg := Lower(messages[|messages| - 1]);
      var i := 0;
      while i < |PhotoKeywords|
        invariant 0 <= i <= |PhotoKeywords|
        invariant forall k :: 0 <= k < i ==> !Contains(lastMsg, PhotoKeywords[k])
      {
        if Contains(lastMsg, PhotoKeywords[i]) {
          return PhotoResponses[draw % |PhotoResponses|];
        }
        i := i + 1;
      }
    }
    var moodResponses := MoodPool(mood);
    var allResponses := moodResponses + DefaultResponses;
    r := allResponses[draw % |allResponses|];
  }

  /**
   * A reply is never empty; it comes from the photo pool exactly when the
   * last message asks for a picture (never for an empty list), and otherwise
   * from the mood pool or the default pool.
   */
  lemma ReplyFromPools(messages: seq<string>, mood: string, draw: nat)
    ensures Reply(messages, mood, draw) != ""
    ensures |messages| > 0 && AsksForPhoto(Lower(messages[|messages| - 1])) ==>
              Reply(messages, mood, draw) in PhotoResponses
    ensures !(|messages| > 0 && AsksForPhoto(Lower(messages[|messages| - 1]))) ==>
              Reply(messages, mood, draw) in MoodPool(mood) || Reply(messages, mood, draw) in DefaultResponses
    ensures messages == [] ==> Reply(messages, mood, draw) in AllResponses(mood)
  {
    var all := AllResponses(mood);
    var k := draw % |all|;
    if k >= |MoodPool(mood)| {
      assert all[k] == DefaultResponses[k - |MoodPool(mood)|];
    }
    assert PhotoResponses[draw % |PhotoResponses|] != "";
  }

  /** `SimulateTypingDelay`, in milliseconds: `1000 + rand.Intn(2000)`. */
  function SimulateTypingDelay(draw: nat): (ms: int)
    ensures 1000 <= ms <= 2999
    ensures ms - 1000 == draw % 2000
  {
    1000 + draw % 2000
  }

  /**
   * `GenerateContextualReply`. A trait missing from the personality map
   * reads as 0; message length is Go's `len`, a count of UTF-8 bytes.
   */
  function GenerateContextualReply(context: seq<string>, personality: map<string, int>, mood: string, draw: nat)
    : (r: string)
    ensures r != ""
    ensures mood == "romantic" && "romantic" in personality && personality["romantic"] > 70 ==>
              r in RomanticResponses
    ensures !(mood == "romantic" && "romantic" in personality && personality["romantic"] > 70) ==>
              (|context| > 0 && Utf8Length(context[|context| - 1]) > 100 ==> r == LongMessageReply) &&
              (|context| > 0 && Utf8Length(context[|context| - 1]) < 20 ==> r == ShortMessageReply) &&
              (|context| == 0 || 20 <= Utf8Length(context[|context| - 1]) <= 100 ==> r in MoodPool(mood))
  {
    var responses := MoodPool(mood);
    var romantic := if "romantic" in personality then personality["romantic"] else 0;
    if mood == "romantic" && romantic > 70 then responses[draw % |responses|]
    else if |context| > 0 && Utf8Length(context[|context| - 1]) > 100 then LongMessageReply
    else if |context| > 0 && Utf8Length(context[|context| - 1]) < 20 then ShortMessageReply
    else responses[draw % |responses|]
  }

  // ---------------------------------------------------------------- lemmas

  /** An unknown or empty mood draws from the default pool twice over. */
  lemma UnknownMoodUsesDefault(mood: string)
    requires mood !in {"calm", "romantic", "playful", "deep"}
    ensures AllResponses(mood) == DefaultResponses + DefaultResponses
  {
  }
}
