/**
 * backend/internal/api/handlers.go: the logic inside the HTTP handlers —
 * slugs for new companions, pagination, the chat history handed to the
 * language models, the Claude → Groq → rule-based tiering of the public chat,
 * and the public conversation id. Database rows and provider answers are
 * inputs.
 */
module Handlers {
  import opened Wrappers
  import opened Strings
  import opened Slugs
  import opened Int64
  import Claude
  import Groq
  import AIService

  // ------------------------------------------------------------------ slugs

  /** `strings.ReplaceAll(s, " ", "-")`. */
  function SpacesToDashes(s: string): string
  {
    if s == [] then [] else [if s[0] == ' ' then '-' else s[0]] + SpacesToDashes(s[1..])
  }

  lemma {:induction false} SpacesToDashesAlnums(s: string)
    ensures Alnums(SpacesToDashes(s)) == Alnums(s)
  {
    if s != [] {
      SpacesToDashesAlnums(s[1..]);
      AlnumsAppend([if s[0] == ' ' then '-' else s[0]], SpacesToDashes(s[1..]));
    }
  }

  lemma {:induction false} SpacesToDashesIdentity(s: string)
    requires InAlphabet(s)
    ensures SpacesToDashes(s) == s
  {
    if s != [] {
      SpacesToDashesIdentity(s[1..]);
    }
  }

  /** The slug before the fallback: lower-case, dashes for spaces, [a-z0-9-] only, runs of '-' collapsed, trimmed. */
  function SlugBase(name: string): string
  {
    TrimDashes(Squeeze(KeepSlugChars(SpacesToDashes(Lower(name)))))
  }

  /** The first eight characters of a textual UUID: lower-case hexadecimal digits. */
  predicate UuidPrefix(p: string)
  {
    |p| == 8 && forall i :: 0 <= i < |p| ==> IsAsciiDigit(p[i]) || 'a' <= p[i] <= 'f'
  }

  /** `generateSlug`; `uuidPrefix` stands for `uuid.New().String()[:8]`. */
  function GoSlug(name: string, uuidPrefix: string): string
  {
    var base := SlugBase(name);
    if base == "" then "companion-" + uuidPrefix else base
  }

  /**
   * `generateSlug`, step by step: the filtering loop over the runes and the
   * loop that replaces "--" by "-" while any is left.
   */
  method GenerateSlug(name: string, uuidPrefix: string) returns (slug: string)
    ensures slug == GoSlug(name, uuidPrefix)
  {
    var kept := KeepSlugCharsLoop(SpacesToDashes(Lower(name)));
    slug := CollapseDashes(kept);
    slug := TrimDashes(slug);
    if slug == "" {
      slug := "companion-" + uuidPrefix;
    }
  }

  /** The builder loop: the runes in [a-z0-9-], in order. */
  method KeepSlugCharsLoop(s: string) returns (kept: string)
    ensures kept == KeepSlugChars(s)
  {
    kept := "";
    var i := 0;
    while i < |s|
      invariant 0 <= i <= |s|
      invariant kept == KeepSlugChars(s[..i])
    {
      assert s[..i + 1][..i] == s[..i];
      if IsSlugChar(s[i]) {
        kept := kept + [s[i]];
      }
      i := i + 1;
    }
    assert s[..|s|] == s;
  }

  /** The loop that repeats `ReplaceAll(s, "--", "-")` while "--" is left: it ends with every dash run collapsed. */
  method CollapseDashes(s: string) returns (r: string)
    ensures r == Squeeze(s)
    ensures NoDoubleDash(r)
  {
    r := s;
    while Contains(r, "--")
      invariant Squeeze(r) == Squeeze(s)
      decreases |r|
    {
      ContainsDoubleDash(r);
      ReplaceShrinks(r);
      ReplaceSqueeze(r, '-');
      r := ReplaceDoubleDash(r);
    }
    ContainsDoubleDash(r);
    SqueezeIdentity(r);
  }

  /**
   * The slug before the fallback is well formed, keeps exactly the letters
   * and digits of the lower-cased name, and is empty exactly when there are
   * none.
   */
  lemma SlugBaseShape(name: string)
    ensures WellFormed(SlugBase(name))
    ensures Alnums(SlugBase(name)) == Alnums(Lower(name))
    ensures SlugBase(name) == "" <==> Alnums(Lower(name)) == ""
  {
    var kept := KeepSlugChars(SpacesToDashes(Lower(name)));
    SqueezeInAlphabet(kept);
    SpacesToDashesAlnums(Lower(name));
    KeepSlugCharsAlnums(SpacesToDashes(Lower(name)));
    SqueezeAlnums(kept);
    WellFormedEmpty(SlugBase(name));
  }

  /** Every slug is non-empty and well formed: [a-z0-9-] only, no "--", no '-' at either end. */
  lemma GoSlugWellFormed(name: string, uuidPrefix: string)
    requires UuidPrefix(uuidPrefix)
    ensures GoSlug(name, uuidPrefix) != ""
    ensures WellFormed(GoSlug(name, uuidPrefix))
  {
    SlugBaseShape(name);
    FallbackWellFormed(uuidPrefix);
  }

  lemma FallbackWellFormed(uuidPrefix: string)
    requires UuidPrefix(uuidPrefix)
    ensures WellFormed("companion-" + uuidPrefix)
  {
    var p := "companion-";
    var s := p + uuidPrefix;
    forall i | 0 <= i < |s| ensures IsSlugChar(s[i]) && (s[i] == '-' ==> i == 9) {
      if i < 10 {
        assert s[i] == p[i];
      } else {
        assert s[i] == uuidPrefix[i - 10];
      }
    }
  }

  /**
   * The slug keeps the name's letters and digits in order; a name without any
   * becomes "companion-" and the UUID prefix.
   */
  lemma GoSlugAlnums(name: string, uuidPrefix: string)
    ensures Alnums(Lower(name)) != "" ==> Alnums(GoSlug(name, uuidPrefix)) == Alnums(Lower(name))
    ensures Alnums(Lower(name)) == "" ==> GoSlug(name, uuidPrefix) == "companion-" + uuidPrefix
  {
    SlugBaseShape(name);
  }

  /** A non-empty well-formed slug is its own slug. */
  lemma GoSlugFixedPoint(s: string, uuidPrefix: string)
    requires WellFormed(s) && s != ""
    ensures GoSlug(s, uuidPrefix) == s
  {
    LowerIdentity(s);
    SpacesToDashesIdentity(s);
    SqueezeIdentity(s);
  }

  /** Slugging a slug changes nothing, whatever UUID the second call draws. */
  lemma GoSlugIdempotent(name: string, p: string, q: string)
    requires UuidPrefix(p)
    ensures GoSlug(GoSlug(name, p), q) == GoSlug(name, p)
  {
    GoSlugWellFormed(name, p);
    GoSlugFixedPoint(GoSlug(name, p), q);
  }

  // ------------------------------------------------------------- pagination

  /** The page, page size and row offset a list handler queries with. */
  datatype Paging = Paging(page: int, pageSize: int, offset: int)

  /**
   * The clamps of the list handlers. `page` and `pageSize` are the integers
   * the query texts spell out (0 for a text that is not an integer); `Atoi`
   * brings them into the 64-bit range. Then a page below 1 becomes 1, a page size
   * outside [1, 100] becomes the handler's default, and the offset is the
   * 64-bit product `(page - 1) * pageSize`, which wraps for huge pages.
   */
  function Paginate(page: int, pageSize: int, defaultSize: int): (p: Paging)
    requires 1 <= defaultSize <= 100
    ensures 1 <= p.page <= MaxInt64 && 1 <= p.pageSize <= 100
    ensures 1 <= page <= MaxInt64 ==> p.page == page
    ensures page > MaxInt64 ==> p.page == MaxInt64
    ensures page < 1 ==> p.page == 1
    ensures 1 <= pageSize <= 100 ==> p.pageSize == pageSize
    ensures !(1 <= pageSize <= 100) ==> p.pageSize == defaultSize
    ensures MinInt64 <= p.offset <= MaxInt64
    ensures ((p.page - 1) * p.pageSize - p.offset) % 0x1_0000_0000_0000_0000 == 0
    ensures (p.page - 1) * p.pageSize <= MaxInt64 ==> p.offset == (p.page - 1) * p.pageSize
  {
    var pg := Atoi(page);
    var size := Atoi(pageSize);
    var pg := if pg < 1 then 1 else pg;
    var size := if size < 1 || size > 100 then defaultSize else size;
    var product := (pg - 1) * size;
    assert product >= 0 by { MulMonotone(0, pg - 1, size); }
    var offset := Wrap64(product);
    assert (product - offset) % 0x1_0000_0000_0000_0000 == 0;
    Paging(pg, size, offset)
  }

  /** The largest page whose offset fits in 64 bits for every page size the handlers allow. */
  const MaxSafePage: int := MaxInt64 / 100 + 1

  /** Up to `MaxSafePage`, the offset is the exact product and never negative. */
  lemma OffsetExact(page: int, pageSize: int, defaultSize: int)
    requires 1 <= defaultSize <= 100
    requires page <= MaxSafePage
    ensures var p := Paginate(page, pageSize, defaultSize);
      p.offset == (p.page - 1) * p.pageSize && p.offset >= 0
  {
    var p := Paginate(page, pageSize, defaultSize);
    ProductFits(p.page - 1, p.pageSize);
  }

  /** A page index below `MaxSafePage` times a page size the handlers allow fits in 64 bits. */
  lemma ProductFits(a: int, b: int)
    requires 0 <= a < MaxSafePage && 1 <= b <= 100
    ensures 0 <= a * b <= MaxInt64
  {
    MulMonotone(0, a, b);
    if a >= 1 {
      MulMonotone(b, 100, a);
    }
  }

  /** A page of 20 digits comes back from `Atoi` as MaxInt64, and its offset wraps to -40. */
  lemma HugePageNegativeOffset()
    ensures Paginate(100000000000000000000, 20, 20) == Paging(MaxInt64, 20, -40)
  {
    assert (MaxInt64 - 1) * 20 == 10 * 0x1_0000_0000_0000_0000 - 40;
  }

  /** `ListCompanions`: page size 20 by default. */
  function CompanionsPaging(page: int, pageSize: int): (p: Paging)
    ensures !(1 <= pageSize <= 100) ==> p.pageSize == 20
  {
    Paginate(page, pageSize, 20)
  }

  /** `GetChatHistory`: page size 50 by default. */
  function ChatHistoryPaging(page: int, pageSize: int): (p: Paging)
    ensures !(1 <= pageSize <= 100) ==> p.pageSize == 50
  {
    Paginate(page, pageSize, 50)
  }

  /** `ListMemories`: page size 20 by default. */
  function MemoriesPaging(page: int, pageSize: int): (p: Paging)
    ensures !(1 <= pageSize <= 100) ==> p.pageSize == 20
  {
    Paginate(page, pageSize, 20)
  }

  /** Successive pages follow each other without gap or overlap. */
  lemma PagesTile(page: int, pageSize: int, defaultSize: int)
    requires 1 <= defaultSize <= 100
    requires 1 <= page < MaxSafePage
    ensures Paginate(page + 1, pageSize, defaultSize).offset ==
            Paginate(page, pageSize, defaultSize).offset + Paginate(page, pageSize, defaultSize).pageSize
  {
    var p := Paginate(page, pageSize, defaultSize);
    OffsetExact(page, pageSize, defaultSize);
    OffsetExact(page + 1, pageSize, defaultSize);
    assert page * p.pageSize == (page - 1) * p.pageSize + p.pageSize;
  }

  /** `(total + pageSize - 1) / pageSize`: the least number of pages that hold `total` rows. */
  function TotalPages(total: nat, pageSize: int): (n: nat)
    requires pageSize >= 1
    ensures n * pageSize >= total
    ensures n > 0 ==> (n - 1) * pageSize < total
  {
    var q := (total + pageSize - 1) / pageSize;
    var r := (total + pageSize - 1) % pageSize;
    assert total + pageSize - 1 == q * pageSize + r && 0 <= r < pageSize;
    assert (q - 1) * pageSize == q * pageSize - pageSize;
    q
  }

  /** Page `page` of a listing holds rows exactly when it is one of the `TotalPages`. */
  lemma PageHoldsRows(total: nat, page: int, pageSize: int)
    requires pageSize >= 1 && page >= 1
    ensures (page - 1) * pageSize < total <==> page <= TotalPages(total, pageSize)
  {
    var n := TotalPages(total, pageSize);
    if page <= n {
      MulMonotone(page - 1, n - 1, pageSize);
    } else {
      MulMonotone(n, page - 1, pageSize);
    }
  }

  lemma MulMonotone(a: int, b: int, c: int)
    requires a <= b && c >= 1
    ensures a * c <= b * c
  {
    assert b * c - a * c == (b - a) * c;
  }

  // ---------------------------------------------------------------- history

  /** A row of `SELECT sender, content … ORDER BY created_at DESC`; `Unreadable` is one that fails to scan. */
  datatype HistoryRow = Row(sender: string, content: string) | Unreadable

  /** `SendMessage` gives "ai" the role "assistant" and every other sender "user". */
  function SenderRole(sender: string): string
  {
    if sender == "ai" then "assistant" else "user"
  }

  /** The readable rows as messages, in query order (newest first). */
  function Readable(rows: seq<HistoryRow>): seq<Claude.ChatMessage>
  {
    if rows == [] then []
    else
      var last := rows[|rows| - 1];
      Readable(rows[..|rows| - 1]) +
      (if last.Row? then [Claude.ChatMessage(SenderRole(last.sender), last.content)] else [])
  }

  function Reverse<T>(s: seq<T>): (r: seq<T>)
    ensures |r| == |s|
    ensures forall i :: 0 <= i < |s| ==> r[i] == s[|s| - 1 - i]
  {
    if s == [] then [] else Reverse(s[1..]) + [s[0]]
  }

  /** The history loop of `SendMessage`: each readable row is put in front, so the result runs oldest first. */
  method SendMessageHistory(rows: seq<HistoryRow>) returns (messages: seq<Claude.ChatMessage>)
    ensures messages == Reverse(Readable(rows))
  {
    messages := [];
    var i := 0;
    while i < |rows|
      invariant 0 <= i <= |rows|
      invariant messages == Reverse(Readable(rows[..i]))
    {
      assert rows[..i + 1][..i] == rows[..i];
      if rows[i].Row? {
        messages := [Claude.ChatMessage(SenderRole(rows[i].sender), rows[i].content)] + messages;
      }
      i := i + 1;
    }
    assert rows[..|rows|] == rows;
  }

  /** The newest readable row comes last in the history and the oldest first. */
  lemma {:induction false} ReadableFirst(rows: seq<HistoryRow>)
    requires rows != [] && rows[0].Row?
    ensures Readable(rows) != []
    ensures Readable(rows)[0] == Claude.ChatMessage(SenderRole(rows[0].sender), rows[0].content)
    ensures Reverse(Readable(rows))[|Readable(rows)| - 1] == Readable(rows)[0]
  {
    if |rows| > 1 {
      var init := rows[..|rows| - 1];
      assert init[0] == rows[0];
      ReadableFirst(init);
    }
  }

  /** Every readable row, and only those, gives one message. */
  lemma {:induction false} ReadableCount(rows: seq<HistoryRow>)
    ensures |Readable(rows)| <= |rows|
    ensures (forall i :: 0 <= i < |rows| ==> rows[i].Row?) ==> |Readable(rows)| == |rows|
  {
    if rows != [] {
      ReadableCount(rows[..|rows| - 1]);
    }
  }

  /** An entry of the public chat's `history`. */
  datatype HistoryItem = HistoryItem(role: string, content: string)

  /** `PublicChat` renames "ai" to "assistant" and keeps every other role. */
  function PublicRole(role: string): string
  {
    if role == "ai" then "assistant" else role
  }

  /** The history loop of `PublicChat`, followed by the current message as "user". */
  method PublicHistory(history: seq<HistoryItem>, message: string) returns (messages: seq<Claude.ChatMessage>)
    ensures |messages| == |history| + 1
    ensures forall i :: 0 <= i < |history| ==>
              messages[i] == Claude.ChatMessage(PublicRole(history[i].role), history[i].content)
    ensures messages[|history|] == Claude.ChatMessage("user", message)
  {
    messages := [];
    var i := 0;
    while i < |history|
      invariant 0 <= i <= |history|
      invariant |messages| == i
      invariant forall k :: 0 <= k < i ==>
                  messages[k] == Claude.ChatMessage(PublicRole(history[k].role), history[k].content)
    {
      var role := history[i].role;
      if role == "ai" {
        role := "assistant";
      }
      messages := messages + [Claude.ChatMessage(role, history[i].content)];
      i := i + 1;
    }
    messages := messages + [Claude.ChatMessage("user", message)];
  }

  // ------------------------------------------------------------ SendMessage

  /** The stored mood, "romantic" when there is none. */
  function MoodOrDefault(mood: string): (m: string)
    ensures m != ""
    ensures mood != "" ==> m == mood
  {
    if mood == "" then "romantic" else mood
  }

  /**
   * The reply `SendMessage` stores: Claude's text when Claude is configured,
   * the companion and the history were read, and it answered with non-empty
   * text; otherwise the rule-based reply to the user's message alone.
   */
  method SendMessageReply(config: Claude.ServiceConfig, companion: Option<Claude.CompanionContext>,
                          rows: Option<seq<HistoryRow>>, content: string, storedMood: string,
                          delivery: Claude.Delivery<Claude.ClaudeResponse>, draw: nat)
    returns (request: Option<Claude.ClaudeRequest>, reply: string)
    ensures request.Some? <==> Claude.IsConfigured(config) && companion.Some? && rows.Some?
    ensures request.Some? ==>
              request.value == Claude.ClaudeRequest(config.model, 500,
                                 Claude.SystemPrompt(companion.value, MoodOrDefault(storedMood)),
                                 Reverse(Readable(rows.value)))
    ensures request.Some? && Claude.Extract(delivery).Ok? && Claude.Extract(delivery).value != "" ==>
              reply == Claude.Extract(delivery).value
    ensures !(request.Some? && Claude.Extract(delivery).Ok? && Claude.Extract(delivery).value != "") ==>
              reply == AIService.Reply([content], MoodOrDefault(storedMood), draw)
    ensures reply != ""
  {
    var mood := MoodOrDefault(storedMood);
    var aiContent := "";
    request := None;
    if Claude.IsConfigured(config) && companion.Some? && rows.Some? {
      var messages := SendMessageHistory(rows.value);
      var result;
      request, result := Claude.GenerateResponse(config, companion.value, messages, mood, delivery);
      if result.Ok? {
        aiContent := result.value;
      }
    }
    if aiContent == "" {
      aiContent := AIService.GenerateReply([content], mood, draw);
      AIService.ReplyFromPools([content], mood, draw);
    }
    reply := aiContent;
  }

  // ------------------------------------------------------------- PublicChat

  /** The decoded body of a public chat request. */
  datatype PublicChatBody = PublicChatBody(companionId: string, message: string, history: seq<HistoryItem>, mood: string)

  /** A companion row; the nullable scenario and greeting are options. */
  datatype CompanionRow = CompanionRow(
    id: string,
    name: string,
    age: int,
    bio: string,
    personality: map<string, Claude.TraitValue>,
    tags: seq<string>,
    scenario: Option<string>,
    greeting: Option<string>,
    communicationStyle: string,
    interests: seq<string>)

  /** The result of the companion query. */
  datatype Lookup = Found(row: CompanionRow) | NoRows | QueryFailed(message: string)

  /** The `CompanionContext` built from a row: a null scenario or greeting becomes "". */
  function ContextOf(row: CompanionRow): (c: Claude.CompanionContext)
    ensures c.name == row.name && c.bio == row.bio && c.tags == row.tags
    ensures c.scenario == row.scenario.GetOr("") && c.greeting == row.greeting.GetOr("")
  {
    Claude.CompanionContext(row.name, row.age, row.bio, row.personality, row.tags,
                            row.scenario.GetOr(""), row.greeting.GetOr(""), row.communicationStyle, row.interests)
  }

  /**
   * The outcome of `PublicChat`: an error status with its message, or the
   * reply with the companion's id and name, the X-AI-Provider header, and
   * the X-AI-Error header set when Claude failed.
   */
  datatype PublicChatOutcome =
    | Failure(status: int, error: string)
    | Answered(response: string, companionId: string, companion: string, provider: string, claudeError: Option<string>)

  /** A configured provider's text, `None` when it failed or was not asked. */
  function Answer(asked: bool, result: Result<string>): Option<string>
  {
    if asked && result.Ok? then Some(result.value) else None
  }

  /**
   * The tiering: Claude's text if it is non-empty, else Groq's if it is
   * non-empty, else the rule-based `fallback`; and the provider header,
   * "groq" whenever Groq answered, even though an empty answer is then
   * overwritten by "fallback".
   */
  function Tier(claude: Option<string>, groq: Option<string>, fallback: string): (string, string)
  {
    var content := if claude.Some? && claude.value != "" then claude.value
                   else if groq.Some? then groq.value else "";
    if content == "" then (fallback, "fallback")
    else if groq.Some? then (content, "groq")
    else (content, "claude")
  }

  /** `PublicChat`. `body` is `None` when the JSON does not bind. */
  method PublicChat(body: Option<PublicChatBody>, lookup: Lookup,
                    claudeConfig: Claude.ServiceConfig, claudeDelivery: Claude.Delivery<Claude.ClaudeResponse>,
                    groqConfig: Claude.ServiceConfig, groqDelivery: Claude.Delivery<Groq.GroqResponse>, draw: nat)
    returns (outcome: PublicChatOutcome, claudeRequest: Option<Claude.ClaudeRequest>, groqRequest: Option<Groq.GroqRequest>)
    ensures body.None? || body.value.companionId == "" || body.value.message == "" ==>
              outcome.Failure? && outcome.status == 400 && claudeRequest.None? && groqRequest.None?
    ensures body.Some? && body.value.companionId != "" && body.value.message != "" ==>
              match lookup
              case NoRows => outcome == Failure(404, "companion not found")
              case QueryFailed(m) => outcome == Failure(500, m)
              case Found(row) => outcome.Answered? && outcome.companionId == row.id && outcome.companion == row.name
    ensures claudeRequest.Some? <==> outcome.Answered? && Claude.IsConfigured(claudeConfig)
    ensures claudeRequest.Some? ==>
              claudeRequest.value.system == Claude.SystemPrompt(ContextOf(lookup.row), MoodOrDefault(body.value.mood)) &&
              |claudeRequest.value.messages| == |body.value.history| + 1
    ensures outcome.Answered? ==>
              var claude := Answer(claudeRequest.Some?, Claude.Extract(claudeDelivery));
              var askGroq := (claude.None? || claude.value == "") && Claude.IsConfigured(groqConfig);
              (groqRequest.Some? <==> askGroq) &&
              (outcome.response, outcome.provider) ==
                Tier(claude, Answer(askGroq, Groq.Extract(groqDelivery)),
                     AIService.Reply([body.value.message], MoodOrDefault(body.value.mood), draw)) &&
              (outcome.claudeError.Some? <==> claudeRequest.Some? && Claude.Extract(claudeDelivery).Err?)
    ensures outcome.Failure? ==> groqRequest.None?
  {
    claudeRequest, groqRequest := None, None;
    if body.None? || body.value.companionId == "" || body.value.message == "" {
      return Failure(400, "invalid request body"), None, None;
    }
    var req := body.value;
    var mood := MoodOrDefault(req.mood);
    if lookup.NoRows? {
      return Failure(404, "companion not found"), None, None;
    }
    if lookup.QueryFailed? {
      return Failure(500, lookup.message), None, None;
    }
    var row := lookup.row;
    var aiContent := "";
    var provider := "";
    var claudeError: Option<string> := None;
    if Claude.IsConfigured(claudeConfig) {
      var messages := PublicHistory(req.history, req.message);
      var result;
      claudeRequest, result := Claude.GenerateResponse(claudeConfig, ContextOf(row), messages, mood, claudeDelivery);
      if result.Err? {
        claudeError := Some(result.message);
      } else {
        aiContent := result.value;
      }
    }
    if aiContent == "" && Claude.IsConfigured(groqConfig) {
      var messages := PublicHistory(req.history, req.message);
      var result;
      groqRequest, result := Groq.GenerateResponse(groqConfig, ContextOf(row), messages, mood, groqDelivery);
      if result.Ok? {
        aiContent := result.value;
        provider := "groq";
      }
    }
    if aiContent == "" {
      aiContent := AIService.GenerateReply([req.message], mood, draw);
      provider := "fallback";
    } else if provider == "" {
      provider := "claude";
    }
    outcome := Answered(aiContent, row.id, row.name, provider, claudeError);
  }

  /**
   * The tiering never gives an empty reply; "fallback" is reported exactly
   * when neither provider gave text; non-empty text from Claude is used as it
   * is.
   */
  lemma TierProperties(claude: Option<string>, groq: Option<string>, fallback: string)
    requires fallback != ""
    ensures Tier(claude, groq, fallback).0 != ""
    ensures Tier(claude, groq, fallback).1 == "fallback" <==>
              (claude.None? || claude.value == "") && (groq.None? || groq.value == "")
    ensures Tier(claude, groq, fallback).1 == "fallback" ==> Tier(claude, groq, fallback).0 == fallback
    ensures claude.Some? && claude.value != "" && groq.None? ==> Tier(claude, groq, fallback) == (claude.value, "claude")
    ensures Tier(claude, groq, fallback).1 in {"claude", "groq", "fallback"}
  {
  }

  /** Every public chat reply is non-empty. */
  lemma PublicReplyNonEmpty(claude: Option<string>, groq: Option<string>, message: string, mood: string, draw: nat)
    ensures Tier(claude, groq, AIService.Reply([message], mood, draw)).0 != ""
  {
    AIService.ReplyFromPools([message], mood, draw);
    TierProperties(claude, groq, AIService.Reply([message], mood, draw));
  }

  // ------------------------------------------------- public conversation id

  /**
   * The public conversation id of `SavePublicMessage`: the session id, "-",
   * the companion id; the binding rejects an empty one of either (a 400).
   */
  function PublicConversationId(sessionId: string, companionId: string): (r: Result<string>)
    ensures r.Err? <==> sessionId == "" || companionId == ""
    ensures r.Err? ==> r.message == "invalid request body"
    ensures r.Ok? ==> sessionId + "-" <= r.value && |r.value| == |sessionId| + 1 + |companionId|
    ensures r.Ok? ==> r.value[|sessionId| + 1..] == companionId
  {
    if sessionId == "" || companionId == "" then Err("invalid request body")
    else Ok(sessionId + "-" + companionId)
  }

  /** Within one session, different companions get different conversations. */
  lemma ConversationIdPerCompanion(sessionId: string, c1: string, c2: string)
    requires sessionId != ""
    requires PublicConversationId(sessionId, c1) == PublicConversationId(sessionId, c2)
    ensures c1 == c2
  {
  }

  /**
   * Across sessions the id is ambiguous, because both parts may hold '-':
   * session "session-1" with companion "x-mia" and session "session-1-x"
   * with companion "mia" share a conversation id.
   */
  lemma ConversationIdAmbiguous()
    ensures PublicConversationId("session-1", "x-mia") == PublicConversationId("session-1-x", "mia")
  {
    assert "session-1" + "-" + "x-mia" == "session-1-x" + "-" + "mia";
  }
}
