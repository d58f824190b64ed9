# AI Companion Haven, modelled in Dafny

This project models the logic at the core of AI Companion Haven, a companion-chat app. The app has a Next.js front end and a Go back end. The model covers:

- **The reply pipeline.**
  - The `/api/chat/stream` route validates the request, forwards it to the back end and cuts the reply into word frames. Each frame is written in the event-stream format of the WHATWG HTML Living Standard, section 9.2 (server-sent events), followed by one terminal frame.
  - Two rule-based reply engines: the Go `AIService` and the public chat route.
  - The Go handlers' provider tiers (Claude, then Groq, then the rule-based fallback) and their history assembly.
- **The string builders.**
  - Claude's system prompt.
  - The FAL and Hugging Face image prompts.
  - The two slug generators.
- **Validation, defaults and arithmetic.**
  - The custom-companion and image routes.
  - Pagination and page counts.
  - FAL's bounded polling and Hugging Face's retry loop with its wait clamp.
  - Relative-time labels.
- **The client state containers.**
  - The zustand store and the older React context, as classes whose methods replace their fields.
  - The WebSocket client's connect guard and reconnect policy.
- **The state machines inside the UI.**
  - Both story viewers and the inline desktop viewer.
  - The companion-creation wizard.
- **The derived lists.**
  - The conversation sidebar.
  - The story trays and the stories page.
  - The two companion search filters.
  - The placeholder-memory generator.

External services appear only as the answers they give, passed in as parameters:

- the HTTP answers of Claude, Groq, FAL, Hugging Face and the Go back end;
- the database rows;
- `localStorage`.

Random choices (`rand.Intn`, `Math.random`) are a `draw: nat` parameter. The choice made is `pool[draw % |pool|]`, so every element can be drawn. Timestamps are integer milliseconds. Personality values are integers.

Shared modules:

- `Wrappers` holds `Option` and `Result`.
- `Strings` holds ASCII lower-casing, substring search, `split`/`join`, decimal rendering, UTF-8 and UTF-16 lengths, and first-occurrence replacement, with the `$` patterns of a JavaScript replacement string expanded.
- `Lists` holds `filter`, `findIndex` and the order-preserving sub-list relation.
- `Sorting` holds the key-based sorts.
- `Int64` holds the bounds of Go's 64-bit `int`, the clamp of `strconv.Atoi` and int64 wrap-around.
- `Json` holds the quoting of `JSON.stringify` with its inverse.
- `Types` and `SrcTypes` hold the records of `types/index.ts` and `src/types/index.ts`.

Every other module models one source file.

## Model

| member | source | states |
|---|---|---|
| ChatStream.Forward | app/api/chat/stream/route.ts:20-28 | the body sent to the back end keeps `companionId` and `message`, takes the mood or "romantic" when it is falsy, and the history or [] when it is missing |
| ChatStream.ReplyText | app/api/chat/stream/route.ts:39 | the reply is never empty: the back end's `response` when truthy, else "Hey there! I'm happy to chat with you." |
| ChatStream.CompanionName | app/api/chat/stream/route.ts:40 | the name is never empty: the back end's `companion` when truthy, else "AI Companion" |
| ChatStream.StreamReply | app/api/chat/stream/route.ts:44-70 | the loop writes exactly the encodings of the content frames, one per word, followed by the one terminal frame |
| ChatStream.ContentEvents | app/api/chat/stream/route.ts:49-56 | the word loop writes one content event per word, the i-th carrying word i with a leading space for every word but the first |
| ChatStream.Post | app/api/chat/stream/route.ts:5-87 | an unreadable body gives 500; a falsy `companionId` or `message` gives 400 and calls nothing; a failed back-end call gives 500; otherwise the response is the event stream of the reply's frames, and a stream is only ever sent after the back end was called |
| ChatStream.FramesForShape | app/api/chat/stream/route.ts:47-68 | one content frame per field of `split(" ")` (chunk 0 the word, later chunks " " + word), then the terminal frame {content "", done, companionId, companion} |
| ChatStream.ChunkText | app/api/chat/stream/route.ts:49-51 | chunk i is word 0 alone, or a space followed by word i |
| ChatStream.FramesFor | app/api/chat/stream/route.ts:47-68 | the frames streamed for a reply; `FramesForShape`, `FrameShape` and `ChunksReassemble` state their guarantees |
| ChatStream.ChunksReassemble | app/api/chat/stream/route.ts:47-52 | concatenating the contents of the streamed chunks in order gives back the whole reply |
| ChatStream.FrameShape | app/api/chat/stream/route.ts:47-68 | there are (number of spaces + 1) content frames, empty fields of consecutive spaces included, and one terminal frame, which is the last and the only one with `done` |
| ChatStream.DecodeEncode | app/api/chat/stream/route.ts:54-55 | every event `data: <json>` followed by a blank line reads back as the frame it encodes (server-sent events, section 9.2 of the WHATWG HTML Living Standard) |
| ChatStream.EncodingDistinguishes | app/api/chat/stream/route.ts:62-68 | two frames with the same encoding are equal, so the terminal event never looks like a content event |
| ChatStream.Encode | app/api/chat/stream/route.ts:54-68 | the event text of a frame, keys in the order the route writes them; `DecodeEncode` and `EncodingDistinguishes` state its guarantees |
| ChatStream.Decode | app/api/chat/stream/route.ts:54-55 | reads one event back into a frame; `DecodeEncode` states that it inverts `Encode` |
| AIService.MoodPool | backend/internal/services/ai.go:84-87 | the pool of a known mood is that mood's list; an unknown or empty mood gets the "default" list; every pool has at least 5 non-empty replies |
| AIService.AllResponses | backend/internal/services/ai.go:89-90 | the mood pool followed by the default pool holds at least 13 replies, none empty |
| AIService.GenerateReply | backend/internal/services/ai.go:69-94 | the keyword loop returns the reply of the `Reply` specification for the same messages, mood and random draw |
| AIService.ReplyFromPools | backend/internal/services/ai.go:73-93 | the reply is never empty; when the lowercased last message holds one of "photo", "selfie", "picture", "pic", "send me", "show me", "see you" it is a photo reply; otherwise it is from the mood pool or the default pool; with no messages the photo check is skipped |
| AIService.Reply | backend/internal/services/ai.go:73-93 | the reply chosen for messages, mood and random draw; `ReplyFromPools` states its guarantees |
| AIService.UnknownMoodUsesDefault | backend/internal/services/ai.go:84-90 | for a mood other than calm, romantic, playful and deep the candidates are the default list twice |
| AIService.SimulateTypingDelay | backend/internal/services/ai.go:97-101 | the delay is 1000 ms plus the draw modulo 2000, so it lies in [1000, 2999] |
| AIService.GenerateContextualReply | backend/internal/services/ai.go:104-134 | never empty; mood "romantic" with a romantic score above 70 answers from the mood pool before any length check; otherwise a last message over 100 bytes gets the fixed "I really appreciate..." reply, one under 20 bytes "Tell me more! I want to hear everything.", and anything else a reply from the mood pool |
| PublicChat.Lookup | app/api/chat/public/route.ts:3-15 | an own entry of the mock companion table with that id, or none when no entry has it |
| PublicChat.LookupIn | app/api/chat/public/route.ts:25 | the entry found has the id asked for; none means no entry has it |
| PublicChat.Pool | app/api/chat/public/route.ts:35-71 | every reply pool of the classifier is non-empty and holds no empty reply |
| PublicChat.Pick | app/api/chat/public/route.ts:40 | `pool[Math.floor(Math.random() * pool.length)]` is a member of the pool |
| PublicChat.GenerateResponse | app/api/chat/public/route.ts:24-72 | never empty; an unknown companion always gets "Hey there! I'm happy to chat with you."; a known one gets a member of the pool of the first rule that fires on the lowercased message (corrected: only own keys of the table are companions) |
| PublicChat.GenerateResponseAsWritten | app/api/chat/public/route.ts:25-26 | the lookup as written (inherited keys included) agrees with the corrected one on every id that is not an `Object.prototype` key |
| PublicChat.CompanionNameAsWritten | app/api/chat/public/route.ts:86-93 | as written, for an id that is not an `Object.prototype` key, the name is the companion's or "AI Companion" |
| PublicChat.InheritedKeyAnswered | app/api/chat/public/route.ts:25-26 | as written, the id "toString" passes the `!companion` check: "hello" gets a greeting and the reported name is "toString", where the corrected lookup gives the unknown-companion reply |
| PublicChat.ToStringUnknown | app/api/chat/public/route.ts:3-15 | "toString" is not an id of the table |
| PublicChat.HelloGreets | app/api/chat/public/route.ts:34 | "hello" is classified as a greeting |
| PublicChat.Post | app/api/chat/public/route.ts:74-102 | corrected: built on the own-key `Lookup`, so "toString" gets the unknown-companion reply and "AI Companion" where the source answers from the pools with the name "toString" (see `GenerateResponseAsWritten` and Findings); an unreadable body gives 500; a falsy `companionId` or `message` gives 400; the reply response is sent exactly when both are truthy, and carries the id, the non-empty generated reply and the companion's name or "AI Companion" |
| PublicChat.ClassifyFirstMatch | app/api/chat/public/route.ts:34-71 | the rules greeting ("hello", "hi", "hey"), "how are you", photo ("photo", "selfie", "picture"), love ("love", "miss") and question ("?") are tried in that order and the first that fires decides; the default pool is used exactly when none fires |
| PublicChat.Classify | app/api/chat/public/route.ts:34-71 | the route's if-chain as the rule that fires; `ClassifyFirstMatch` states the order |
| PublicChat.UnknownCompanionFixed | app/api/chat/public/route.ts:25-28 | for an unknown companion the reply is the same fixed text whatever the message, mood and draw |
| PublicChat.MoodIgnored | app/api/chat/public/route.ts:30 | the mood never changes the reply (`moodStyle` is computed and unused) |
| PublicChat.GreetingShadowsPhoto | app/api/chat/public/route.ts:34-47 | any message holding "hi" gets a greeting even when it also asks for a picture |
| PublicChat.LowerPreservesContains | app/api/chat/public/route.ts:31 | a lowercase keyword found in a message is still found after `toLowerCase()` |
| JsObjects.ReadKey | app/api/chat/public/route.ts:25 | reading a key of an object literal gives its own value when it has one, and an inherited `Object.prototype` member exactly for the prototype's keys |
| JsObjects.InheritedName | app/api/chat/public/route.ts:93 | the `name` of an inherited member is present for every prototype key except `__proto__` |
| Slugs.KeepSlugChars | backend/internal/api/handlers.go:309-315 | the kept characters are all in [a-z0-9-], the letters and digits are all kept, and a string already in that alphabet is unchanged |
| Slugs.Squeeze | app/api/companions/custom/route.ts:9 | `replace(/-+/g, "-")`: no "--" is left, the first and last characters stay, and nothing new appears |
| Slugs.SqueezeAlnums | app/api/companions/custom/route.ts:9 | squeezing dashes keeps the letters and digits in order |
| Slugs.ReplaceDoubleDash | backend/internal/api/handlers.go:318 | one `strings.ReplaceAll(slug, "--", "-")` pass never lengthens the slug |
| Slugs.ReplaceShrinks | backend/internal/api/handlers.go:317-319 | while a "--" is left a pass makes the slug strictly shorter, so the rewrite loop ends |
| Slugs.ReplaceSqueeze | backend/internal/api/handlers.go:317-319 | a pass does not change the squeezed form, so the loop ends at the squeezed slug |
| Slugs.ContainsDoubleDash | backend/internal/api/handlers.go:317 | `strings.Contains(slug, "--")` holds exactly when two dashes are adjacent |
| Slugs.TrimDashes | backend/internal/api/handlers.go:321 | `strings.Trim(slug, "-")` leaves no leading or trailing dash, keeps the alphabet, the absence of "--" and the letters and digits, and changes nothing that neither starts nor ends with '-' |
| Handlers.SpacesToDashesAlnums | backend/internal/api/handlers.go:307 | replacing spaces by dashes keeps the letters and digits |
| Handlers.SpacesToDashesIdentity | backend/internal/api/handlers.go:307 | a slug has no space to replace |
| Handlers.GenerateSlug | backend/internal/api/handlers.go:303-327 | the builder loop and the rewrite loop compute the `GoSlug` specification of the name and UUID prefix |
| Handlers.KeepSlugCharsLoop | backend/internal/api/handlers.go:309-315 | the builder loop keeps exactly the lower-case letters, digits and hyphens of the text, in order |
| Handlers.CollapseDashes | backend/internal/api/handlers.go:317-319 | the rewrite loop ends with the `Squeeze` of its input (every run of hyphens cut to one), which has no two adjacent hyphens |
| Handlers.SlugBaseShape | backend/internal/api/handlers.go:305-321 | before the fallback the slug is well formed (only [a-z0-9-], no "--", no leading or trailing '-'), holds the lowercased name's letters and digits in order, and is empty exactly when there are none |
| Handlers.GoSlugWellFormed | backend/internal/api/handlers.go:303-327 | with an 8-character UUID prefix the slug is non-empty and well formed |
| Handlers.GoSlugAlnums | backend/internal/api/handlers.go:323-325 | a name with letters or digits keeps exactly those; a name without gives "companion-" followed by the UUID prefix |
| Handlers.GoSlugFixedPoint | backend/internal/api/handlers.go:303-327 | a non-empty well-formed slug maps to itself |
| Handlers.GoSlugIdempotent | backend/internal/api/handlers.go:303-327 | applying `generateSlug` to its own output returns it unchanged, whatever UUID the second call draws |
| Handlers.GoSlug | backend/internal/api/handlers.go:303-327 | the slug `generateSlug` builds from a name and a UUID prefix; what it guarantees is stated by `GoSlugWellFormed`, `GoSlugAlnums`, `GoSlugFixedPoint` and `GoSlugIdempotent` |
| Handlers.Paginate | backend/internal/api/handlers.go:111-121 | `Atoi` brings page and page size into the int64 range; the page is then at least 1 and kept when it is 1 or more; a page size outside [1, 100] becomes the handler's default; the offset is (page - 1) * pageSize wrapped to int64, so it agrees with the product modulo 2^64 and equals it whenever the product fits |
| Int64.Atoi | backend/internal/api/handlers.go:111-112 | `strconv.Atoi` with its error ignored: the result lies in the int64 range, is the value itself when that fits, MaxInt64 for a larger value and MinInt64 for a smaller one |
| Int64.Wrap64 | backend/internal/api/handlers.go:121 | int64 arithmetic wraps: the result lies in the int64 range, agrees with the exact value modulo 2^64, and is the exact value when that fits |
| Handlers.OffsetExact | backend/internal/api/handlers.go:113-121 | for every page up to MaxInt64 / 100 + 1 the offset is exactly (page - 1) * pageSize and never negative |
| Handlers.HugePageNegativeOffset | backend/internal/api/handlers.go:111-121 | page "100000000000000000000" with page size 20 becomes page MaxInt64, and its offset wraps to -40 |
| Handlers.CompanionsPaging | backend/internal/api/handlers.go:117-119 | companions default to 20 per page |
| Handlers.ChatHistoryPaging | backend/internal/api/handlers.go:644-646 | chat history defaults to 50 per page |
| Handlers.MemoriesPaging | backend/internal/api/handlers.go:867-869 | memories default to 20 per page |
| Handlers.PagesTile | backend/internal/api/handlers.go:121 | for every page below MaxInt64 / 100 + 1, page p + 1 starts right where page p ends |
| Handlers.TotalPages | backend/internal/api/handlers.go:173 | `(total + pageSize - 1) / pageSize` is the least n with n * pageSize >= total |
| Handlers.PageHoldsRows | backend/internal/api/handlers.go:697 | a page starts before the end of the rows exactly when its number is at most totalPages |
| Handlers.SendMessageHistory | backend/internal/api/handlers.go:576-586 | prepending each readable row (newest first) gives the readable rows reversed, oldest first, with "ai" as "assistant" and anything else as "user" |
| Handlers.ReadableFirst | backend/internal/api/handlers.go:577-585 | the newest readable row becomes the last message of the history |
| Handlers.ReadableCount | backend/internal/api/handlers.go:579 | rows that fail to scan are skipped; with none failing the history has one message per row |
| Handlers.PublicHistory | backend/internal/api/handlers.go:775-785 | one message per history item in order, "ai" mapped to "assistant" and other roles kept, then the current message as "user": length len(history) + 1 |
| Handlers.MoodOrDefault | backend/internal/api/handlers.go:525-527 | an empty mood becomes "romantic" |
| Handlers.SendMessageReply | backend/internal/api/handlers.go:529-600 | Claude is asked only when configured and the companion and history were read, with the system prompt for the mood and the history oldest first; its non-empty reply is used, and otherwise the rule-based reply for the message; the reply is never empty |
| Handlers.ContextOf | backend/internal/api/handlers.go:759-773 | the companion context copies the row's fields, with a missing scenario or greeting as "" |
| Handlers.PublicChat | backend/internal/api/handlers.go:719-850 | a bad body gives 400 and asks no provider; no companion row gives 404, a failed query 500; otherwise Claude is asked iff configured, Groq iff Claude gave nothing and Groq is configured, the reply and X-AI-Provider follow the tier order, and X-AI-Error is set iff Claude was asked and failed |
| Handlers.TierProperties | backend/internal/api/handlers.go:754-841 | the reply is never empty; the provider is "fallback" exactly when neither Claude nor Groq gave a reply, and then the reply is the fallback; a Claude reply is tagged "claude" |
| Handlers.Tier | backend/internal/api/handlers.go:797-841 | the reply and provider name of the provider cascade; `TierProperties` states its guarantees |
| Handlers.PublicReplyNonEmpty | backend/internal/api/handlers.go:836-841 | the public chat reply is never empty |
| Handlers.PublicConversationId | backend/internal/api/handlers.go:1102-1120 | an empty session or companion id is rejected; otherwise the id is the session id, "-", the companion id |
| Handlers.ConversationIdPerCompanion | backend/internal/api/handlers.go:1120 | within one session different companions get different conversation ids |
| Handlers.ConversationIdAmbiguous | backend/internal/api/handlers.go:1120 | across sessions the id is ambiguous: ("session-1", "x-mia") and ("session-1-x", "mia") share one |
| CustomCompanion.DropSpaces | app/create/page.tsx:112 | dropping leading white space leaves a suffix that starts with no space and keeps every letter and digit |
| CustomCompanion.SpaceRunsAlnums | app/api/companions/custom/route.ts:7 | `replace(/\s+/g, "-")` keeps the letters and digits |
| CustomCompanion.SpaceRunsIdentity | app/api/companions/custom/route.ts:7 | a slug has no white space to replace |
| CustomCompanion.TrimOneDash | app/api/companions/custom/route.ts:10 | `replace(/^-\|-$/g, "")` removes one dash at each end, which with no "--" leaves no leading or trailing dash |
| CustomCompanion.JsSlugShape | app/api/companions/custom/route.ts:4-11 | the slug has only [a-z0-9-], no "--", no leading or trailing '-', holds the lowercased name's letters and digits, and is empty exactly when there are none |
| CustomCompanion.JsSlugIdempotent | app/api/companions/custom/route.ts:4-11 | `generateSlug` applied to its own output returns it unchanged |
| CustomCompanion.JsSlug | app/api/companions/custom/route.ts:4-11 | the slug the route builds from a name; `JsSlugShape` and `JsSlugIdempotent` state its guarantees |
| CustomCompanion.Base36 | app/api/companions/custom/route.ts:56 | `toString(36)` is a non-empty string of digits and lowercase letters |
| CustomCompanion.Base36RoundTrip | app/api/companions/custom/route.ts:56 | parsing the base-36 text gives back the timestamp |
| CustomCompanion.Post | app/api/companions/custom/route.ts:13-93 | for a body that is a JSON object with a string name and a whole-number age (or none): an unreadable body gives 500; the name is checked first (missing or under 2 UTF-16 units), then the category (girls, guys, anime), then the age (missing, 0, under 18 or over 100), each a 400; otherwise 201 with id slug + "-" + base-36 time, the name, an age in [18, 100] and status online |
| CustomCompanion.PostDefaults | app/api/companions/custom/route.ts:59-81 | missing fields take their defaults: bio "Meet {name}, your new AI companion!", the default avatar, personality {75, 60, 70, 65, 50}, tags ["Friendly"], style "friendly", no interests, no appearance, greeting null for "" |
| CustomCompanion.JoinWellFormed | app/api/companions/custom/route.ts:56 | a non-empty slug joined by "-" to a base-36 stamp is still well formed |
| CustomCompanion.CustomIdShape | app/api/companions/custom/route.ts:55-56 | the id ends with the base-36 time, which parses back; it is well formed when the name has letters or digits, and starts with '-' when it has none |
| CustomCompanion.CustomId | app/api/companions/custom/route.ts:55-56 | the id slug + "-" + base-36 time; `CustomIdShape` states its guarantees |
| CustomCompanion.NameCheckedFirst | app/api/companions/custom/route.ts:33-38 | a bad name gives the name error whatever the category and age |
| CustomCompanion.AstralNameAccepted | app/api/companions/custom/route.ts:33 | a name of one emoji passes, as `length` counts UTF-16 units |
| Claude.Descriptor | backend/internal/services/claude.go:100-151 | a trait value above the high threshold gets the first descriptor, one above the low threshold the second, any other the third (friendliness 80/50, humor 70/40, intelligence 80/50, romantic 80/50, flirty 70/40) |
| Claude.TraitLine | backend/internal/services/claude.go:100-151 | a trait line is written exactly when the trait is present as a number, and reads "- Title: n% (descriptor)" |
| Claude.TagsSection | backend/internal/services/claude.go:154-156 | the tags section is written exactly when there are tags |
| Claude.InterestsSection | backend/internal/services/claude.go:157-159 | the interests section is written exactly when there are interests |
| Claude.StyleSection | backend/internal/services/claude.go:162-164 | the communication-style section is written exactly when the style is non-empty |
| Claude.ScenarioSection | backend/internal/services/claude.go:167-169 | the scenario section is written exactly when the scenario is non-empty |
| Claude.MoodBullets | backend/internal/services/claude.go:173-184 | the generic bullet set is used exactly for moods other than calm, romantic, playful and deep |
| Claude.MoodBulletsDistinct | backend/internal/services/claude.go:173-184 | each of the four known moods has its own bullet set |
| Claude.BuildSystemPrompt | backend/internal/services/claude.go:92-208 | the builder's writes compose the `SystemPrompt` specification of the companion and mood |
| Claude.SystemPrompt | backend/internal/services/claude.go:92-208 | the system prompt as a function of companion and mood; `PromptStartsWithIdentity`, `PromptEndsWithClosing` and `BareProfilePrompt` state its guarantees |
| Claude.PromptStartsWithIdentity | backend/internal/services/claude.go:95-96 | the prompt begins "You are {Name}, a {Age}-year-old AI companion. " followed by the bio |
| Claude.PromptEndsWithClosing | backend/internal/services/claude.go:186-207 | the prompt always ends with the guidelines and photo-request sections |
| Claude.BareProfilePrompt | backend/internal/services/claude.go:92-208 | with no traits, tags, interests, style or scenario the prompt is the header, the bio, the traits heading, the mood line and bullets, and the closing sections |
| Claude.DescriptorMonotone | backend/internal/services/claude.go:100-151 | a larger trait value never gets a lower descriptor |
| Claude.GenerateResponse | backend/internal/services/claude.go:211-264 | an unconfigured service (empty key) sends nothing and fails with "Claude API key not configured"; otherwise it sends the model, 500 tokens, the system prompt and the messages, and returns the extracted answer |
| Claude.IsConfigured | backend/internal/services/claude.go:86-89 | the service is configured exactly when its API key is not empty |
| Claude.Extract | backend/internal/services/claude.go:255-263 | an error object gives "Claude API error: ..."; no content gives "no content in response"; otherwise the first content block's text |
| Claude.GenerateGreeting | backend/internal/services/claude.go:267-280 | a stored greeting is returned as is without a request; otherwise one user message "Hey there! *just matched with you*" is sent |
| Groq.Extract | backend/internal/services/groq.go:137-145 | an error object gives "Groq API error: ..."; no choices gives "no choices in response"; otherwise the first choice's message content |
| Groq.AssembleMessages | backend/internal/services/groq.go:91-99 | one system message with the prompt, then every input message in order with role and content copied: length n + 1 |
| Groq.GenerateResponse | backend/internal/services/groq.go:81-146 | an unconfigured service sends nothing and fails with "Groq API key not configured"; otherwise the request holds the model, 500 tokens, the Claude system prompt for the same companion and mood, then the messages, and the result is the extracted answer |
| Fal.AgePart | backend/internal/services/fal.go:100-102 | the age words are written exactly when the age is positive |
| Fal.GenderPart | backend/internal/services/fal.go:103-107 | an empty gender is written as "woman ", any other gender followed by a space |
| Fal.EthnicityPart | backend/internal/services/fal.go:110-112 | the ethnicity is written exactly when it is non-empty |
| Fal.HairPart | backend/internal/services/fal.go:115-124 | the hair clause is written exactly when a hair colour or a hair style is given, and then starts with "with " |
| Fal.EyesPart | backend/internal/services/fal.go:126-128 | the eyes clause is written exactly when an eye colour is given |
| Fal.ContextPart | backend/internal/services/fal.go:151-153 | the extra context is written exactly when it is non-empty |
| Fal.StylePart | backend/internal/services/fal.go:156-158 | the "wearing" clause is written exactly when a style is given |
| Fal.PosePhrase | backend/internal/services/fal.go:131-148 | a photo type outside the seven known ones gets "natural pose, " |
| Fal.WritePrompt | backend/internal/services/fal.go:93-164 | the builder's writes give the prompt body for the appearance, context and pose, followed by the quality tags |
| Fal.BuildImagePrompt | backend/internal/services/fal.go:93-164 | the built prompt is the `ImagePrompt` specification of appearance, context and photo type |
| Fal.PromptBodyStarts | backend/internal/services/fal.go:94-97 | every prompt starts "photo of a beautiful " |
| Fal.PromptFrame | backend/internal/services/fal.go:94-164 | a prompt starts with the base phrase and ends with whatever quality tags close it |
| Fal.ImagePromptFrame | backend/internal/services/fal.go:94-164 | every FAL prompt starts "photo of a beautiful " and ends with the FAL quality tags |
| Fal.ImagePrompt | backend/internal/services/fal.go:93-164 | the FAL prompt for appearance, context and photo type; `ImagePromptFrame` and `BareAppearancePrompt` state its guarantees |
| Fal.BareAppearancePrompt | backend/internal/services/fal.go:93-164 | an empty appearance, no context and an unknown photo type give exactly the base phrase, "woman ", "natural pose, " and the quality tags |
| Fal.PollForResult | backend/internal/services/fal.go:232-288 | the poll loop returns `PollFrom(poll, 0)`: at most 30 status checks, stopping at the first completed or failed one, and every earlier check was neither |
| Fal.PollTimesOut | backend/internal/services/fal.go:236-287 | when no remaining check completes or fails, polling ends in "timeout waiting for image generation" |
| Fal.PollFirstDecisive | backend/internal/services/fal.go:259-284 | polling settles on the first completed or failed check |
| Fal.PollFrom | backend/internal/services/fal.go:259-284 | the outcome of polling from check i on; `PollTimesOut` and `PollFirstDecisive` state its guarantees |
| Fal.GenerateImage | backend/internal/services/fal.go:167-229 | without a key nothing is sent and the error is "FAL API key not configured"; otherwise the request holds the prompt, the default negative prompt for an empty one, square_hd, one image and the safety checker, and the result is decided by the submission |
| Fal.Dispatch | backend/internal/services/fal.go:208-228 | a 200 with a result returns it, a 202 with a ticket polls, any other status is an error |
| Fal.GenerateCompanionPhoto | backend/internal/services/fal.go:291-304 | the request carries the companion's image prompt and the default negative prompt; the result is the first image's URL of the dispatched answer, or its error |
| Fal.PhotoUrl | backend/internal/services/fal.go:293-303 | the photo URL exists exactly when the answer is a success with images, and is the first image's URL; no images gives "no images generated" |
| HuggingFace.BuildImagePrompt | backend/internal/services/huggingface.go:60-131 | the built prompt is the `HfImagePrompt` specification, written by the same builder as FAL with the HF flirty pose and quality tags |
| HuggingFace.HfImagePromptFrame | backend/internal/services/huggingface.go:60-131 | every HF prompt starts "photo of a beautiful " and ends with the HF quality tags |
| HuggingFace.HfImagePrompt | backend/internal/services/huggingface.go:60-131 | the Hugging Face prompt; `HfImagePromptFrame` states its guarantees |
| HuggingFace.WaitTime | backend/internal/services/huggingface.go:189-195 | the wait after a loading answer is the estimate in seconds times `time.Second` as a wrapping int64 of nanoseconds, clamped to 10..60 s: an estimate in 10..60 is kept, a smaller or larger one whose product does not wrap gives 10 s or 60 s |
| HuggingFace.WrappedEstimateWaitsMinimum | backend/internal/services/huggingface.go:189-195 | an estimate of 9223372036 s waits 60 s, but 9223372037 s wraps to a negative duration and waits only 10 s |
| HuggingFace.GenerateImageAsWritten | backend/internal/services/huggingface.go:134-211 | as written: without a key the error is "Hugging Face API key not configured"; otherwise up to 3 attempts give the pair (body, last error) of `TriesFrom`, and every wait is within 10..60 s, in nanoseconds |
| HuggingFace.PhotoAsWritten | backend/internal/services/huggingface.go:214-229 | as written: with no error the photo is the data-URL prefix and the encoding of the body, of an empty body when there is none |
| HuggingFace.AllLoadingAsWritten | backend/internal/services/huggingface.go:166-210 | when all three attempts report the model loading, the service returns neither body nor error, and the photo is an empty data URL |
| HuggingFace.AllLoadingExample | backend/internal/services/huggingface.go:166-229 | three 503 "Model is currently loading" answers give the photo "data:image/png;base64," plus the encoding of no bytes, with no error |
| HuggingFace.GenerateImage | backend/internal/services/huggingface.go:134-211 | corrected: the result is `Outcome(attempt)`, which is an error whenever no attempt succeeded; the request and waits are those of the source |
| HuggingFace.TriesSucceedIffAnswered | backend/internal/services/huggingface.go:169-207 | the retries yield a body exactly when some remaining attempt succeeded, and the body is that attempt's |
| HuggingFace.TriesFrom | backend/internal/services/huggingface.go:169-207 | the (body, error) pair the tries from i on return; `TriesSucceedIffAnswered` states its guarantees |
| HuggingFace.OutcomeSucceedsIffAnswered | backend/internal/services/huggingface.go:169-210 | the corrected outcome is a success exactly when one of the three attempts answered 200, with that attempt's body |
| HuggingFace.Outcome | backend/internal/services/huggingface.go:169-210 | corrected: the first 200 body, else the last recorded error, else "Hugging Face model still loading"; `OutcomeSucceedsIffAnswered` states its guarantees |
| HuggingFace.GenerateCompanionPhoto | backend/internal/services/huggingface.go:214-229 | corrected: built on `Outcome`, so three loading answers give an error where the source returns the bare data-URL prefix (see `PhotoAsWritten` and Findings); the request carries the companion's HF prompt; a successful outcome gives "data:image/png;base64," plus the encoded body, a failed one its error |
| ImagesRoute.TablesNonEmpty | app/api/images/generate/route.ts:4-30 | every photo list is non-empty, every name is non-empty, and the two tables cover the same companions |
| ImagesRoute.PhotoList | app/api/images/generate/route.ts:45 | a known companion's photo list, or the single default photo for any other id; never empty |
| ImagesRoute.Pick | app/api/images/generate/route.ts:45-49 | corrected: the picked photo is always one of the companion's photos (the default for unknown ids) |
| ImagesRoute.PickAsWritten | app/api/images/generate/route.ts:45-49 | as written: for an id that is not an inherited object key, the pick is the corrected one |
| ImagesRoute.ConstructorHasNoPhoto | app/api/images/generate/route.ts:45-49 | as written the id "constructor" reads the object's inherited constructor, which gives no image URL; the corrected pick gives the default photo |
| ImagesRoute.Post | app/api/images/generate/route.ts:32-68 | corrected: built on the own-key `Pick`, so "constructor" gets a default photo and "AI Companion" where the source gives no image URL (see `PickAsWritten` and Findings); an unreadable body is a 500 "Failed to generate image"; a missing or empty companionId a 400 "companionId is required"; otherwise the data holds that id, a photo from its list (the default for unknown ids), its name or "AI Companion", and the photo type or "selfie" |
| CompanionsData.TableInvariants | lib/companions-data.ts:23-145 | the seeded companions have distinct ids, personality values within 0..100 and ages of at least 18 |
| CompanionsData.CategoriesKnown | lib/companions-data.ts:23-145 | every seeded companion is in the category girls, guys or anime |
| CompanionsData.FindIndex | lib/companions-data.ts:147-149 | the index of the first companion with the id, or none exactly when no companion has it |
| CompanionsData.FindById | lib/companions-data.ts:147-149 | `find` by id: a found companion is in the list and has the id; none exactly when no companion has it |
| CompanionsData.GetCompanionById | lib/companions-data.ts:147-149 | the seeded companion with the id, or none exactly when there is no such companion |
| CompanionsData.FilterCategory | lib/companions-data.ts:155 | the companions of the category, in their order |
| CompanionsData.GetCompanionsByCategory | lib/companions-data.ts:151-156 | no category, an empty one or "all" gives every companion; any other gives exactly that category's companions in order |
| Store.ListFor | lib/store.ts:88 | a companion with no list reads as the empty list (`|| []`) |
| Store.AppendedSpec | lib/store.ts:85-91 | adding a message appends it to the end of that companion's list (starting one when there was none) and leaves every other list alone |
| Store.Appended | lib/store.ts:85-91 | the message map after `addMessage`; `AppendedSpec` states its guarantees |
| Store.MarkViewed | lib/store.ts:73-78 | marking keeps the number of stories |
| Store.MarkViewedSpec | lib/store.ts:73-78 | exactly the stories with the id become viewed, nothing else about any story changes, and other stories are untouched |
| Store.MarkViewedIdempotent | lib/store.ts:73-78 | marking the same story twice is marking it once |
| Store.MarkViewedCommutes | lib/store.ts:73-78 | marking two stories gives the same list in either order |
| Store.UpdateById | lib/store.ts:96-100 | the update keeps the number of messages |
| Store.UpdateByIdSpec | lib/store.ts:96-100 | messages with the id get the partial update merged in, all others are unchanged; without a new id no id changes; with no match the list is unchanged |
| Store.UpdatedListsSpec | lib/store.ts:93-101 | updating a message touches only that companion's list, keeps its length, and creates an empty list for a companion that had none |
| Store.UpdatedLists | lib/store.ts:93-101 | the message map after `updateMessage`; `UpdatedListsSpec` states its guarantees |
| Store.MergeInto | lib/store.ts:121-126 | merging keeps the number of conversations |
| Store.CompanionIds | lib/store.ts:108 | one companion id per conversation |
| Store.MergeIntoSpec | lib/store.ts:121-126 | conversations of the companion get the partial update merged in, the others are unchanged; an update that keeps the companion id keeps the list of ids |
| Store.UpsertSpec | lib/store.ts:105-119 | a conversation for a companion already present is merged into every entry of that companion (same length and ids); a new one is put first; afterwards the companion is always present |
| Store.UpsertKeepsDistinct | lib/store.ts:105-119 | adding conversations never creates two entries for the same companion |
| Store.Upsert | lib/store.ts:105-119 | the conversation list after `addConversation`; `UpsertSpec` and `UpsertKeepsDistinct` state its guarantees |
| Store.AppStore.constructor | lib/store.ts:40-53 | the initial state: no user, the saved token, not authenticated, no stories, messages or conversations, mood "romantic", not loading |
| Store.AppStore.SetUser | lib/store.ts:55-60 | sets the user and `isAuthenticated` to whether there is one; a given token replaces the current one and a non-empty one is saved; nothing else changes |
| Store.AppStore.Logout | lib/store.ts:62-67 | clears the user and the token, the saved token too, and sets not authenticated; nothing else changes |
| Store.AppStore.MarkStoryViewed | lib/store.ts:73-78 | the stories become `MarkViewed` of the old ones; nothing else changes |
| Store.AppStore.SetMessages | lib/store.ts:80-84 | that companion's list is replaced and every other list is kept |
| Store.AppStore.AddMessage | lib/store.ts:85-91 | the message map becomes `Appended` of the old map; nothing else changes |
| Store.AppStore.UpdateMessage | lib/store.ts:93-101 | the message map becomes `UpdatedLists` of the old map; nothing else changes |
| Store.AppStore.AddConversation | lib/store.ts:105-119 | the conversations become `Upsert` of the old ones, keeping the one-entry-per-companion invariant; nothing else changes |
| Store.AppStore.UpdateConversation | lib/store.ts:121-126 | the conversations become `MergeInto` of the old ones; nothing else changes |
| AppContext.MarkViewed | src/contexts/AppContext.tsx:33-35 | marking keeps the number of stories |
| AppContext.MarkViewedSpec | src/contexts/AppContext.tsx:33-35 | exactly the stories with the id become viewed and nothing else about any story changes |
| AppContext.FirstWithId | src/contexts/AppContext.tsx:44-46 | the position of the first companion with the id, none exactly when there is none |
| AppContext.AppProvider.constructor | src/contexts/AppContext.tsx:28-31 | the provider starts from the mock companions, stories and messages, with mood "romantic" |
| AppContext.AppProvider.SetMood | src/contexts/AppContext.tsx:31 | sets the mood and nothing else |
| AppContext.AppProvider.MarkStoryViewed | src/contexts/AppContext.tsx:33-35 | the stories become `MarkViewed` of the old ones; the messages and mood are kept |
| AppContext.AppProvider.AddMessage | src/contexts/AppContext.tsx:37-42 | the message map becomes the store's `Appended` of the old map; the stories and mood are kept |
| AppContext.AppProvider.GetCompanion | src/contexts/AppContext.tsx:44-46 | the first companion with the id, if any; none exactly when no companion has it |
| WebSocket.Pow2 | lib/websocket.ts:106 | `Math.pow(2, n)` on naturals is at least 1 |
| WebSocket.ReconnectDelay | lib/websocket.ts:106 | the delay never exceeds the 30000 ms cap and is at least 2000 ms from the first attempt on |
| WebSocket.BackoffSchedule | lib/websocket.ts:105-106 | attempts 1..5 wait 2000, 4000, 8000, 16000 and 30000 ms; from the fifth attempt on the wait is the cap; the delay never shrinks as attempts grow |
| WebSocket.PowGrows | lib/websocket.ts:106 | from the fifth power on, `2^n * 1000` reaches the cap |
| WebSocket.ChatUrl | lib/websocket.ts:24-28 | the URL starts with the base, "/ws/chat/" and the conversation id |
| WebSocket.SendFrameCarries | lib/websocket.ts:77 | the frame `JSON.stringify({ content })` starts `{"content":` and parsing the string after it gives back the content exactly, followed by "}" |
| WebSocket.SendFrame | lib/websocket.ts:77 | the frame `JSON.stringify({ content })`; `SendFrameCarries` states that it carries the content exactly |
| WebSocket.ChatWebSocket.constructor | lib/websocket.ts:7-14 | no socket, no conversation, zero attempts, no timer and no callbacks |
| WebSocket.ChatWebSocket.IsConnected | lib/websocket.ts:115-117 | connected exactly when the socket is open |
| WebSocket.ChatWebSocket.Disconnect | lib/websocket.ts:60-73 | clears the timer, the socket and the conversation and resets the attempts; the callbacks stay |
| WebSocket.ChatWebSocket.Connect | lib/websocket.ts:16-58 | an open socket for the same conversation is left alone; otherwise the old one is dropped, the attempts reset and a socket is opened on the chat URL (none if creating it throws) |
| WebSocket.ChatWebSocket.OnOpen | lib/websocket.ts:33-36 | the socket is open, the attempts reset, and every connection callback hears `true` |
| WebSocket.ChatWebSocket.OnFrame | lib/websocket.ts:38-45 | a frame that parses as a message goes to every message callback; one that does not is skipped |
| WebSocket.ChatWebSocket.AttemptReconnect | lib/websocket.ts:100-113 | with attempts left and a conversation, the attempts grow by one and a timer is set for `ReconnectDelay` of the new count; otherwise nothing changes |
| WebSocket.ChatWebSocket.OnClose | lib/websocket.ts:47-50 | the connection callbacks hear `false`, then a reconnect is attempted as `AttemptReconnect` says |
| WebSocket.ChatWebSocket.TimerFiresAsWritten | lib/websocket.ts:108-112 | as written: the timer's `connect` first disconnects, which resets the attempts to 0 before the new socket opens |
| WebSocket.ChatWebSocket.TimerFires | lib/websocket.ts:108-112 | corrected: the timer reconnects to the same conversation and keeps the attempt count |
| WebSocket.ChatWebSocket.Send | lib/websocket.ts:75-80 | the frame is sent exactly when the socket is open; otherwise it is dropped silently |
| WebSocket.ChatWebSocket.OnMessage | lib/websocket.ts:82-85 | registers a message callback |
| WebSocket.ChatWebSocket.RemoveMessageCallback | lib/websocket.ts:84 | the returned unsubscribe removes that message callback |
| WebSocket.ChatWebSocket.OnConnectionChange | lib/websocket.ts:87-90 | registers a connection callback |
| WebSocket.ChatWebSocket.RemoveConnectionCallback | lib/websocket.ts:89 | the returned unsubscribe removes that connection callback |
| WebSocket.ChatWebSocket.FailureStreakAsWritten | lib/websocket.ts:100-112 | as written: after any number of failed reconnects the attempts are back at 0 and every wait is 2000 ms, so reconnecting never stops |
| WebSocket.ChatWebSocket.FailureStreak | lib/websocket.ts:100-112 | corrected: a streak of failures waits 2000, 4000, 8000, 16000, 30000 ms and then stops for good after five attempts |
| Utils.AgeOf | lib/utils.ts:20-28 | the floor of the difference in minutes, hours or days, in the first unit where it is below 60, 24 or 7; under a minute is "just now", a week or more is older |
| Utils.AgeMonotone | lib/utils.ts:20-28 | an older time never gets a younger label |
| Utils.FormatRelativeTime | lib/utils.ts:17-30 | under a minute gives "Just now"; a week or more gives the formatted date |
| Utils.FormatRelativeTimeLabels | lib/utils.ts:25-28 | minutes, hours and days print as "{n}m ago", "{n}h ago" and "{n}d ago", all ending " ago" |
| Utils.NewSessionId | lib/utils.ts:44 | a new session id starts "session-" |
| Utils.Browser.constructor | lib/utils.ts:37-41 | a browser with or without a window and its local storage |
| Utils.Browser.GetSessionId | lib/utils.ts:37-49 | without a window the id is "server"; a stored non-empty id is returned; otherwise a new id is stored and returned; with a window the stored id is always the returned one |
| Utils.Browser.GetSessionIdTwice | lib/utils.ts:37-49 | asking twice gives the same id, and it is the stored one |
| StoryViewer.NextStep | components/stories/StoryViewer.tsx:36-47 | at or past the last story the index and progress stay and the next companion is called if offered, else close; before it, one story forward with progress reset and no call |
| StoryViewer.PrevStep | components/stories/StoryViewer.tsx:49-58 | at or before the first story the index and progress stay and the previous companion is called if offered; after it, one story back with progress reset |
| StoryViewer.StepsStayInRange | components/stories/StoryViewer.tsx:36-58 | from a story in range both steps stay in range, and a step forward then back (or back then forward) returns to the same story |
| StoryViewer.BarWidth | components/stories/StoryViewer.tsx:127-132 | bars before the current story are full, the current one shows the progress, later ones are empty |
| StoryViewer.FullBarsCount | components/stories/StoryViewer.tsx:119-136 | the number of full bars is the current index, clamped to 0..the number of stories |
| StoryViewer.TapZone | components/stories/StoryViewer.tsx:86-94 | a tap left of a third of the width goes back, right of two thirds goes forward, in between does nothing |
| StoryViewer.TapThirds | components/stories/StoryViewer.tsx:86-94 | on a screen of positive width the three thirds map to back, nothing and forward |
| StoryViewer.Viewer.constructor | components/stories/StoryViewer.tsx:29-30 | the viewer starts at the initial index with progress 0 and no calls |
| StoryViewer.Viewer.Apply | components/stories/StoryViewer.tsx:36-58 | a step sets the index, resets the progress when it says so and makes its call |
| StoryViewer.Viewer.GoNext | components/stories/StoryViewer.tsx:36-47 | `goNext` applies `NextStep` and keeps the story list; an index in range stays in range within that list |
| StoryViewer.Viewer.GoPrev | components/stories/StoryViewer.tsx:49-58 | `goPrev` applies `PrevStep`, and an index in range stays in range |
| StoryViewer.Viewer.ViewedEffect | components/stories/StoryViewer.tsx:60-64 | only a current story not yet viewed is reported as viewed |
| StoryViewer.Viewer.HandleTap | components/stories/StoryViewer.tsx:86-94 | a tap in the left third goes back, in the right third forward, in the middle changes nothing |
| StoryViewer.StoryAt | components/stories/StoryViewer.tsx:33 | `stories[currentIndex]`: the story at the index when it is in range, none otherwise |
| StoryViewer.ViewedCalls | components/stories/StoryViewer.tsx:60-64 | the viewed effect reports the story at the index exactly when it is in range and not yet viewed |
| StoryViewer.EffectCalls | components/stories/StoryViewer.tsx:60-64 | the viewed effect runs only when the story at the index differs from the one shown before, and then reports as `ViewedCalls` |
| StoryViewer.Viewer.Rerender | app/stories/page.tsx:369-383 | new props keep the index (the viewer has no key), restart the progress, and report the story now at the old index when it changed |
| StoryViewer.Viewer.HandOver | app/stories/page.tsx:369-383 | corrected: the new companion opens at story 0 with progress 0, only story 0 can be reported, and a non-empty list keeps the index in range |
| StoryViewer.HandOverSkipsStories | app/stories/page.tsx:369-383 | as written: from the last of three stories, `goNext` hands over to a companion with five stories, which opens at index 2 and reports "b2" viewed |
| StoryViewer.HandOverStartsAtFirst | app/stories/page.tsx:369-383 | corrected: the same steps open the new companion at index 0 and report "b0" |
| SrcStoryViewer.DurationMs | src/components/stories/StoryViewer.tsx:17 | a missing story or a zero duration lasts 5000 ms, any other story its duration in seconds times 1000 |
| SrcStoryViewer.NextIndex | src/components/stories/StoryViewer.tsx:19-28 | at or past the last story the index stays and `onClose` is scheduled; otherwise one forward |
| SrcStoryViewer.PrevIndex | src/components/stories/StoryViewer.tsx:30-33 | one back, never below 0 |
| SrcStoryViewer.AdvanceClamps | src/components/stories/StoryViewer.tsx:19-28 | k forward steps from the first story land on story min(k, count - 1) |
| SrcStoryViewer.ClampedStaysInRange | src/components/stories/StoryViewer.tsx:19-33 | from an index in range both steps stay in range, and close is scheduled exactly at the last story |
| SrcStoryViewer.Viewer.Current | src/components/stories/StoryViewer.tsx:16 | there is a current story exactly when the index is in range |
| SrcStoryViewer.Viewer.constructor | src/components/stories/StoryViewer.tsx:14-15 | the viewer starts at story 0 with progress 0 |
| SrcStoryViewer.Viewer.GoNext | src/components/stories/StoryViewer.tsx:19-28 | the index becomes `NextIndex` of the old one, progress restarts, and close is recorded at the last story |
| SrcStoryViewer.Viewer.GoPrev | src/components/stories/StoryViewer.tsx:30-33 | the index becomes `PrevIndex` of the old one and progress restarts |
| SrcStoryViewer.Viewer.IndexEffect | src/components/stories/StoryViewer.tsx:35-46 | the current story is reported viewed whether or not it was before, progress restarts, and the timer waits `DurationMs` of it, never 0 |
| SrcStoryViewer.Viewer.HandleTap | src/components/stories/StoryViewer.tsx:48-53 | a tap in the left third goes back, anywhere else forward |
| StoriesPage.CompanionsWithStories | app/stories/page.tsx:256-258 | exactly the companions that have a story, in their order |
| StoriesPage.ActiveStories | app/stories/page.tsx:271-273 | the active companion's stories, as a permutation of the filtered list, ordered by `orderIndex` |
| StoriesPage.CompanionIndex | app/stories/page.tsx:275-277 | the position of the first companion with the active id, -1 exactly when there is none |
| Lists.FirstIndex | app/stories/page.tsx:275-277 | `findIndex`: the first position whose element passes, none exactly when no element passes |
| StoriesPage.PrevCompanion | app/stories/page.tsx:279-283 | back to the previous companion only when there is one before; otherwise no change |
| StoriesPage.NextCompanion | app/stories/page.tsx:285-292 | always sets the active companion: the next one, or after the last the first (none for an empty list) |
| StoriesPage.NextCompanionWraps | app/stories/page.tsx:285-292 | from a companion of the list, next lands on position index + 1 modulo the length |
| StoriesPage.HandOversMoveToNeighbours | app/stories/page.tsx:375-379 | the handlers the viewer is given move only to the neighbouring companion and never wrap |
| StoriesPage.UnviewedCountPositive | app/stories/page.tsx:322-336 | the "{n} new" count is positive, and the ring highlighted, exactly when the companion has an unviewed story |
| StoriesPage.DesktopViewer.constructor | app/stories/page.tsx:33-34 | the inline viewer starts at story 0 with progress 0 |
| StoriesPage.DesktopViewer.GoNext | app/stories/page.tsx:40-51 | applies the same `NextStep` as the modal viewer; an index in range stays in range |
| StoriesPage.DesktopViewer.GoPrev | app/stories/page.tsx:53-62 | applies the same `PrevStep` as the modal viewer; an index in range stays in range |
| StoriesPage.DesktopViewer.Rerender | app/stories/page.tsx:64-74 | the render with new props keeps the old index and reports the story there when it changed; for a new companion the reset then moves to story 0 with progress 0 and the viewed effect runs again when story 0 is a different story; the same companion keeps its index |
| StoriesPage.DesktopViewer.ViewedEffect | app/stories/page.tsx:70-74 | only a current story not yet viewed is reported as viewed |
| StoriesPage.DesktopViewer.NewProps | app/stories/page.tsx:465-477 | new props replace the stories, companion and neighbours, keep the index and restart the progress |
| StoriesPage.DesktopViewer.ResetEffect | app/stories/page.tsx:64-68 | the effect on the companion id sets index and progress to 0 and changes nothing else |
| StoriesPage.DesktopViewer.HandOver | app/stories/page.tsx:64-74 | corrected: the new companion is shown first at story 0, so only story 0 can be reported |
| StoriesPage.DesktopHandOverReportsUnshown | app/stories/page.tsx:64-74 | as written: from the last of three stories, `goNext` hands over to a companion with five; "b2" is reported viewed before the reset reaches "b0" |
| StoriesPage.DesktopHandOverReportsFirst | app/stories/page.tsx:64-74 | corrected: the same steps report only "b0" |
| StoryTray.GroupOf | components/stories/StoryTray.tsx:16-20 | a companion's group holds exactly its stories in order, and is highlighted exactly when one of them is unviewed |
| StoryTray.StoryGroups | components/stories/StoryTray.tsx:15-21 | every group listed is its companion's group and has at least one story |
| StoryTray.GroupCompanions | components/stories/StoryTray.tsx:25 | the companion of each group, in order |
| StoryTray.GroupCompanionsAppend | components/stories/StoryTray.tsx:25 | listing the companions distributes over joining the groups |
| StoryTray.TrayMatchesPage | components/stories/StoryTray.tsx:15-21 | the tray shows exactly the companions the stories page lists, in the same order |
| StoryTray.HighlightMatchesCount | components/stories/StoryTray.tsx:19 | the tray highlights a companion exactly when the page's unviewed count for it is positive |
| StoryTray.ClickedId | components/stories/StoryTray.tsx:28 | clicking a button passes that group's companion id |
| SrcStoryTray.EntryCompanions | src/components/stories/StoryTray.tsx:20 | the companion of each entry, in order |
| SrcStoryTray.CompanionStories | src/components/stories/StoryTray.tsx:11-16 | exactly the companions with a story, in order, each highlighted exactly when it has an unviewed story |
| SrcStoryTray.UnviewedIsListed | src/components/stories/StoryTray.tsx:11-16 | a companion with an unviewed story always appears, highlighted |
| SrcStoryTray.ClickedId | src/components/stories/StoryTray.tsx:26 | clicking a button passes that entry's companion id |
| CreatePage.StepIndex | app/create/page.tsx:32-38 | `findIndex` over the five steps: the position of the step in the list |
| CreatePage.DropSpacesEmpty | app/create/page.tsx:112 | dropping the leading white space leaves nothing exactly when the name is all white space |
| CreatePage.TrimEndSpaces | app/create/page.tsx:112 | dropping the trailing white space gives a prefix that does not end in white space |
| CreatePage.JsTrim | app/create/page.tsx:112 | `trim()` is empty exactly when the text is all white space, and otherwise neither starts nor ends with white space |
| CreatePage.ValidateStep | app/create/page.tsx:109-124 | only the basics step is checked: a blank trimmed name gives "Please enter a name for your companion", then fewer than 2 UTF-16 units of the untrimmed name give "Name must be at least 2 characters" |
| CreatePage.ValidNames | app/create/page.tsx:109-124 | a name passes exactly when it has a non-blank character and at least 2 UTF-16 units |
| CreatePage.ToggleTag | app/create/page.tsx:174-181 | a selected tag is removed (every copy), a new one is appended while fewer than 5 are selected, and with 5 or more the list is cut back to the first 5 |
| CreatePage.ToggleTagCapped | app/create/page.tsx:174-181 | toggling never takes a selection of at most 5 past 5, and with 5 selected a new tag changes nothing |
| CreatePage.ToggleTagTwice | app/create/page.tsx:174-181 | selecting a new tag with room and toggling it again restores the selection |
| CreatePage.AddInterest | app/create/page.tsx:557-565 | on Enter a trimmed non-blank interest not yet listed is appended while fewer than 10 exist; otherwise the list is kept |
| CreatePage.AddInterestKeeps | app/create/page.tsx:557-565 | adding keeps the interests distinct, non-blank and at most 10 |
| CreatePage.RemoveInterest | app/create/page.tsx:578-583 | the "×" button drops exactly that interest and keeps the others in order |
| CreatePage.RemoveInterestKeeps | app/create/page.tsx:578-583 | removing keeps the interests distinct, non-blank and at most 10, without the removed one |
| CreatePage.AddThenRemoveInterest | app/create/page.tsx:557-583 | entering a new interest and then removing it restores the list |
| CreatePage.PayloadBio | app/create/page.tsx:142 | the bio sent is the bio, or "Meet {name}, your new AI companion!" when it is empty; never empty |
| CreatePage.PayloadTags | app/create/page.tsx:145 | the tags sent are the selection, or ["Friendly"] when none is selected; never empty |
| CreatePage.Wizard.constructor | app/create/page.tsx:77-103 | the form's initial data: the basics step, age 22, category girls, the first avatar, the default personality, no tags or interests, friendly style |
| CreatePage.Wizard.Payload | app/create/page.tsx:139-152 | the payload carries the form's name, the defaulted bio and tags, and the other fields as they are |
| CreatePage.Wizard.HandleNext | app/create/page.tsx:126-134 | a failed check gives its error and stays; on the last step the payload is submitted; otherwise exactly one step forward; the form data is kept |
| CreatePage.Wizard.HandleBack | app/create/page.tsx:166-172 | on the first step the router goes back; otherwise exactly one step back |
| CreatePage.Wizard.StepBarClick | app/create/page.tsx:218-227 | clicking the step bar moves only to an earlier step, never forward |
| CreatePage.Wizard.ToggleTagClicked | app/create/page.tsx:174-181 | the tags become `ToggleTag` of the old ones, and the form stays valid |
| CreatePage.Wizard.InterestEntered | app/create/page.tsx:557-565 | the interests become `AddInterest` of the old ones, and the form stays valid |
| CreatePage.Wizard.InterestRemoved | app/create/page.tsx:578-583 | the interests become `RemoveInterest` of the old ones, and the form stays valid |
| ConversationList.ActiveCompanionIds | components/chat/ConversationList.tsx:34 | exactly the keys whose message list is non-empty, in key order |
| ConversationList.ItemFor | components/chat/ConversationList.tsx:37-47 | an item carries its id, the companion found by that id, and the content and time of the list's last message |
| ConversationList.Items | components/chat/ConversationList.tsx:37-47 | one item per active id, in order |
| ConversationList.ConversationItems | components/chat/ConversationList.tsx:37-48 | the items of the active chats, a permutation of the unsorted ones, newest last message first |
| ConversationList.ItemsAreActiveChats | components/chat/ConversationList.tsx:34-48 | every listed item is a chat with messages and shows its last message |
| ConversationList.CurrentCompanionId | components/chat/ConversationList.tsx:51 | there is a current companion exactly when the path starts "/chat/" |
| ConversationList.CurrentIdOfLink | components/chat/ConversationList.tsx:51 | the path "/chat/{id}" of a chat link gives back the id, for any id not itself holding "/chat/" |
| ConversationList.QuickStart | components/chat/ConversationList.tsx:163-165 | at most 5 companions, each without a chat, the first ones of the companions without a chat |
| ConversationList.QuickStartTakesFirstFive | components/chat/ConversationList.tsx:163-165 | the row holds all companions without a chat when there are fewer than 5, and otherwise exactly 5 |
| CompanionsPage.ApiCategory | app/companions/page.tsx:29-32 | the list request gets no category exactly for "all", and the category itself otherwise |
| CompanionsPage.InitialFilters | app/companions/page.tsx:17-20 | the search starts from the URL's search or ""; the category from the URL's category when non-empty (unchecked), else "all" |
| CompanionsPage.SyncFromUrl | app/companions/page.tsx:44-53 | the URL's category is taken only when it is one of all, girls, guys, anime; the URL's search whenever present; otherwise the current values stay |
| CompanionsPage.SyncProperties | app/companions/page.tsx:17-53 | syncing keeps a known category known and is idempotent; after mount the category is the URL's non-empty category, and is a known one exactly when the URL gave none or a known one |
| CompanionsPage.Filtered | app/companions/page.tsx:55-62 | exactly the companions whose lower-cased name, bio or one of whose tags contains the lower-cased search, in order |
| CompanionsPage.EmptySearchKeepsAll | app/companions/page.tsx:55-62 | an empty search shows every companion |
| CompanionsPage.LowerIdempotent | app/companions/page.tsx:56 | lower-casing twice is lower-casing once |
| CompanionsPage.SearchIgnoresCase | app/companions/page.tsx:55-62 | searching for a text or its lower-case form shows the same companions |
| SrcCompanions.InitialCategory | src/pages/Companions.tsx:14 | the URL's non-empty category, else "all" |
| SrcCompanions.Filtered | src/pages/Companions.tsx:16-20 | exactly the companions of the category ("all" for any) whose lower-cased name or bio contains the lower-cased search, in order |
| SrcCompanions.AllAndEmptyKeepAll | src/pages/Companions.tsx:16-20 | category "all" with an empty search shows every companion |
| SrcCompanions.EmptySearchIsCategory | src/pages/Companions.tsx:16-20 | with an empty search the list is exactly the category's companions |
| MemoriesPage.MemoryCount | app/memories/page.tsx:75 | each companion gets 1 to 3 memories |
| MemoriesPage.EveryCountDrawn | app/memories/page.tsx:75 | each of 1, 2 and 3 memories is drawn for some random value |
| MemoriesPage.MemoryAtSpec | app/memories/page.tsx:78-91 | memory i of companion k has id "mem-{id}-{i}", template (k + i) mod 10 with its first "{name}" replaced by `replace` with the companion's name as replacement, so a name without "$" appears as it is, and is (4k + 2i + 1) hours old |
| MemoriesPage.MemoryAt | app/memories/page.tsx:78-91 | memory i of companion k; `MemoryAtSpec` states its guarantees |
| MemoriesPage.DollarNameKeepsPlaceholder | app/memories/page.tsx:87 | a companion named "$&" gets the memory "You chatted with {name} for 20 minutes": `replace` puts the matched placeholder back instead of the name |
| MemoriesPage.CompanionMemories | app/memories/page.tsx:77-92 | a companion's memories are the n memories `MemoryAt` of it, in order |
| MemoriesPage.PushedCount | app/memories/page.tsx:73-93 | after j companions between j and 3j memories were pushed |
| MemoriesPage.PushedHolds | app/memories/page.tsx:73-93 | every memory drawn for an earlier companion has been pushed |
| MemoriesPage.PushedNewestFirst | app/memories/page.tsx:73-93 | the memories are pushed newest first already, all between 4j + 1 hours and one hour old |
| MemoriesPage.GenerateMemories | app/memories/page.tsx:53-97 | the result is the pushed memories, newest first, between one and three per companion, each in the past; no companions give none |
| MemoriesPage.PushAll | app/memories/page.tsx:73-93 | the per-companion loop leaves exactly the memories of every companion, companion by companion, in push order |
| MemoriesPage.PushCompanion | app/memories/page.tsx:77-92 | the inner loop appends the drawn number of memories of one companion, memory 0 first, after what was already pushed |
| Types.ApplyMessagePatch | lib/store.ts:98 | `{ ...msg, ...updates }`: keys the patch has override the message's, the id is kept when the patch has none, and an empty patch changes nothing |
| Types.ApplyConversationPatch | lib/store.ts:124 | `{ ...conv, ...updates }`: the companion id is the patch's when it has one and is kept otherwise |
| Json.EscapeChar | lib/websocket.ts:77 | a character is written as itself exactly when it is neither a quote, a backslash nor a control character |
| Json.Quote | lib/websocket.ts:77 | `JSON.stringify` of a string is enclosed in double quotes |
| Json.QuoteRoundTrip | lib/websocket.ts:77 | parsing a quoted string gives back the string and the rest of the input unchanged |
| Strings.BeforeFirst | components/chat/ConversationList.tsx:51 | `split(sep)[1]` up to the next separator: a prefix of the text with no occurrence of the separator before its end, ending at one or at the end of the text |
| Strings.ReplaceFirst | app/memories/page.tsx:87 | `replace` with a string pattern: no occurrence leaves the text alone; otherwise only the first occurrence is replaced, by the replacement with its "$" patterns expanded |
| Strings.ReplaceFirstAfter | app/memories/page.tsx:87 | replacing the pattern in before + pattern + after, where before cannot start an occurrence, gives before + the expanded replacement + after |
| Strings.Substitution | app/memories/page.tsx:87 | the replacement text of `replace` for a string pattern (GetSubstitution, section 22.1.3.19.1 of ECMA-262, 2023 edition): "$$" gives "$", "$&" the matched text, "$`" the text before the match, "$'" the text after it; every other character stays |
| Strings.SubstitutionPlain | app/memories/page.tsx:87 | a replacement without "$" is inserted as it is |
| Strings.SubstitutionPatterns | app/memories/page.tsx:87 | each of the four two-character patterns expands as stated, and a lone "$" stays "$" |
| Strings.Split | app/api/chat/stream/route.ts:47 | `split(" ")` always gives at least one field |
| Strings.JoinSplit | app/api/chat/stream/route.ts:47 | joining the fields of `split` with the separator gives back the text |
| Strings.SplitFieldsFree | app/api/chat/stream/route.ts:47 | no field of `split` holds the separator |
| Strings.SplitLength | app/api/chat/stream/route.ts:47 | `split` gives one field more than there are separators, counting the empty fields between adjacent ones |
| Strings.Utf8Length | backend/internal/services/ai.go:123-127 | Go's `len` of a string counts UTF-8 bytes: between one and four per character |
| Strings.Utf16Length | app/api/companions/custom/route.ts:33 | JavaScript's `length` counts UTF-16 units: one or two per character, exactly one each when every character is below U+10000 |
| Strings.NatToDecimal | app/memories/page.tsx:82 | the decimal rendering of a number is a non-empty string of digits |
| Sorting.SortBy | app/stories/page.tsx:273 | an ascending sort by key: a permutation of the input, sorted |
| Sorting.SortDescBy | components/chat/ConversationList.tsx:48 | a descending sort by key: a permutation of the input, sorted newest first |
| Sorting.SortDescBySorted | app/memories/page.tsx:96 | sorting a list that is already in descending order leaves it unchanged |

## Left out

- Databases: every SQL query, the migrations and the JSONB scanning. The Go handlers take the rows they would read as inputs, and rows that fail to scan are marked as such. The `LIMIT 10` of the history query is taken as given by the rows passed in.
- HTTP and JSON plumbing: Gin binding, `fetch`, `http.Client`, and marshalling of anything but strings. Provider answers are parsed datatypes. A body that does not bind or parse is `None`. Go's binding errors are reduced to "invalid request body".
- Authentication (bcrypt, JWT) and the WebSocket hub (goroutines, channels, a mutex) are not part of this model.
- Base64 is an opaque function parameter, as RFC 4648 encoding is a library call.
- Claude.TraitLine: trait values are taken as whole numbers. Go reads them as float64, prints `int(v)` truncated and compares the unrounded value, so a fractional value such as 80.5, printed "80%" with the descriptor of values above 80, is not modelled.
- Floating point: the Groq temperature, the Hugging Face guidance scale and the story progress percentage. The model records only where progress is reset to 0.
- Timers, sleeps and pacing: the 30-80 ms stream pacing, `time.Sleep` in polling and retries, `setTimeout`/`setInterval`. The Hugging Face waits are returned as a list of int64 nanosecond durations (`WaitTime`); the reconnect timer is the delay it would wait.
- Locale formatting: `formatDate` is a parameter of `Utils.FormatRelativeTime`. The `toLocaleDateString` grouping of the memories page is left out.
- Lower-casing is ASCII only. Unicode case mappings such as U+0130 are not modelled.
- Timestamps are integer milliseconds rather than ISO strings. So `ConversationList.ItemFor` models the `|| new Date()` fallback only for a list with no message, not for an empty `createdAt` string.
- The store's plain setters (`setCompanions`, `setStories`, `setConversations`, `setActiveConversation`, `setMemories`, `setMood`, `setLoading`) and its `companions` and `memories` fields are left out. Each setter only replaces one field.
- The store's server-side start (no `window`, so no saved token) is covered by the constructor's `saved` parameter only.
- Store.AppStore: the per-companion message map is a Dafny `map`, so a key such as "constructor" that would hit an inherited member of the JavaScript object is not modelled.
- AppContext.AppProvider: its message map is a Dafny `map` as well. In the source, `addMessage` with a companion id such as "constructor" reads the inherited `Object` function, skips the `|| []` default and throws when it spreads that function; the model appends instead.
- The create page's form input setters, its `isSubmitting` flag and the API call of `handleCreate` are left out. The call is modelled as the `Submitted` payload.
- The story viewers' `isPaused` flag and touch handlers are left out, as are the desktop viewer's skipping of video stories for the timer.
- The companions page's fetching of companions (`companionsApi.list`, loading and error state) is left out beyond the category it sends.
- WebSocket.ChatWebSocket: the `onclose` of a socket closed by `disconnect()` can fire later and schedule a reconnect. This model treats `close()` as silent.
- Sorting.SortBy: the contracts do not fix the order of stories with equal `orderIndex`; the insertion sort keeps it, as JavaScript's stable sort does, but no ensures states it.
- Sorting.SortDescBy: the contracts do not fix the order of items with equal keys, which JavaScript's stable sort keeps. Only for the memories page, whose input is already in order, is the result shown to be the input itself.
- Strings.Utf8Length: Go's `len` on invalid UTF-8 is not modelled, since strings are sequences of code points.
- CustomCompanion.Post: the body is a typed record, so JSON values of other kinds are not modelled. In the route, an age such as "abc" or 18.5 passes the checks and gives 201. A name that is not a string, such as 12345, makes `generateSlug` throw and gives 500, as does a `null` body.
- HuggingFace.WaitTime: the float64 `estimated_time` is taken as already truncated to whole seconds; a float beyond the int64 range, whose conversion Go leaves to the platform, is not modelled.
- HuggingFace.GenerateImageAsWritten: the Go code reuses one request, whose body buffer the first try consumes. What a second or third try sends is not modelled; `attempt(i)` stands for whatever that try produced.
- StoryViewer.Viewer.GoNext: the index stays in range only while the story list stays the same. When `goNext` hands over to the next companion, `Rerender` keeps the index for the new list (see Findings).
- Handlers.PagesTile: stated only for pages below MaxInt64 / 100 + 1, where no offset wraps; `HugePageNegativeOffset` shows a wrapped one.

## Findings

| source | as written | input that shows it | evidently intended | confidence | as-written member | corrected member |
|---|---|---|---|---|---|---|
| backend/internal/services/huggingface.go:166-210 | When every try answers that the model is loading, `lastErr` stays nil, so `GenerateImage` returns no body and no error. `GenerateCompanionPhoto` then returns "data:image/png;base64," with nothing after it, as a successful photo. | three 503 answers `{"error": "Model is currently loading", "estimated_time": 20}`, where the second and third tries depend on the client resending a body the first try consumed | an error once the three attempts are used up | not executed | HuggingFace.AllLoadingAsWritten | HuggingFace.OutcomeSucceedsIffAnswered |
| app/api/chat/public/route.ts:25-26 | `mockCompanions[companionId]` also finds inherited members of the object. So "toString" counts as a known companion: it gets pool replies, and its name comes back as "toString". | companionId "toString", message "hello" | "toString" treated as an unknown companion | not executed | PublicChat.InheritedKeyAnswered | PublicChat.GenerateResponse |
| app/api/images/generate/route.ts:45-49 | `companionPhotos[companionId]` for "constructor" is the inherited `Object` function, not a list. The `||` default is skipped, and `photos[randomIndex]` is undefined, so the answer has no image URL. | companionId "constructor" | the default photo list for any id without its own entry | not executed | ImagesRoute.ConstructorHasNoPhoto | ImagesRoute.Pick |
| lib/websocket.ts:100-112 | The reconnect timer calls `connect`, which calls `disconnect`, which sets `reconnectAttempts` back to 0. So after every failed reconnect the count starts over: the cap of 5 is never reached, and every wait is 2000 ms. | a server that refuses every connection | at most 5 reconnects per failure streak, waiting 2000, 4000, 8000, 16000 and 30000 ms | not executed | WebSocket.ChatWebSocket.FailureStreakAsWritten | WebSocket.ChatWebSocket.FailureStreak |
| app/stories/page.tsx:369-383 | The modal `StoryViewer` is rendered without a `key`. When `goNext` at the last story hands over to the next companion, React keeps `currentIndex`, so the new companion opens at that index and its earlier stories are skipped. A companion with fewer stories gets an index past its end, and the viewer shows nothing. | three stories "a0".."a2", then a companion with five, "b0".."b4": the viewer opens at "b2" | the next companion opens at its first story | not executed | StoryViewer.HandOverSkipsStories | StoryViewer.Viewer.HandOver |
| app/stories/page.tsx:64-74 | The desktop viewer resets the index in an effect. The render that brings the next companion still shows the old index, and the viewed effect of that render marks that story viewed before the reset moves to story 0. | the same hand-over: "b2" is marked viewed, then "b0" | only "b0" is marked viewed | not executed | StoriesPage.DesktopHandOverReportsUnshown | StoriesPage.DesktopViewer.HandOver |
