# Simple Chat Bot: completion client, search answerer and screens in Dafny

This project models the logic of a small React Native chat client that talks to
Groq's OpenAI-compatible chat-completion endpoint. It models four pieces:

- **Completion client** (`services/groq.ts`). `chat` sends one non-streaming request
  and maps error statuses and missing content to fixed texts. `streamChat` sends a
  streaming request and reads the body chunk by chunk. It splits each chunk on `\n`
  and keeps only `data: ` lines. It stops at `data: [DONE]`, skips payloads that fail
  to decode, and accumulates every non-empty content fragment while handing it to
  `onChunk`. Each chunk is split on its own, so a line cut by a chunk boundary is read
  as two lines. The model keeps this behaviour and exhibits it in
  `GroqService.SplitDoneIsMissed`.
- **Search-augmented answerer** (`services/webSearch.ts`). It runs a simulated search
  that always yields two results. It serialises the results into a context and wraps
  that in a prompt, then makes one grounded completion request. When the search or
  the grounded request throws, it makes one plain fallback request. Only the
  fallback's error reaches the caller.
- **Chat screen** (`app/chat.tsx`). It covers the per-mode system prompt and welcome
  text, the `searchMode` flag, and the rule that picks web search or plain chat.
  Sending a message adds the person's messages and shows the typing indicator, then
  adds one bot message or raises an alert.
- **Settings screen** (`app/settings.tsx`). It validates, saves, clears and pastes the
  API key, and loads the saved state.

Effects are parameters:

- The stored key is an `Option<string>`. JavaScript truthiness (`Strings.Truthy`)
  treats the empty string like an absent key.
- `fetch` is a function from the request to its outcome (`Completions.FetchOutcome`).
- A streamed body is its decoded chunks followed by how the reader ends.
- Decoding a stream payload (`JSON.parse` and then `choices[0]?.delta?.content || ''`)
  is a function that gives None when either step throws.
- `encodeURIComponent` is a function from string to string.
- Every step that talks to the network returns the requests it sent, in order.

The parts that update state step by step are written imperatively:

- the stream read loop, `GroqService.ReadLines`, proved against the line-scan function
  `GroqService.ScanLines`;
- the message-list construction, `GroqService.BuildMessages`;
- the two screens, as classes whose methods update their fields.

The pure parts are functions with lemmas:

- the string switches;
- the result simulation, the context serialiser and the prompt template;
- the fallback chain, since every effect in it is a parameter.

## Model

| member | source | states |
|---|---|---|
| Strings.Truthy | services/groq.ts:8 | JavaScript truthiness of the stored key or system prompt: present and not the empty string, so an empty key counts as missing |
| Strings.IsJsWhitespace | services/webSearch.ts:54 | the characters of the `\s` class, which are also those `trim()` removes: the ECMAScript WhiteSpace and LineTerminator characters |
| Strings.StartsWith | app/settings.tsx:57 | `startsWith`: the string is at least as long as the prefix and begins with it |
| Strings.Join | services/webSearch.ts:70 | `join(sep)`: nothing for no parts, the part alone for one, and the separator only between parts |
| Strings.SplitLines | services/groq.ts:104 | `split('\n')` yields at least one piece and no piece holds a newline |
| Strings.JoinSplitLines | services/groq.ts:104 | splitting loses nothing: joining the pieces with `\n` gives the chunk back |
| Strings.SplitLinesJoin | services/groq.ts:104 | splitting newline-joined, newline-free pieces gives the pieces back |
| Strings.JoinAppend | services/webSearch.ts:68-70 | `join` of two non-empty lists puts exactly one separator between their joins |
| Strings.TrimStart | app/settings.tsx:52 | the result is a suffix, everything removed is whitespace, and what is left does not start with whitespace |
| Strings.TrimEnd | app/settings.tsx:52 | the result is a prefix, everything removed is whitespace, and what is left does not end with whitespace |
| Strings.Trim | app/settings.tsx:52 | a non-empty trimmed string starts and ends with non-whitespace |
| Strings.TrimEmptyIffBlank | app/settings.tsx:52 | `apiKey.trim()` is empty exactly when every character is whitespace |
| Strings.TrimKeepsPrefix | app/settings.tsx:57-64 | trimming keeps a prefix that starts and ends with non-whitespace |
| Strings.DecimalString | services/groq.ts:43 | the status in the error text is all digits, has no leading zero, and reads back as the status: the canonical decimal `${status}` writes |
| Completions.Bearer | services/groq.ts:29 | the `Authorization` value: `Bearer ` followed by the stored key |
| Completions.HttpResponse.Ok | services/groq.ts:41 | `response.ok`: the status is in the range 200 to 299 |
| Completions.ServiceError.Text | services/groq.ts:43 | the message each error carries: `API key not configured` (groq.ts:9), `Groq API error: ` with the status and, for both calls of the completion client, ` - ` and the upstream detail (groq.ts:43 and 87; webSearch.ts:102 has no detail), or the reason of a rejected fetch or failed read as given |
| Completions.ApiErrorNamesStatus | services/groq.ts:43 | an API error text starts with `Groq API error: ` and the status in decimal, which reads back as the status |
| Completions.UpstreamDetail | services/groq.ts:42-43 | the detail is the upstream `error.message` when it is present and non-empty, and `Unknown error` otherwise, including for a body that is not JSON |
| Completions.FirstContent | services/groq.ts:47 | `choices[0]?.message?.content` with a missing first choice or content read as the empty string, so that `||` falls through to the placeholder |
| Completions.ReplyContent | services/groq.ts:46-47 | a reply succeeds exactly when the body is JSON with `choices`; it is the first choice's content, or the placeholder when that is missing or empty, and never empty |
| GroqService.ConversationFor | services/groq.ts:12-24 | the pushed `messages`: one or two entries, a system entry first exactly when the system prompt is truthy, and the user entry with `message` last |
| GroqService.IsGroqRequest | services/groq.ts:26-39 | the request both calls send: the endpoint, `Bearer` and the key, the model, that conversation, temperature 0.7, 2048 tokens and the given `stream` flag |
| GroqService.BuildMessages | services/groq.ts:12-24 | 1 or 2 messages; a system entry first exactly when the system prompt is truthy; last and only user entry carries `message` |
| GroqService.ChatReply | services/groq.ts:41-47 | a rejected fetch, an error status with the upstream detail, or the reply content; a successful answer is never empty |
| GroqService.Chat | services/groq.ts:6-48 | no truthy key: `API key not configured` and no request; otherwise exactly one request to the endpoint with the model, temperature 0.7, 2048 tokens, `stream: false` and the conversation, answered as `ChatReply` says |
| GroqService.ClassifyLine | services/groq.ts:107-121 | a line finishes the stream exactly when it is `data: [DONE]`; it emits exactly when it has the `data: ` prefix, is not DONE and decodes to non-empty content, and the fragment is that content |
| GroqService.ScanLines | services/groq.ts:106-126 | every fragment read is non-empty, and there are no more fragments than lines |
| GroqService.ScanAppend | services/groq.ts:98-127 | reading is a left-to-right fold: two runs of lines read together equal the first run followed by the second, and nothing of the second is read once the first finished |
| GroqService.ScanOneMore | services/groq.ts:106-125 | one more line after an unfinished run finishes, is ignored, or appends its fragment |
| GroqService.StreamLines | services/groq.ts:99-104 | the lines the read loop sees: each chunk is split on `\n` on its own, in the order the chunks arrive, so a line cut by a chunk boundary is two lines |
| GroqService.StreamLinesAreLines | services/groq.ts:103-104 | every chunk yields at least one line and no line holds a newline |
| GroqService.StreamLinesAppend | services/groq.ts:98-104 | the lines of two runs of chunks are the lines of the first followed by those of the second |
| GroqService.StreamLinesStep | services/groq.ts:99-104 | reading one more chunk adds exactly that chunk's lines |
| GroqService.StreamStopsAt | services/groq.ts:110-112 | once the lines of the first chunks have met `[DONE]`, the whole stream reads as those chunks: later chunks are never read |
| GroqService.ReaderAcquired | services/groq.ts:85-95 | `streamChat` gets a body reader exactly when the status is ok and the response has a body; only then is anything read and the reader released |
| GroqService.StreamReply | services/groq.ts:85-132 | a rejected fetch fails with its reason, an error status with the upstream detail, and an ok response without a body with `Failed to get response reader`, all with no fragments; otherwise the fragments are those read up to `[DONE]`, every fragment is non-empty, a successful answer is their concatenation, and the only failure is the reason of a read that rejects before `[DONE]` |
| GroqService.DoneEndsStream | services/groq.ts:110-112 | a `data: [DONE]` line returns what was read before it and no later line is read |
| GroqService.IgnoredLineIsInvisible | services/groq.ts:107-124 | a line without the prefix, one that fails to decode, or one with empty content reads as if it were absent |
| GroqService.SplitDoneIsMissed | services/groq.ts:103-104 | `data: [DONE]` cut across two chunks is not recognised and a later content line is still read, while the uncut line stops the stream |
| GroqService.ChunksAreLines | services/groq.ts:103-104 | newline-free chunks are read as one line each |
| GroqService.FourLines | services/groq.ts:104 | a chunk of four newline-terminated lines splits into them and a trailing empty line |
| GroqService.ContentThenDone | services/groq.ts:104-121 | content "Hi", a malformed line, content " there" and DONE in one chunk give fragments "Hi", " there" and the answer "Hi there" |
| GroqService.ReadLine | services/groq.ts:107-124 | one line of the inner loop: it signals DONE exactly for `data: [DONE]`, appends exactly the line's fragment when it has one, leaves the answer alone otherwise, and keeps the accumulator equal to the concatenation of the fragments |
| GroqService.ReadChunk | services/groq.ts:104-126 | the inner loop over one chunk's lines continues the scan of the earlier lines: its fragments and early return agree with `ScanLines` over the lines read so far |
| GroqService.ReadLines | services/groq.ts:97-132 | the read loop's fragments and early return agree with `ScanLines` over the chunks' lines, and the accumulator is the concatenation of the fragments |
| GroqService.StreamChat | services/groq.ts:50-133 | no truthy key: the error, no request and no fragment; otherwise one request with `stream: true`, the result and fragments `StreamReply` gives, every fragment non-empty, the answer their concatenation, and the reader released exactly when it was acquired |
| WebSearchService.HyphenateWhitespace | services/webSearch.ts:54 | the rewritten query contains no whitespace and is no longer than the query |
| WebSearchService.HyphenateKeepsPlainText | services/webSearch.ts:54 | a query without whitespace is left unchanged |
| WebSearchService.HyphenateIdempotent | services/webSearch.ts:54 | rewriting twice gives the same as rewriting once |
| WebSearchService.HyphenateRun | services/webSearch.ts:54 | a whole whitespace run at the start of the query, before non-whitespace, becomes exactly one `-` |
| WebSearchService.KeepChar | services/webSearch.ts:54 | a character that is not whitespace is copied unchanged |
| WebSearchService.HyphenateRunInside | services/webSearch.ts:54 | every maximal whitespace run, wherever it sits in the query, becomes exactly one `-`, and the text on either side is rewritten on its own |
| WebSearchService.TrimStartSkipsRun | services/webSearch.ts:54 | a maximal run of whitespace is matched as one piece |
| WebSearchService.SimulateSearchResults | services/webSearch.ts:42-60 | exactly two results; the first URL carries the encoded query, the second the hyphenated query, whose path has no whitespace |
| WebSearchService.RenderResult | services/webSearch.ts:69 | one result's entry: its title, description and source on three labelled lines, each ended by a newline, and no URL |
| WebSearchService.RenderAll | services/webSearch.ts:68-69 | one rendered entry per result, in order |
| WebSearchService.SearchContext | services/webSearch.ts:68-70 | the context of the results: empty for no results, otherwise led by the first result's entry, with the entries joined by `\n---\n` |
| WebSearchService.PromptHead | services/webSearch.ts:77-79 | what the user prompt puts before the context: `Question: `, the query, a blank line and the `Search Results:` line |
| WebSearchService.ContextOfOne | services/webSearch.ts:68-70 | one result's context is its entry alone, with no separator |
| WebSearchService.ContextAppend | services/webSearch.ts:68-70 | the context of two lists is their contexts joined by one `\n---\n` |
| WebSearchService.ContextIgnoresUrls | services/webSearch.ts:68-70 | results that differ only in their URLs give the same context |
| WebSearchService.UserPrompt | services/webSearch.ts:77-82 | the prompt begins with `Question: `, the query, a blank line and the `Search Results:` line, then holds the context verbatim, and ends with the closing instruction |
| WebSearchService.UserPromptInjective | services/webSearch.ts:77-82 | the context can be read back from the prompt: different contexts give different prompts |
| WebSearchService.GroundedRequest | services/webSearch.ts:84-98 | the grounded request: the endpoint, `Bearer` and the key, the model, the grounding instruction and the prompt around the results' context, temperature 0.3, 2048 tokens and no `stream` field |
| WebSearchService.FallbackRequest | services/webSearch.ts:115-136 | the fallback request: the endpoint, `Bearer` and the key, the model, the plain instruction and the bare query, temperature 0.7, 2048 tokens and no `stream` field |
| WebSearchService.RequestsDiffer | services/webSearch.ts:84-98 | grounded and fallback requests share the endpoint, model, key, 2048 tokens and the absence of a `stream` field; the grounded one is cooler (0.3 against 0.7) and wraps the query, while the fallback sends it bare |
| WebSearchService.AnswerReply | services/webSearch.ts:101-106 | a rejected fetch carries its reason; every error status gives `Groq API error: ` and the status, without the upstream detail; an ok reply is answered as `ReplyContent` says: a body that is not JSON or has no `choices` fails, non-empty first-choice content is the answer, and the placeholder stands in for missing or empty content, so an answer is never empty |
| WebSearchService.GenerateAnswerFromResults | services/webSearch.ts:62-107 | no truthy key: `API key not configured` and no request; otherwise exactly the grounded request, answered with the grounded placeholder |
| WebSearchService.FallbackToChat | services/webSearch.ts:109-144 | no truthy key: `API key not configured` and no request; otherwise exactly the plain request, answered with the fallback placeholder |
| WebSearchService.AnswerFromSearch | services/webSearch.ts:14-30 | no results: the fixed answer and no request; a search error or grounded error leads to the fallback; only the fallback's errors escape; at most two requests; no request with an answer exactly when there were no results |
| WebSearchService.SearchAndAnswer | services/webSearch.ts:14-40 | with the built-in provider the no-results answer never happens: without a key, the error and no request; with one, the grounded request first, then the fallback exactly when the grounded reply fails |
| ChatScreen.RouteMode | app/chat.tsx:13 | the mode is the route's, or `general` when there is none |
| ChatScreen.SystemPrompt | app/chat.tsx:93-102 | the creative prompt exactly for `creative`, the code prompt exactly for `code`, and the generic prompt for every other mode |
| ChatScreen.WelcomeMessage | app/chat.tsx:43-54 | each of `search`, `creative` and `code` has its own text exactly for that mode; every other mode has the default text |
| ChatScreen.SearchModeChatsLikeGeneral | app/chat.tsx:43-54 | `search` greets differently from `general` but chats with the same system prompt |
| ChatScreen.UsesWebSearch | app/chat.tsx:64 | web search is used exactly when the flag is on and the mode is `search` |
| ChatScreen.Answered | app/chat.tsx:61-71 | the answer and requests of the `try` block: those of `searchAndAnswer` when web search is used; otherwise, with no truthy key, no answer and no request, and with one, one non-streaming `chat` request with the mode's system prompt, answered as `chat` answers it; a thrown error is no answer |
| ChatScreen.BotMessages | app/chat.tsx:73-84 | an answer adds one bot message carrying it; an error adds none |
| ChatScreen.Screen.constructor | app/chat.tsx:13-16 | a screen starts in the route's mode with no messages, not typing, flag off |
| ChatScreen.Screen.ShowMode | app/chat.tsx:21-41 | the list becomes the mode's single welcome message, and the flag is switched on in `search` and otherwise kept |
| ChatScreen.Screen.ToggleSearchMode | app/chat.tsx:152-154 | the flag is negated and nothing else changes |
| ChatScreen.Screen.Respond | app/chat.tsx:61-71 | `searchAndAnswer` exactly when the flag is on and the mode is `search`, with its requests and answer; otherwise `chat` with the mode's system prompt: no request without a key, else one non-streaming request; an error gives no answer |
| ChatScreen.Screen.OnSend | app/chat.tsx:56-91 | the person's messages are added and the indicator is off at the end (the ghost `typingWhileWaiting` only records that it was set before the request); the first message goes to web search exactly when the rule says so, otherwise to `chat` with the mode's system prompt; one bot message on an answer, the alert and no bot message on an error or an empty send |
| SettingsScreen.Accepts | app/settings.tsx:52-60 | the two checks of the save handler in order: the trimmed input is not empty, then the untrimmed input starts with `gsk_` |
| SettingsScreen.HasApiKey | services/storage.ts:32-39 | `hasApiKey()` on the stored value: a key is present and not empty |
| SettingsScreen.AcceptsIffPrefixed | app/settings.tsx:52-60 | a key passes both checks exactly when the untrimmed input starts with `gsk_`, so leading whitespace is rejected |
| SettingsScreen.StoredKeyIsUsable | app/settings.tsx:52-65 | the trimmed key that is stored still starts with `gsk_`, has no surrounding whitespace, and counts as configured |
| SettingsScreen.KeyStore.constructor | services/storage.ts:5-30 | the secure store's entry for the key, holding the given value (None when nothing is stored) |
| SettingsScreen.Screen.constructor | app/settings.tsx:28-31 | the screen starts with an empty input, no key configured, not saving |
| SettingsScreen.Screen.LoadSettings | app/settings.tsx:37-49 | the input takes the saved key only when it is truthy; the configured flag is `hasApiKey()` |
| SettingsScreen.Screen.HandleSaveApiKey | app/settings.tsx:51-72 | a blank input and then an input without `gsk_` are rejected with their alerts and change nothing; an accepted input is stored trimmed; the flag is set only when the store succeeds; the indicator is off afterwards (the ghost `loadingWhileSaving` only records that it was set before the store) |
| SettingsScreen.Screen.HandleClearApiKey | app/settings.tsx:74-96 | nothing until confirmed; a successful clear empties the store and the input and unsets the flag; a failed one changes nothing |
| SettingsScreen.Screen.HandlePasteFromClipboard | app/settings.tsx:98-107 | only non-empty clipboard content replaces the input; a failed read raises the alert and changes nothing |

## Left out

- HTTP: `fetch`, the `Content-Type` header and the POST method are not modelled. A request is its URL, `Authorization` value and body fields, and a response is its status, its body as JSON and its body as a chunk stream.
- `TextDecoder` is not modelled: chunks arrive already decoded to text. A new decoder is made for every chunk (services/groq.ts:103), so a multi-byte character cut by a read boundary is mangled in the source; the model, whose chunks are whole characters, does not show this.
- JSON decoding is not modelled beyond the fields the code reads. A content value that is not a string, which `+=` would coerce, is not modelled, and neither is a JSON body that is not an object: a `null` error body, for instance, makes `errorData.error` throw a TypeError at services/groq.ts:43.
- The `onChunk` callback is optional in the source; the model records every fragment it would be passed, whether or not a callback is given.
- `console.error` logging (services/webSearch.ts:26, app/chat.tsx:86, app/settings.tsx:47, services/storage.ts) is not modelled: it has no effect on results or state.
- The `onChunk` callback is taken to return normally: the model records what it is passed. A throw from it is swallowed by the per-line `catch` after the fragment was accumulated; that path is not modelled.
- Temperatures are floats in the source. They are carried as tenths (7 and 3) with no arithmetic.
- The engine's own error messages are not modelled. A rejected `fetch` or a failed read carries its reason as given, and `InvalidJson` and `MissingChoices` stand for the SyntaxError and TypeError the engine would throw.
- `encodeURIComponent` is a function parameter. Its URIError on a lone surrogate is not modelled, because the model's strings hold Unicode scalar values only.
- The Brave search URL is never used by the code and is not modelled.
- `services/storage.ts` is modelled only as the `KeyStore` entry and the test of `hasApiKey`. The services read the key as a parameter, and `getApiKey` turning a failed read into `null` is the absent key. The settings screen reads and writes the `KeyStore`, with flags for writes and deletes that throw; a failed read in the settings screen is not modelled.
- `async`/`await` and re-entrancy are not modelled: every handler runs as one sequential step, and React's batching of state updates is not modelled.
- UI is not modelled: rendering, styles, theming, navigation, `app/_layout.tsx` and `app/index.tsx`.
- `uuid`, `Date`, the bot's name and avatar are not modelled: a chat message is its text and sender.
- Alert dialogs are returned values, and the clear confirmation is the `confirmed` flag.
- The settings screen's `isApiKeyVisible` toggle only affects rendering and is not modelled.
- ChatScreen.Screen.OnSend: states which messages the list holds (a multiset), not the position at which `GiftedChat.append` places them; the same holds for ChatScreen.Screen.ShowMode.
- ChatScreen.Screen.OnSend: the route parameter `mode` is taken to be a single string. The case of an array-valued parameter, which `mode as string` does not convert, is not modelled.
- `chat` performs no check on an empty message, and the model adds none.
- The mode is any string, as in the code, which switches on strings with a default.
