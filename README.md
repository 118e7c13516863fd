# Web research assistant: query resolution

This project models the backend of a web research assistant. The assistant answers a question from:

- the conversation stored under a chat id;
- web pages found through a search provider and scraped;
- a chat model that writes the answer.

When the first answer admits that context is missing, and a chat id was given, the assistant escalates once. It searches for one more page, adds that page to the chat's cached sources and calls `queryContext` again.

The modelled parts of the backend are:

- `handleQuery` and `isResponseIncomplete` in `backend/src/index.ts`;
- the message-recording steps of the `/query` and `/chats/:id/messages` routes;
- `queryContext` in `backend/src/llm.ts`;
- `scrapeWebpage` in `backend/src/scraper.ts`;
- `googleSearch` in `backend/src/search.ts`;
- the chat record in `backend/src/models/Chat.ts`.

The search provider, the page fetcher, the URL check and the chat model are collaborators. They are modelled as functions passed in. `Assistant.Env` bundles them with the provider's API key.

Modules:

- `Wrappers`: `Option` and `Result`.
- `Text`: the JavaScript string operations the code relies on: `trim`, `replace(/\s+/g, ' ')`, `toLowerCase`, `includes`, `join`.
- `ChatModel`: the chat record. The stored `context` string is seen through `JSON.parse`. It is empty (`Blank`), a list of sources (`Json`), or text that does not parse (`Malformed`).
- `Search`: `googleSearch`. It checks its input, trims the fields and fills in defaults, and rejects a whole batch when any link fails. It returns `[]` on every error.
- `Scraper`: `scrapeWebpage`.
  - `Scrape` is its specification. The method `ScrapeWebpage` runs the selector loop and is proved equal to it.
  - The loop keeps the first of the longest normalised selector texts and cuts it to 5000 characters.
- `Llm`: `queryContext`. A context that is too short gets the sentinel answer. A low-confidence answer gets the "Not enough context , " prefix.
- `Assistant`: one query.
  - `Resolve` is the specification of `handleQuery`. Its `Outcome` records four things: the answer or the generic error, the chat store afterwards, the breadths of the searches made, and the contexts handed to `queryContext`, in call order. `queryContext` answers a context shorter than 100 characters after trimming with its sentinel and does not call the chat model.
  - `WebResearchAssistant.HandleQuery` runs the same steps on a mutable `ChatStore`. It is proved to agree with `Resolve` on the answer, on the store, and on the ghost logs of the searches it makes and the contexts it hands to `queryContext`.
  - `AnswerQuery` and `PostQuery` model the `/query` route.
  - `PostMessage` models the `/chats/:id/messages` route.
- `AssistantProperties`: what a query promises, stated about `Resolve`. This covers the cache, the escalation and the recorded turns.

Behaviour of the code to note:

- Failed writes: a `save` that throws inside `handleQuery` becomes the generic error, and a `save` that throws in the `/query` route fails the request. The one write failure the model can name is an empty answer, which the message schema rejects (`content` is `required`). It makes the route fail after `handleQuery` has already stored its sources.
- Failed scrape during escalation: the code does not catch it. The whole query then fails, even when the chat id names no chat.
- Unknown chat: `/query` with a chat id that names no chat creates no chat.
- Context layout without history: the history section is `''`. With at least one source, the joined context therefore begins with a blank line; with no source either, the context is `''`. The model reproduces both.

## Model

| member | source | states |
|---|---|---|
| Text.TrimShape | backend/src/scraper.ts:34 | `trim` returns a contiguous slice whose ends are not white space, and only white space is cut away |
| Text.CollapseShape | backend/src/scraper.ts:32-33 | `replace(/\s+/g, ' ')` leaves no two white-space characters in a row and only plain spaces, starts with white space exactly when the input does, and keeps every non-space character in order |
| Text.ContainsIffOccurs | backend/src/index.ts:149-151 | `includes` holds exactly when the substring occurs at some position |
| Text.ContainsAnyIff | backend/src/index.ts:149-151 | `some(... includes ...)` over a list holds exactly when one of the listed phrases occurs |
| Text.JoinSnoc | backend/src/index.ts:35-38 | joining one more part adds the separator and that part at the end |
| Text.JoinEmpty | backend/src/index.ts:35-38 | a join of non-empty parts is empty exactly when there are no parts |
| Search.TrimOr | backend/src/search.ts:45-47 | `field?.trim() \|\| fallback`: the default for a missing or blank field; otherwise a slice of the text that neither starts nor ends with white space and has only white space around it, which is exactly the trimmed text; a failure when the value is not a string |
| Search.Normalize | backend/src/search.ts:44-48 | a record normalises unless some field is not a string, and its title and snippet are never empty |
| Search.NormalizeAll | backend/src/search.ts:43-48 | the mapping succeeds only when every record normalises, and then gives one result per record in order |
| Search.KeepLinked | backend/src/search.ts:50 | the link filter keeps a subset of the results, all with non-empty links |
| Search.GoogleSearch | backend/src/search.ts:19-61 | a short query, a result count outside 1..20 or a missing key gives `[]`; every result returned has a non-empty title and snippet and a link that passes the URL check |
| Search.ResultsFollowProvider | backend/src/search.ts:43-56 | a non-empty answer comes from accepted input, a key and a reply, and matches the provider's records one to one, in order |
| Search.CompleteBatchIsReturned | backend/src/search.ts:43-56 | when every record normalises and conforms, the whole batch is returned in provider order |
| Search.OneBadLinkEmptiesBatch | backend/src/search.ts:49-59 | one record whose link fails the URL check empties the whole answer |
| Search.KeepLinkedAll | backend/src/search.ts:50 | the filter removes nothing once schema validation has passed |
| Scraper.Failed | backend/src/scraper.ts:43-45 | every wrapped error's message begins "Failed to scrape <url>: " |
| Text.CollapseRun | backend/src/scraper.ts:32 | a white-space run between two words, whatever its length and characters, becomes exactly one plain space |
| Scraper.NormalizedRun | backend/src/scraper.ts:32-34 | two words separated by any white-space run come out of the candidate normalisation separated by exactly one space |
| Scraper.NormalizedShape | backend/src/scraper.ts:32-34 | a candidate text has no white space at either end, no two white-space characters in a row, only plain spaces, and the page text's non-space characters in order |
| Scraper.Longest | backend/src/scraper.ts:30-39 | the selected text is at least as long as every candidate, and is the earliest candidate of that length (strict `>`) |
| Scraper.LongestSnoc | backend/src/scraper.ts:36-38 | a later candidate replaces the current text only when strictly longer |
| Scraper.Prefix | backend/src/scraper.ts:42 | `substring(0, n)` is the prefix of min(length, n) characters |
| Scraper.Scrape | backend/src/scraper.ts:5-46 | scraping fails exactly when the URL is invalid or the fetch fails; an invalid URL fails before any fetch, with the URL check's message, and every error names the URL |
| Scraper.ScrapedTextShape | backend/src/scraper.ts:30-42 | the returned text is the first min(length, 5000) characters of the longest candidate, and has no leading white space and no two white-space characters in a row |
| Scraper.ScrapeWebpage | backend/src/scraper.ts:5-46 | the selector loop returns exactly what `Scrape` specifies |
| Llm.Qualify | backend/src/llm.ts:41-57 | the model's text is always a suffix of the output; it is returned unchanged exactly when no low-confidence indicator occurs, and is otherwise prefixed with "Not enough context , " |
| Llm.QueryContext | backend/src/llm.ts:19-58 | an empty or too-short context gives the sentinel without calling the model; otherwise the call succeeds exactly when the model answers, and the answer ends with the model's text |
| Assistant.RenderMessages | backend/src/index.ts:35-37 | one "User: …" or "Assistant: …" line per message, in order |
| Assistant.SourceBlocks | backend/src/index.ts:88-90 | one "--- Web Source: url ---" block per source, in order |
| Assistant.Gather | backend/src/index.ts:56-82 | no search is made when sources are cached; otherwise exactly one search, of breadth 5 |
| Assistant.Escalate | backend/src/index.ts:98-133 | the escalation searches once with breadth 1 and calls `queryContext` at most once more; every failure is the generic error |
| Assistant.Continue | backend/src/index.ts:94-127 | after the first answer, at most one extra search (of breadth 1) and at most one extra `queryContext` call follow |
| Assistant.Resolve | backend/src/index.ts:24-134 | a query fails only with the generic error, calls `queryContext` once or twice, and searches with breadth 5 at most once and then with breadth 1 at most once |
| Assistant.ScrapeSources | backend/src/index.ts:59-72 | the scraping loop keeps the sources whose scrape succeeded, in result order |
| Assistant.WebResearchAssistant.LoadChat | backend/src/index.ts:30-50 | reading the chat gives `Load`'s history, cached sources and store |
| Assistant.WebResearchAssistant.GatherSources | backend/src/index.ts:52-81 | gathering gives `Gather`'s sources, store and searches |
| Assistant.WebResearchAssistant.HandleQuery | backend/src/index.ts:24-134 | the step-by-step query returns what `Resolve` specifies, leaves the store as `Resolve` specifies, and makes exactly the searches and `queryContext` calls `Resolve` logs, in order |
| Assistant.AnswerQuery | backend/src/index.ts:270-292 | a missing or empty query is rejected and changes nothing |
| Assistant.PostQuery | backend/src/index.ts:270-292 | the route replies and stores exactly what `AnswerQuery` specifies |
| Assistant.PostMessage | backend/src/index.ts:228-252 | missing fields are rejected, an unknown chat is not found, an unknown role fails the save, and otherwise exactly one message is appended and nothing else changes |
| AssistantProperties.IndicatorsAreLowerCase | backend/src/index.ts:143-151 | the indicators are lower case, so lowering them in the test changes nothing |
| AssistantProperties.IncompleteIff | backend/src/index.ts:142-151 | an answer is incomplete exactly when its lower-cased text contains one of the three phrases |
| AssistantProperties.IncompleteIgnoresCase | backend/src/index.ts:149-151 | the test gives the same verdict on an answer and on its lower-cased form |
| AssistantProperties.MarkedIsIncomplete | backend/src/index.ts:142-151 | any answer beginning "Not enough context" is incomplete |
| AssistantProperties.SentinelIsIncomplete | backend/src/llm.ts:21-23 | the sentinel answer for a too-short context is classified incomplete |
| AssistantProperties.PrefixedIsIncomplete | backend/src/llm.ts:53-55 | every prefixed low-confidence answer is classified incomplete |
| AssistantProperties.SynthesizedAnswerShape | backend/src/llm.ts:19-58 | an answer is either incomplete or the model's own text with no low-confidence indicator; a too-short context always gives an incomplete answer |
| AssistantProperties.HistoryEmptyIff | backend/src/index.ts:35-38 | the history is empty exactly when the chat has no messages |
| AssistantProperties.HistorySnoc | backend/src/index.ts:35-38 | messages are rendered in order, joined by blank lines |
| AssistantProperties.CombinedWithoutSources | backend/src/index.ts:86-91 | without sources the context is the history section alone |
| AssistantProperties.CombinedSnoc | backend/src/index.ts:86-91 | each further source adds its block at the end, after a blank line |
| AssistantProperties.ConversationBlockIff | backend/src/index.ts:86-91 | the conversation block leads the context exactly when there is history; without history and with at least one source the context begins with a blank line before the source blocks |
| AssistantProperties.SurvivorsAppend | backend/src/index.ts:59-72 | scraping keeps the search results' order |
| AssistantProperties.SurvivorsShape | backend/src/index.ts:59-72 | no more sources than results; each source is a result whose scrape succeeded, with that scrape's text, at most 5000 characters |
| AssistantProperties.AllScrapedAllKept | backend/src/index.ts:59-72 | when every scrape succeeds, every result yields its source, in order |
| AssistantProperties.FirstCall | backend/src/index.ts:86-94 | the first `queryContext` call sees the history and the gathered sources; the searches are the gathering's, possibly followed by one of breadth 1 |
| AssistantProperties.GatheredSourcesStored | backend/src/index.ts:41-82 | after gathering, an existing chat stores exactly the sources the first answer uses, with its messages untouched |
| AssistantProperties.CachedSourcesReused | backend/src/index.ts:41-56 | a non-empty cached list is reused: no breadth-5 search, and the first context is built on the cached sources |
| AssistantProperties.FreshSourcesFetched | backend/src/index.ts:56-91 | without a non-empty cache, the first context is built on the breadth-5 results whose scrape succeeded |
| AssistantProperties.MalformedLikeBlank | backend/src/index.ts:42-50 | a malformed stored context gives the same query outcome as an empty one |
| AssistantProperties.EmptyListLikeBlank | backend/src/index.ts:56-82 | a stored empty list "[]" gives the same outcome as an empty context, so the query searches again |
| AssistantProperties.EscalateFrame | backend/src/index.ts:104-117 | the escalation changes at most the stored context of its own chat |
| AssistantProperties.EscalateExtendedIff | backend/src/index.ts:119-125 | a successful escalation reports `extendedSearch` exactly when `queryContext` was called a second time |
| AssistantProperties.EscalateSecondCall | backend/src/index.ts:98-125 | the second call follows a non-empty breadth-1 search and a successful scrape; its context is the first context plus one additional source block, and that one source is appended to the stored list |
| AssistantProperties.ContinueEscalates | backend/src/index.ts:97 | the escalation runs exactly when the first answer is incomplete and a chat id was given; otherwise the first answer stands |
| AssistantProperties.GatherFrame | backend/src/index.ts:31-82 | loading and gathering change at most the stored context of the query's chat |
| AssistantProperties.ContinueFrame | backend/src/index.ts:97-127 | what follows the first answer changes at most the stored context of the query's chat |
| AssistantProperties.ResolveFrame | backend/src/index.ts:24-134 | a query adds or removes no chat and changes no message; only its own chat's context may change |
| AssistantProperties.NoChatNoEscalation | backend/src/index.ts:31-97 | without a chat id nothing is stored, exactly one breadth-5 search is made, `queryContext` is called once and `extendedSearch` is false |
| AssistantProperties.FirstAnswerStands | backend/src/index.ts:97-130 | a first answer that is not incomplete, or one without a chat id, is the result, with no second call or further search |
| AssistantProperties.ExtendedIffSecondCall | backend/src/index.ts:119-130 | `extendedSearch` is true exactly when `queryContext` was called a second time |
| AssistantProperties.EscalationEffects | backend/src/index.ts:97-127 | a second call implies an existing chat and an incomplete first answer; its context is the first plus one additional block, and the stored list grows by exactly that source at the end |
| AssistantProperties.ShortContextEscalates | backend/src/index.ts:93-97 | a too-short first context in a query with a chat id always leads to the breadth-1 search |
| AssistantProperties.EscalationScrapeFailureIsFatal | backend/src/index.ts:101-133 | a failed scrape during escalation makes the whole query fail with the generic error, even when the chat does not exist |
| AssistantProperties.EscalateUnknownChat | backend/src/index.ts:98-104 | for a chat id naming no chat, the escalation stores nothing and makes no second call; it fails or leaves the first answer standing |
| AssistantProperties.UnknownChatLikeNoChat | backend/src/index.ts:24-134 | a chat id naming no chat stores nothing, and when the query succeeds it answers as one without a chat id |
| AssistantProperties.SourcesPersist | backend/src/index.ts:41-117 | non-empty gathered sources stay cached, so the next query on the chat makes no breadth-5 search |
| AssistantProperties.NoSourcesSearchAgain | backend/src/index.ts:56-82 | when no source survives and there is no escalation, "[]" is stored and the next query searches again |
| AssistantProperties.QueryReplies | backend/src/index.ts:278-291 | a non-empty query is never rejected; the route fails exactly when the query fails or the answer to record is empty, and what the query stored remains |
| AssistantProperties.TurnsRecorded | backend/src/index.ts:278-289 | after a successful query on an existing chat, exactly the query and then the answer are appended, and nothing else changes |
| AssistantProperties.NoChatNothingStored | backend/src/index.ts:281-289 | without an existing chat the route stores nothing |

## Left out

- I/O: the HTTP requests to the search provider and to pages, HTML parsing with cheerio (each selector's text is an input), and the Groq inference call (the model is an input function; the prompt and `temperature 0.2` are not modelled). Each collaborator is a function, so it gives the same answer for the same input within one query.
- Concurrency: `Promise.all` is modelled as a sequential, order-preserving loop. The lost update between two queries on the same chat is not modelled.
- The JSON codec: the stored context is `Blank`, `Json(sources)` or `Malformed`. JSON text that parses to something other than a list of sources is not modelled.
- Scraper.Scrape: an invalid URL's cause is the opaque constant `URL_CHECK_MESSAGE`. zod's error message is the JSON text of its issue list, and the model does not spell that text out.
- Persistence: the store is a map from id to chat. The timestamps (`updatedAt`, `createdAt`), `userId`, ids that are not valid object ids (a `CastError` on `findById`), and a database that fails to save are not modelled. The one save failure modelled is the schema's rejection of an empty message content or an unknown role.
- `Assistant.PostMessage`: `role` and `content` are strings. A non-string body value is not modelled.
- `Assistant.PostQuery`: a query that is not a string is given as `None`. A `chatId` that is not a string is not modelled.
- The Express wiring, CORS, body parsing, HTTP status codes and response bodies (a reply is one of a few named outcomes), `GET /chats`, `POST /chats`, logging, `backend/src/error-handling.ts` (the URL check is an input predicate) and the whole frontend.
- Text: `toLowerCase` is modelled for ASCII letters only. Lengths count characters rather than UTF-16 code units, which matters for the 2-character query minimum, the 100-character context guard and the 5000-character cut.
- `Search.GoogleSearch`: `numResults` is an integer, and the default of 5 for an omitted value is not modelled (every caller passes 5 or 1). The text of zod's error messages is not modelled, since every error becomes `[]`.
- `Scraper.Scrape`: a failure's message after the "Failed to scrape <url>: " prefix is the fetch error's message. The "Unknown error" case for a thrown non-`Error` value is not modelled.
