/**
 * The query-resolution logic of backend/src/index.ts: `handleQuery`, its
 * insufficiency heuristic `isResponseIncomplete`, and the two routes that
 * append messages to a chat.
 *
 * `Resolve` is the specification of one query: what it answers, what the chat
 * store holds afterwards, and which calls it made to the collaborators.
 * `WebResearchAssistant.HandleQuery` performs the same query step by step on a
 * mutable `ChatStore` and is proved to agree with `Resolve`.
 */
module Assistant {
  import opened Wrappers
  import opened Text
  import opened ChatModel
  import Search
  import Scraper
  import Llm

  const INCOMPLETE_INDICATORS := ["not enough context", "insufficient information", "cannot provide a complete answer"]
  const GENERIC_ERROR := "An error occurred while processing your request."
  /** Breadth of the search made when nothing is cached. */
  const INITIAL_BREADTH := 5
  /** Breadth of the search made by the escalation. */
  const EXTENDED_BREADTH := 1
  const CONVERSATION_HEADER := "--- Conversation Context ---\n"
  const SEPARATOR := "\n\n"

  /** The collaborators: the search provider's key and endpoint, the URL check,
      the page fetcher and the chat model. */
  datatype Env = Env(
    serpApiKey: string,
    isUrl: string -> bool,
    provider: (string, int) -> Search.ProviderReply,
    fetch: string -> Scraper.PageFetch,
    model: (string, string) -> Llm.ModelReply)

  datatype QueryResult = QueryResult(response: string, extendedSearch: bool)

  /** `isResponseIncomplete`: the lower-cased answer contains one of the
      indicators (which are lower case already, so lowering them changes nothing). */
  predicate IsResponseIncomplete(response: string)
  {
    ContainsAny(Lower(response), INCOMPLETE_INDICATORS)
  }

  /** `if (chatId)`: a missing or empty chat id means no chat. */
  predicate Given(chatId: Option<ChatId>)
  {
    chatId.Some? && chatId.value != ""
  }

  function RenderMessage(m: Message): string
  {
    (if m.role == User then "User" else "Assistant") + ": " + m.content
  }

  function RenderMessages(ms: seq<Message>): (r: seq<string>)
    ensures |r| == |ms| && forall i :: 0 <= i < |ms| ==> r[i] == RenderMessage(ms[i])
  {
    if ms == [] then [] else [RenderMessage(ms[0])] + RenderMessages(ms[1..])
  }

  /** The chat history: every message as "User: ..." or "Assistant: ...",
      joined by blank lines. */
  function RenderHistory(ms: seq<Message>): string
  {
    Join(RenderMessages(ms), SEPARATOR)
  }

  function SourceBlock(w: WebSource): string
  {
    "--- Web Source: " + w.url + " ---\n" + w.content
  }

  function SourceBlocks(ws: seq<WebSource>): (r: seq<string>)
    ensures |r| == |ws| && forall i :: 0 <= i < |ws| ==> r[i] == SourceBlock(ws[i])
  {
    if ws == [] then [] else [SourceBlock(ws[0])] + SourceBlocks(ws[1..])
  }

  /** The first element of the context array: the labelled history, or the empty
      string when there is no history. */
  function HistorySection(history: string): string
  {
    if history != "" then CONVERSATION_HEADER + history + SEPARATOR else ""
  }

  /** `combinedContext`: the history section and one block per source, joined by
      blank lines. */
  function CombinedContext(history: string, sources: seq<WebSource>): string
  {
    Join([HistorySection(history)] + SourceBlocks(sources), SEPARATOR)
  }

  /** What the escalation appends to the combined context. */
  function AdditionalSourceBlock(url: string, content: string): string
  {
    SEPARATOR + "--- Additional Web Source: " + url + " ---\n" + content
  }

  function SearchFor(query: string, breadth: int, env: Env): seq<Search.SearchResult>
  {
    Search.GoogleSearch(query, breadth, env.serpApiKey, env.isUrl, env.provider)
  }

  function ScrapePage(url: string, env: Env): Result<string, Scraper.ScraperError>
  {
    Scraper.Scrape(url, env.isUrl, env.fetch)
  }

  function Synthesize(context: string, query: string, env: Env): Result<string, string>
  {
    Llm.QueryContext(context, query, env.model)
  }

  /** The source one search result yields: none when its scrape fails. */
  function Kept(result: Search.SearchResult, env: Env): seq<WebSource>
  {
    match ScrapePage(result.link, env)
    case Success(content) => [WebSource(result.link, content)]
    case Failure(_) => []
  }

  /** The sources that survive scraping the search results, in result order
      (`Promise.all` keeps the order of the array it is given). */
  function Survivors(results: seq<Search.SearchResult>, env: Env): seq<WebSource>
  {
    if results == [] then []
    else Survivors(results[..|results| - 1], env) + Kept(results[|results| - 1], env)
  }

  /** The state after reading the chat: its rendered history, the cached
      sources, and the store (where a malformed context has been reset). */
  datatype Loaded = Loaded(history: string, cached: seq<WebSource>, chats: map<ChatId, Chat>)

  function Load(chats: map<ChatId, Chat>, chatId: Option<ChatId>): Loaded
  {
    if !Given(chatId) || chatId.value !in chats then Loaded("", [], chats)
    else
      var chat := chats[chatId.value];
      var history := RenderHistory(chat.messages);
      match chat.context
      case Blank => Loaded(history, [], chats)
      case Json(sources) => Loaded(history, sources, chats)
      case Malformed => Loaded(history, [], chats[chatId.value := chat.(context := Blank)])
  }

  /** The sources the first answer is built on, the store after they were
      cached, and the breadths of the searches made so far. */
  datatype Gathered = Gathered(sources: seq<WebSource>, chats: map<ChatId, Chat>, searches: seq<int>)

  function Gather(loaded: Loaded, query: string, chatId: Option<ChatId>, env: Env): (g: Gathered)
    ensures g.searches == [] <==> loaded.cached != []
    ensures g.searches != [] ==> g.searches == [INITIAL_BREADTH]
  {
    if loaded.cached != [] then Gathered(loaded.cached, loaded.chats, [])
    else
      var sources := Survivors(SearchFor(query, INITIAL_BREADTH, env), env);
      var chats :=
        if Given(chatId) && chatId.value in loaded.chats
        then loaded.chats[chatId.value := loaded.chats[chatId.value].(context := Json(sources))]
        else loaded.chats;
      Gathered(sources, chats, [INITIAL_BREADTH])
  }

  /** One query's effect: its result (or the generic error), the store after
      it, the breadths of the searches it made and the contexts it handed to
      `queryContext`, in order. */
  datatype Outcome = Outcome(
    result: Result<QueryResult, string>,
    chats: map<ChatId, Chat>,
    searches: seq<int>,
    contexts: seq<string>)

  /** The extended search after an incomplete first answer, for the chat `id`. */
  function Escalate(g: Gathered, combined: string, first: string, query: string, id: ChatId, env: Env): (o: Outcome)
    ensures o.result.Failure? ==> o.result.error == GENERIC_ERROR
    ensures 1 <= |o.contexts| <= 2 && o.contexts[0] == combined
    ensures o.searches == g.searches + [EXTENDED_BREADTH]
  {
    var extra := SearchFor(query, EXTENDED_BREADTH, env);
    var searches := g.searches + [EXTENDED_BREADTH];
    if extra == [] then Outcome(Success(QueryResult(first, false)), g.chats, searches, [combined])
    else
      var url := extra[0].link;
      match ScrapePage(url, env)
      case Failure(_) => Outcome(Failure(GENERIC_ERROR), g.chats, searches, [combined])
      case Success(content) =>
        if id !in g.chats then Outcome(Success(QueryResult(first, false)), g.chats, searches, [combined])
        else
          var chat := g.chats[id];
          if chat.context.Malformed? then
            // `JSON.parse` throws
            Outcome(Failure(GENERIC_ERROR), g.chats, searches, [combined])
          else
            var current := if chat.context.Json? then chat.context.sources else [];
            var chats := g.chats[id := chat.(context := Json(current + [WebSource(url, content)]))];
            var extended := combined + AdditionalSourceBlock(url, content);
            match Synthesize(extended, query, env)
            case Failure(_) => Outcome(Failure(GENERIC_ERROR), chats, searches, [combined, extended])
            case Success(second) => Outcome(Success(QueryResult(second, true)), chats, searches, [combined, extended])
  }

  /** What follows the first call of `queryContext`, whose result is `first`:
      the answer, or the escalation when it is incomplete and a chat id was given. */
  function Continue(g: Gathered, combined: string, first: Result<string, string>,
                    query: string, chatId: Option<ChatId>, env: Env): (o: Outcome)
    ensures o.result.Failure? ==> o.result.error == GENERIC_ERROR
    ensures 1 <= |o.contexts| <= 2 && o.contexts[0] == combined
    ensures o.searches == g.searches || o.searches == g.searches + [EXTENDED_BREADTH]
  {
    match first
    case Failure(_) => Outcome(Failure(GENERIC_ERROR), g.chats, g.searches, [combined])
    case Success(answer) =>
      if IsResponseIncomplete(answer) && Given(chatId) then
        Escalate(g, combined, answer, query, chatId.value, env)
      else
        Outcome(Success(QueryResult(answer, false)), g.chats, g.searches, [combined])
  }

  /** `handleQuery(query, chatId)` against the store `chats`. Every failure is
      the one generic error, `queryContext` is called once or twice, and the
      searches made are at most one of breadth 5 followed by at most one of
      breadth 1. */
  function Resolve(chats: map<ChatId, Chat>, query: string, chatId: Option<ChatId>, env: Env): (o: Outcome)
    ensures o.result.Failure? ==> o.result.error == GENERIC_ERROR
    ensures 1 <= |o.contexts| <= 2
    ensures o.searches == [] || o.searches == [INITIAL_BREADTH] || o.searches == [EXTENDED_BREADTH]
         || o.searches == [INITIAL_BREADTH, EXTENDED_BREADTH]
  {
    var loaded := Load(chats, chatId);
    var gathered := Gather(loaded, query, chatId, env);
    var combined := CombinedContext(loaded.history, gathered.sources);
    assert [] + [EXTENDED_BREADTH] == [EXTENDED_BREADTH];
    assert [INITIAL_BREADTH] + [EXTENDED_BREADTH] == [INITIAL_BREADTH, EXTENDED_BREADTH];
    Continue(gathered, combined, Synthesize(combined, query, env), query, chatId, env)
  }

  /** The chat collection: documents found and saved by id. */
  class ChatStore {
    var chats: map<ChatId, Chat>

    constructor (initial: map<ChatId, Chat>)
      ensures chats == initial
    {
      chats := initial;
    }

    /** `Chat.findById`. */
    function FindById(id: ChatId): Option<Chat>
      reads this
    {
      if id in chats then Some(chats[id]) else None
    }

    /** `chat.save()` of the document `id`. */
    method Save(id: ChatId, chat: Chat)
      modifies this
      ensures chats == old(chats)[id := chat]
    {
      chats := chats[id := chat];
    }
  }

  /** Scrapes every search result and keeps those whose scrape succeeded, in
      result order. */
  method ScrapeSources(results: seq<Search.SearchResult>, env: Env) returns (sources: seq<WebSource>)
    ensures sources == Survivors(results, env)
  {
    sources := [];
    for i := 0 to |results|
      invariant sources == Survivors(results[..i], env)
    {
      var content := Scraper.ScrapeWebpage(results[i].link, env.isUrl, env.fetch);
      assert results[..i + 1][..i] == results[..i];
      if content.Success? {
        sources := sources + [WebSource(results[i].link, content.value)];
      }
    }
    assert results[..|results|] == results;
  }

  class WebResearchAssistant {
    const store: ChatStore
    const env: Env

    constructor (store: ChatStore, env: Env)
      ensures this.store == store && this.env == env
    {
      this.store := store;
      this.env := env;
    }

    /** The first step of `handleQuery`: the chat's rendered history and its
        cached sources, resetting a context that does not parse. */
    method LoadChat(chatId: Option<ChatId>) returns (chatHistory: string, existingWebSources: seq<WebSource>)
      modifies store
      ensures Loaded(chatHistory, existingWebSources, store.chats) == Load(old(store.chats), chatId)
    {
      chatHistory := "";
      existingWebSources := [];
      if Given(chatId) {
        var chat := store.FindById(chatId.value);
        if chat.Some? {
          chatHistory := RenderHistory(chat.value.messages);
          match chat.value.context {
            case Blank =>
            case Json(sources) =>
              existingWebSources := sources;
            case Malformed =>
              store.Save(chatId.value, chat.value.(context := Blank));
          }
        }
      }
    }

    /** The second step of `handleQuery`: without cached sources, one search of
        breadth 5, its results scraped, and the survivors cached in the chat. */
    method GatherSources(userQuery: string, chatId: Option<ChatId>, cached: seq<WebSource>, ghost loaded: Loaded)
      returns (sources: seq<WebSource>, ghost searches: seq<int>)
      requires loaded.cached == cached && loaded.chats == store.chats
      modifies store
      ensures Gathered(sources, store.chats, searches) == Gather(loaded, userQuery, chatId, env)
    {
      sources := cached;
      searches := [];
      if |sources| == 0 {
        var searchResults := SearchFor(userQuery, INITIAL_BREADTH, env);
        searches := [INITIAL_BREADTH];
        sources := ScrapeSources(searchResults, env);
        if Given(chatId) {
          var chat := store.FindById(chatId.value);
          if chat.Some? {
            store.Save(chatId.value, chat.value.(context := Json(sources)));
          }
        }
      }
    }

    /** `handleQuery`: answers `userQuery`, reading and updating the chat
        `chatId` if there is one; agrees with `Resolve`. `searches` logs the
        breadth of every search it makes and `contexts` every context it hands
        to `queryContext`, in call order. */
    method HandleQuery(userQuery: string, chatId: Option<ChatId>)
      returns (r: Result<QueryResult, string>, ghost searches: seq<int>, ghost contexts: seq<string>)
      modifies store
      ensures r == Resolve(old(store.chats), userQuery, chatId, env).result
      ensures store.chats == Resolve(old(store.chats), userQuery, chatId, env).chats
      ensures searches == Resolve(old(store.chats), userQuery, chatId, env).searches
      ensures contexts == Resolve(old(store.chats), userQuery, chatId, env).contexts
    {
      var chatHistory, existingWebSources := LoadChat(chatId);
      ghost var loaded := Loaded(chatHistory, existingWebSources, store.chats);
      existingWebSources, searches := GatherSources(userQuery, chatId, existingWebSources, loaded);
      var extendedSearch := false;

      var combinedContext := CombinedContext(chatHistory, existingWebSources);
      var first := Synthesize(combinedContext, userQuery, env);
      contexts := [combinedContext];
      if first.Failure? {
        r := Failure(GENERIC_ERROR);
        return;
      }
      var response := first.value;

      if IsResponseIncomplete(response) && Given(chatId) {
        var additionalSearchResults := SearchFor(userQuery, EXTENDED_BREADTH, env);
        searches := searches + [EXTENDED_BREADTH];
        if |additionalSearchResults| > 0 {
          var link := additionalSearchResults[0].link;
          var additionalContent := Scraper.ScrapeWebpage(link, env.isUrl, env.fetch);
          if additionalContent.Failure? {
            r := Failure(GENERIC_ERROR);
            return;
          }
          var chat := store.FindById(chatId.value);
          if chat.Some? {
            if chat.value.context.Malformed? {
              r := Failure(GENERIC_ERROR);
              return;
            }
            var currentSources := if chat.value.context.Json? then chat.value.context.sources else [];
            currentSources := currentSources + [WebSource(link, additionalContent.value)];
            store.Save(chatId.value, chat.value.(context := Json(currentSources)));
            var extendedContext := combinedContext + AdditionalSourceBlock(link, additionalContent.value);
            var second := Synthesize(extendedContext, userQuery, env);
            contexts := contexts + [extendedContext];
            if second.Failure? {
              r := Failure(GENERIC_ERROR);
              return;
            }
            response := second.value;
            extendedSearch := true;
          }
        }
      }
      r := Success(QueryResult(response, extendedSearch));
    }
  }

  /** The answer of the `/query` route. */
  datatype QueryReply = QueryRejected | QueryFailed | Answered(result: QueryResult)

  datatype RouteOutcome = RouteOutcome(reply: QueryReply, chats: map<ChatId, Chat>)

  /** The `/query` route: rejects a missing or empty query before anything else,
      runs the query, then appends the user's query and the answer to the chat.
      `query` is `None` when the body's query is missing or not a string. */
  function AnswerQuery(chats: map<ChatId, Chat>, query: Option<string>, chatId: Option<ChatId>, env: Env): (r: RouteOutcome)
    ensures query.None? || query.value == "" ==> r == RouteOutcome(QueryRejected, chats)
  {
    if query.None? || query.value == "" then RouteOutcome(QueryRejected, chats)
    else RecordTurns(Resolve(chats, query.value, chatId, env), query.value, chatId)
  }

  /** After `handleQuery` has produced `o`: the reply, and the chat with the
      query and the answer appended when there is one. */
  function RecordTurns(o: Outcome, query: string, chatId: Option<ChatId>): RouteOutcome
  {
    match o.result
    case Failure(_) => RouteOutcome(QueryFailed, o.chats)
    case Success(res) =>
      if Given(chatId) && chatId.value in o.chats then
        var chat := o.chats[chatId.value];
        var answer := Message(Assistant, res.response);
        if !Storable(answer) then
          // the schema rejects the empty answer and `save` throws
          RouteOutcome(QueryFailed, o.chats)
        else
          var turns := [Message(User, query), answer];
          RouteOutcome(Answered(res), o.chats[chatId.value := chat.(messages := chat.messages + turns)])
      else
        RouteOutcome(Answered(res), o.chats)
  }

  /** The `/query` handler; agrees with `AnswerQuery`. */
  method PostQuery(assistant: WebResearchAssistant, query: Option<string>, chatId: Option<ChatId>)
    returns (reply: QueryReply)
    modifies assistant.store
    ensures reply == AnswerQuery(old(assistant.store.chats), query, chatId, assistant.env).reply
    ensures assistant.store.chats == AnswerQuery(old(assistant.store.chats), query, chatId, assistant.env).chats
  {
    if query.None? || query.value == "" {
      return QueryRejected;
    }
    ghost var o := Resolve(old(assistant.store.chats), query.value, chatId, assistant.env);
    var result, searches, contexts := assistant.HandleQuery(query.value, chatId);
    assert result == o.result && assistant.store.chats == o.chats;
    if result.Failure? {
      return QueryFailed;
    }
    var store := assistant.store;
    if Given(chatId) {
      var chat := store.FindById(chatId.value);
      if chat.Some? {
        var answer := Message(Assistant, result.value.response);
        if !Storable(answer) {
          return QueryFailed;
        }
        var messages := chat.value.messages + [Message(User, query.value)];
        messages := messages + [answer];
        assert messages == chat.value.messages + [Message(User, query.value), answer];
        store.Save(chatId.value, chat.value.(messages := messages));
      }
    }
    return Answered(result.value);
  }

  /** The answer of the `/chats/:id/messages` route. */
  datatype MessageReply = MissingField | ChatNotFound | SaveFailed | MessageSaved

  /** The `/chats/:id/messages` handler: both fields must be non-empty, the chat
      must exist, and the role must be one the schema allows; then exactly one
      message is appended and nothing else changes. */
  method PostMessage(store: ChatStore, id: ChatId, role: string, content: string) returns (reply: MessageReply)
    modifies store
    ensures reply == MissingField <==> role == "" || content == ""
    ensures reply == ChatNotFound <==> role != "" && content != "" && id !in old(store.chats)
    ensures reply == SaveFailed <==> role != "" && content != "" && id in old(store.chats) && ParseRole(role).None?
    ensures reply != MessageSaved ==> store.chats == old(store.chats)
    ensures reply == MessageSaved ==>
      && ParseRole(role).Some?
      && store.chats == old(store.chats)[id := old(store.chats)[id].(messages := old(store.chats)[id].messages + [Message(ParseRole(role).value, content)])]
  {
    if role == "" || content == "" {
      return MissingField;
    }
    var chat := store.FindById(id);
    if chat.None? {
      return ChatNotFound;
    }
    var parsed := ParseRole(role);
    if parsed.None? {
      // the schema's enum rejects the role and `save` throws
      return SaveFailed;
    }
    store.Save(id, chat.value.(messages := chat.value.messages + [Message(parsed.value, content)]));
    return MessageSaved;
  }
}
