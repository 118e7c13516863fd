/**
 * What the query resolution of backend/src/index.ts promises, stated about the
 * specification functions of module `Assistant`: the insufficiency heuristic
 * and its interplay with `queryContext`'s sentinel and prefix, the layout of
 * the combined context, the scraping of search results, the cache of web
 * sources, the escalation, and the turns the `/query` route records.
 */
module AssistantProperties {
  import opened Wrappers
  import opened Text
  import opened ChatModel
  import opened Assistant
  import Search
  import Scraper
  import Llm

  // ---------------------------------------------------------------------------
  // The insufficiency heuristic

  /** `toLowerCase` leaves text without capital letters as it is. */
  lemma LowerFixed(s: string)
    requires forall i :: 0 <= i < |s| ==> !('A' <= s[i] <= 'Z')
    ensures Lower(s) == s
  {
  }

  /** The indicators are lower case already, so lowering them in the test
      changes nothing. */
  lemma IndicatorsAreLowerCase()
    ensures forall i :: 0 <= i < |INCOMPLETE_INDICATORS| ==>
      Lower(INCOMPLETE_INDICATORS[i]) == INCOMPLETE_INDICATORS[i]
  {
    forall i | 0 <= i < |INCOMPLETE_INDICATORS|
      ensures Lower(INCOMPLETE_INDICATORS[i]) == INCOMPLETE_INDICATORS[i]
    {
      LowerFixed(INCOMPLETE_INDICATORS[i]);
    }
  }

  /** An answer is incomplete exactly when its lower-cased text contains one of
      the three phrases. */
  lemma IncompleteIff(response: string)
    ensures IsResponseIncomplete(response) <==>
      exists i :: 0 <= i < |INCOMPLETE_INDICATORS| && Contains(Lower(response), INCOMPLETE_INDICATORS[i])
  {
    ContainsAnyIff(Lower(response), INCOMPLETE_INDICATORS);
  }

  /** The test ignores case. */
  lemma IncompleteIgnoresCase(response: string)
    ensures IsResponseIncomplete(Lower(response)) <==> IsResponseIncomplete(response)
  {
    LowerIdempotent(response);
  }

  /** Lowering "Not enough context" gives the first indicator. The literals
      come in as arguments so that the solver compares them symbolically. */
  lemma LowerOfMark(mark: string, indicator: string)
    requires mark == "Not enough context" && indicator == "not enough context"
    ensures Lower(mark) == indicator
  {
  }

  /** Any text that begins with "Not enough context" is incomplete. */
  lemma MarkedIsIncomplete(s: string)
    requires StartsWith(s, Llm.INSUFFICIENCY_MARK)
    ensures IsResponseIncomplete(s)
  {
    var p := s[..|Llm.INSUFFICIENCY_MARK|];
    var rest := s[|Llm.INSUFFICIENCY_MARK|..];
    assert s == p + rest;
    LowerAppend(p, rest);
    LowerOfMark(p, INCOMPLETE_INDICATORS[0]);
    StartsWithContains(Lower(s), INCOMPLETE_INDICATORS[0]);
  }

  /** `queryContext`'s sentinel answer counts as incomplete. */
  lemma SentinelIsIncomplete()
    ensures IsResponseIncomplete(Llm.SENTINEL)
  {
    MarkedIsIncomplete(Llm.SENTINEL);
  }

  /** A prefixed (low-confidence) answer counts as incomplete. */
  lemma PrefixedIsIncomplete(response: string)
    ensures IsResponseIncomplete(Llm.LOW_CONFIDENCE_PREFIX + response)
  {
    var s := Llm.LOW_CONFIDENCE_PREFIX + response;
    assert s[..|Llm.INSUFFICIENCY_MARK|] == Llm.INSUFFICIENCY_MARK;
    MarkedIsIncomplete(s);
  }

  /** Whatever `queryContext` answers is either the model's own text, which
      shows no sign of low confidence, or an answer the orchestrator treats as
      incomplete; a context too short for the model always gives the latter. */
  lemma SynthesizedAnswerShape(context: string, query: string, env: Env)
    requires Synthesize(context, query, env).Success?
    ensures var answer := Synthesize(context, query, env).value;
      || IsResponseIncomplete(answer)
      || (!Llm.IsTooShort(context) && answer == env.model(context, query).text
          && !Llm.IsLowConfidence(answer))
    ensures Llm.IsTooShort(context) ==> IsResponseIncomplete(Synthesize(context, query, env).value)
  {
    var answer := Synthesize(context, query, env).value;
    if Llm.IsTooShort(context) {
      SentinelIsIncomplete();
    } else if answer != env.model(context, query).text {
      PrefixedIsIncomplete(env.model(context, query).text);
    }
  }

  // ---------------------------------------------------------------------------
  // The combined context

  lemma RenderedMessageNotEmpty(m: Message)
    ensures RenderMessage(m) != ""
  {
    assert |RenderMessage(m)| >= 2;
  }

  /** The history is empty exactly when the chat has no messages. */
  lemma HistoryEmptyIff(ms: seq<Message>)
    ensures RenderHistory(ms) == "" <==> ms == []
  {
    var parts := RenderMessages(ms);
    forall i | 0 <= i < |parts| ensures parts[i] != "" {
      RenderedMessageNotEmpty(ms[i]);
    }
    JoinEmpty(parts, SEPARATOR);
  }

  /** The history lists the messages in order: one more message adds one more
      rendered line at the end, after a blank line. */
  lemma HistorySnoc(ms: seq<Message>, m: Message)
    ensures RenderHistory(ms + [m]) ==
      if ms == [] then RenderMessage(m) else RenderHistory(ms) + SEPARATOR + RenderMessage(m)
  {
    assert RenderMessages(ms + [m]) == RenderMessages(ms) + [RenderMessage(m)];
    if ms != [] {
      JoinSnoc(RenderMessages(ms), RenderMessage(m), SEPARATOR);
    }
  }

  /** Without sources the combined context is the history section alone. */
  lemma CombinedWithoutSources(history: string)
    ensures CombinedContext(history, []) == HistorySection(history)
  {
    assert [HistorySection(history)] + SourceBlocks([]) == [HistorySection(history)];
  }

  /** One more source adds its block at the end, after a blank line: the blocks
      follow the sources' order. */
  lemma CombinedSnoc(history: string, sources: seq<WebSource>, w: WebSource)
    ensures CombinedContext(history, sources + [w]) ==
      CombinedContext(history, sources) + SEPARATOR + SourceBlock(w)
  {
    var head := [HistorySection(history)];
    assert SourceBlocks(sources + [w]) == SourceBlocks(sources) + [SourceBlock(w)];
    assert head + SourceBlocks(sources + [w]) == (head + SourceBlocks(sources)) + [SourceBlock(w)];
    JoinSnoc(head + SourceBlocks(sources), SourceBlock(w), SEPARATOR);
  }

  /** The conversation block opens the context exactly when there is a history;
      without one, the empty first element still leaves a blank line before the
      first source block. */
  lemma ConversationBlockIff(history: string, sources: seq<WebSource>)
    ensures history != "" ==> StartsWith(CombinedContext(history, sources), CONVERSATION_HEADER + history + SEPARATOR)
    ensures history == "" ==> !StartsWith(CombinedContext(history, sources), CONVERSATION_HEADER)
    ensures history == "" && sources != [] ==>
      CombinedContext(history, sources) == SEPARATOR + Join(SourceBlocks(sources), SEPARATOR)
  {
    var parts := [HistorySection(history)] + SourceBlocks(sources);
    if sources != [] {
      assert parts[1..] == SourceBlocks(sources);
      assert CombinedContext(history, sources) == HistorySection(history) + SEPARATOR + Join(SourceBlocks(sources), SEPARATOR);
    } else {
      CombinedWithoutSources(history);
    }
    if history != "" {
      var prefix := CONVERSATION_HEADER + history + SEPARATOR;
      assert CombinedContext(history, sources)[..|prefix|] == prefix;
    } else if sources != [] {
      assert CombinedContext(history, sources)[0] == '\n';
    }
  }

  // ---------------------------------------------------------------------------
  // Scraping the search results

  /** Scraping a list in two parts keeps the parts' order. */
  lemma {:induction false} SurvivorsAppend(a: seq<Search.SearchResult>, b: seq<Search.SearchResult>, env: Env)
    ensures Survivors(a + b, env) == Survivors(a, env) + Survivors(b, env)
    decreases |b|
  {
    if b == [] {
      assert a + b == a;
    } else {
      var init := b[..|b| - 1];
      assert (a + b)[..|a + b| - 1] == a + init;
      SurvivorsAppend(a, init, env);
    }
  }

  /** No more sources than results; each source is a result whose scrape
      succeeded, its content is that scrape's text and at most 5000 characters
      long. */
  lemma {:induction false} SurvivorsShape(results: seq<Search.SearchResult>, env: Env)
    ensures var sources := Survivors(results, env);
      && |sources| <= |results|
      && forall j :: 0 <= j < |sources| ==>
           && (exists i :: 0 <= i < |results| && results[i].link == sources[j].url)
           && ScrapePage(sources[j].url, env) == Success(sources[j].content)
           && |sources[j].content| <= Scraper.MAX_PAGE_TEXT
  {
    if results != [] {
      var init := results[..|results| - 1];
      var last := results[|results| - 1];
      SurvivorsShape(init, env);
      var sources := Survivors(results, env);
      var front := Survivors(init, env);
      forall j | 0 <= j < |sources|
        ensures exists i :: 0 <= i < |results| && results[i].link == sources[j].url
        ensures ScrapePage(sources[j].url, env) == Success(sources[j].content)
        ensures |sources[j].content| <= Scraper.MAX_PAGE_TEXT
      {
        if j < |front| {
          var i :| 0 <= i < |init| && init[i].link == front[j].url;
          assert results[i] == init[i];
        } else {
          assert sources[j] == WebSource(last.link, ScrapePage(last.link, env).value);
          assert results[|results| - 1].link == sources[j].url;
          Scraper.ScrapedTextShape(last.link, env.isUrl, env.fetch);
        }
      }
    }
  }

  /** When every scrape succeeds, every result yields its source, in order. */
  lemma {:induction false} AllScrapedAllKept(results: seq<Search.SearchResult>, env: Env)
    requires forall i :: 0 <= i < |results| ==> ScrapePage(results[i].link, env).Success?
    ensures var sources := Survivors(results, env);
      && |sources| == |results|
      && forall i :: 0 <= i < |results| ==>
           sources[i] == WebSource(results[i].link, ScrapePage(results[i].link, env).value)
  {
    if results != [] {
      var init := results[..|results| - 1];
      var last := results[|results| - 1];
      AllScrapedAllKept(init, env);
      var front := Survivors(init, env);
      var w := WebSource(last.link, ScrapePage(last.link, env).value);
      assert Survivors(results, env) == front + [w];
      forall i | 0 <= i < |results|
        ensures Survivors(results, env)[i] == WebSource(results[i].link, ScrapePage(results[i].link, env).value)
      {
        if i < |init| {
          assert results[i] == init[i];
        }
      }
    }
  }

  // ---------------------------------------------------------------------------
  // One query: the cache of sources

  /** The sources the first answer of a query is built on. */
  function FirstSources(chats: map<ChatId, Chat>, query: string, chatId: Option<ChatId>, env: Env): seq<WebSource>
  {
    Gather(Load(chats, chatId), query, chatId, env).sources
  }

  /** The searches made before the first answer. */
  function FirstSearches(chats: map<ChatId, Chat>, query: string, chatId: Option<ChatId>, env: Env): seq<int>
  {
    Gather(Load(chats, chatId), query, chatId, env).searches
  }

  /** The context of the first call of `queryContext`. */
  function FirstContext(chats: map<ChatId, Chat>, query: string, chatId: Option<ChatId>, env: Env): string
  {
    CombinedContext(Load(chats, chatId).history, FirstSources(chats, query, chatId, env))
  }

  /** Whether the stored context of the chat holds a non-empty list of sources. */
  predicate HasCache(chats: map<ChatId, Chat>, chatId: Option<ChatId>)
  {
    Given(chatId) && chatId.value in chats
    && chats[chatId.value].context.Json? && chats[chatId.value].context.sources != []
  }

  /** Only the stored context of the chat `chatId` may differ between `before`
      and `after`: the same chats, with the same messages. */
  predicate OnlyContextChanged(before: map<ChatId, Chat>, after: map<ChatId, Chat>, chatId: Option<ChatId>)
  {
    && before.Keys == after.Keys
    && forall k :: k in before ==>
         && after[k].messages == before[k].messages
         && ((!Given(chatId) || k != chatId.value) ==> after[k] == before[k])
  }

  lemma OnlyContextChangedTrans(a: map<ChatId, Chat>, b: map<ChatId, Chat>, c: map<ChatId, Chat>, chatId: Option<ChatId>)
    requires OnlyContextChanged(a, b, chatId) && OnlyContextChanged(b, c, chatId)
    ensures OnlyContextChanged(a, c, chatId)
  {
  }

  /** The first answer is built on the history and the gathered sources, and
      the searches are those of the gathering, possibly followed by the
      escalation's. */
  lemma FirstCall(chats: map<ChatId, Chat>, query: string, chatId: Option<ChatId>, env: Env)
    ensures var o := Resolve(chats, query, chatId, env);
      && o.contexts[0] == FirstContext(chats, query, chatId, env)
      && (o.searches == FirstSearches(chats, query, chatId, env)
          || o.searches == FirstSearches(chats, query, chatId, env) + [EXTENDED_BREADTH])
  {
  }

  /** After the gathering, a chat that exists stores exactly the sources the
      first answer is built on, whether they came from its cache or from a
      fresh search, and its messages are untouched. */
  lemma GatheredSourcesStored(chats: map<ChatId, Chat>, query: string, chatId: Option<ChatId>, env: Env)
    requires Given(chatId) && chatId.value in chats
    ensures var g := Gather(Load(chats, chatId), query, chatId, env);
      && chatId.value in g.chats
      && g.chats[chatId.value].context == Json(g.sources)
      && g.chats[chatId.value].messages == chats[chatId.value].messages
  {
  }

  /** A non-empty cached list is reused: no search of breadth 5 is made, and
      the first context is built on the cached sources alone, so it depends on
      no scrape. */
  lemma CachedSourcesReused(chats: map<ChatId, Chat>, query: string, chatId: Option<ChatId>, env: Env)
    requires HasCache(chats, chatId)
    ensures var o := Resolve(chats, query, chatId, env);
      && FirstSources(chats, query, chatId, env) == chats[chatId.value].context.sources
      && (o.searches == [] || o.searches == [EXTENDED_BREADTH])
      && o.contexts[0] == CombinedContext(RenderHistory(chats[chatId.value].messages), chats[chatId.value].context.sources)
  {
    FirstCall(chats, query, chatId, env);
  }

  /** Without a non-empty cache, the query searches with breadth 5 and builds
      its first answer on the results whose scrape succeeded, in result order. */
  lemma FreshSourcesFetched(chats: map<ChatId, Chat>, query: string, chatId: Option<ChatId>, env: Env)
    requires !HasCache(chats, chatId)
    ensures var o := Resolve(chats, query, chatId, env);
      && FirstSources(chats, query, chatId, env) == Survivors(SearchFor(query, INITIAL_BREADTH, env), env)
      && o.searches != [] && o.searches[0] == INITIAL_BREADTH
      && o.contexts[0] == CombinedContext(Load(chats, chatId).history, Survivors(SearchFor(query, INITIAL_BREADTH, env), env))
  {
    FirstCall(chats, query, chatId, env);
  }

  /** A malformed stored context is treated as no context at all. */
  lemma MalformedLikeBlank(chats: map<ChatId, Chat>, query: string, id: ChatId, env: Env)
    requires id != "" && id in chats && chats[id].context == Malformed
    ensures Resolve(chats, query, Some(id), env) == Resolve(chats[id := chats[id].(context := Blank)], query, Some(id), env)
  {
    var blank := chats[id := chats[id].(context := Blank)];
    assert Load(chats, Some(id)) == Load(blank, Some(id));
  }

  /** An empty stored list ("[]") is treated like no context: the next query
      searches again. */
  lemma EmptyListLikeBlank(chats: map<ChatId, Chat>, query: string, id: ChatId, env: Env)
    requires id != "" && id in chats
    ensures var chat := chats[id];
      Resolve(chats[id := chat.(context := Json([]))], query, Some(id), env)
        == Resolve(chats[id := chat.(context := Blank)], query, Some(id), env)
  {
    var chat := chats[id];
    var empty := chats[id := chat.(context := Json([]))];
    var blank := chats[id := chat.(context := Blank)];
    LoadUncached(empty, id);
    LoadUncached(blank, id);
    GatherUncached(Load(empty, Some(id)), query, id, env);
    GatherUncached(Load(blank, Some(id)), query, id, env);
    var sources := Survivors(SearchFor(query, INITIAL_BREADTH, env), env);
    assert empty[id := empty[id].(context := Json(sources))] == blank[id := blank[id].(context := Json(sources))];
    SameGatheringSameOutcome(empty, blank, query, Some(id), env);
  }

  /** A chat whose context holds no source loads its history and no source. */
  lemma LoadUncached(chats: map<ChatId, Chat>, id: ChatId)
    requires id != "" && id in chats && chats[id].context in {Blank, Json([])}
    ensures Load(chats, Some(id)) == Loaded(RenderHistory(chats[id].messages), [], chats)
  {
  }

  /** Without cached sources, gathering searches once and caches the survivors
      in the chat. */
  lemma GatherUncached(loaded: Loaded, query: string, id: ChatId, env: Env)
    requires id != "" && id in loaded.chats && loaded.cached == []
    ensures var sources := Survivors(SearchFor(query, INITIAL_BREADTH, env), env);
      Gather(loaded, query, Some(id), env)
        == Gathered(sources, loaded.chats[id := loaded.chats[id].(context := Json(sources))], [INITIAL_BREADTH])
  {
  }

  /** Two stores that give the same history and gather the same sources into
      the same store give the same outcome. */
  lemma SameGatheringSameOutcome(a: map<ChatId, Chat>, b: map<ChatId, Chat>, query: string, chatId: Option<ChatId>, env: Env)
    requires Load(a, chatId).history == Load(b, chatId).history
    requires Gather(Load(a, chatId), query, chatId, env) == Gather(Load(b, chatId), query, chatId, env)
    ensures Resolve(a, query, chatId, env) == Resolve(b, query, chatId, env)
  {
  }

  // ---------------------------------------------------------------------------
  // One query: the escalation

  /** The escalation changes the stored context of the chat `id` or nothing. */
  lemma EscalateFrame(g: Gathered, combined: string, first: string, query: string, id: ChatId, env: Env)
    ensures var o := Escalate(g, combined, first, query, id, env);
      o.chats == g.chats || (id in g.chats && o.chats == g.chats[id := g.chats[id].(context := o.chats[id].context)])
  {
  }

  lemma EscalateExtendedIff(g: Gathered, combined: string, first: string, query: string, id: ChatId, env: Env)
    ensures var o := Escalate(g, combined, first, query, id, env);
      o.result.Success? ==> (o.result.value.extendedSearch <==> |o.contexts| == 2)
  {
  }

  /** The second call of the escalation: its context, and the one source it
      appends to the chat's list. */
  lemma EscalateSecondCall(g: Gathered, combined: string, first: string, query: string, id: ChatId, env: Env)
    requires |Escalate(g, combined, first, query, id, env).contexts| == 2
    requires id in g.chats && g.chats[id].context == Json(g.sources)
    ensures var o := Escalate(g, combined, first, query, id, env);
      var extra := SearchFor(query, EXTENDED_BREADTH, env);
      && extra != []
      && ScrapePage(extra[0].link, env).Success?
      && var w := WebSource(extra[0].link, ScrapePage(extra[0].link, env).value);
      && o.contexts[1] == combined + AdditionalSourceBlock(w.url, w.content)
      && id in o.chats
      && o.chats[id].context == Json(g.sources + [w])
  {
  }

  /** What follows the first answer escalates exactly when that answer is
      incomplete and a chat id was given. */
  lemma ContinueEscalates(g: Gathered, combined: string, first: Result<string, string>,
                          query: string, chatId: Option<ChatId>, env: Env)
    ensures var o := Continue(g, combined, first, query, chatId, env);
      if first.Success? && IsResponseIncomplete(first.value) && Given(chatId)
      then o == Escalate(g, combined, first.value, query, chatId.value, env)
      else (|o.contexts| == 1 && o.chats == g.chats && o.searches == g.searches
            && (first.Success? ==> o.result == Success(QueryResult(first.value, false))))
  {
  }

  /** Reading the chat and gathering the sources change only its context. */
  lemma GatherFrame(chats: map<ChatId, Chat>, query: string, chatId: Option<ChatId>, env: Env)
    ensures OnlyContextChanged(chats, Gather(Load(chats, chatId), query, chatId, env).chats, chatId)
  {
  }

  /** Neither does what follows the first answer. */
  lemma ContinueFrame(g: Gathered, combined: string, first: Result<string, string>,
                      query: string, chatId: Option<ChatId>, env: Env)
    ensures OnlyContextChanged(g.chats, Continue(g, combined, first, query, chatId, env).chats, chatId)
  {
    ContinueEscalates(g, combined, first, query, chatId, env);
    if first.Success? && IsResponseIncomplete(first.value) && Given(chatId) {
      EscalateFrame(g, combined, first.value, query, chatId.value, env);
    }
  }

  /** A query changes nothing but the stored context of its own chat: no chat
      appears or disappears and no message changes. */
  lemma ResolveFrame(chats: map<ChatId, Chat>, query: string, chatId: Option<ChatId>, env: Env)
    ensures OnlyContextChanged(chats, Resolve(chats, query, chatId, env).chats, chatId)
  {
    var loaded := Load(chats, chatId);
    var g := Gather(loaded, query, chatId, env);
    var combined := CombinedContext(loaded.history, g.sources);
    var first := Synthesize(combined, query, env);
    assert Resolve(chats, query, chatId, env) == Continue(g, combined, first, query, chatId, env);
    GatherFrame(chats, query, chatId, env);
    ContinueFrame(g, combined, first, query, chatId, env);
    OnlyContextChangedTrans(chats, g.chats, Continue(g, combined, first, query, chatId, env).chats, chatId);
  }

  /** Without a chat id nothing is stored and there is no escalation. */
  lemma NoChatNoEscalation(chats: map<ChatId, Chat>, query: string, chatId: Option<ChatId>, env: Env)
    requires !Given(chatId)
    ensures var o := Resolve(chats, query, chatId, env);
      && o.chats == chats
      && o.searches == [INITIAL_BREADTH]
      && o.contexts == [CombinedContext("", Survivors(SearchFor(query, INITIAL_BREADTH, env), env))]
      && (o.result.Success? ==> !o.result.value.extendedSearch)
  {
  }

  /** A first answer that is not incomplete, or one given without a chat id, is
      the answer: no second call, no further search, nothing more stored. */
  lemma FirstAnswerStands(chats: map<ChatId, Chat>, query: string, chatId: Option<ChatId>, env: Env)
    ensures var o := Resolve(chats, query, chatId, env);
      var first := Synthesize(FirstContext(chats, query, chatId, env), query, env);
      first.Success? && (!IsResponseIncomplete(first.value) || !Given(chatId)) ==>
        && o.result == Success(QueryResult(first.value, false))
        && |o.contexts| == 1
        && o.searches == FirstSearches(chats, query, chatId, env)
        && o.chats == Gather(Load(chats, chatId), query, chatId, env).chats
  {
  }

  /** `extendedSearch` is reported exactly when `queryContext` was called a
      second time. */
  lemma ExtendedIffSecondCall(chats: map<ChatId, Chat>, query: string, chatId: Option<ChatId>, env: Env)
    ensures var o := Resolve(chats, query, chatId, env);
      o.result.Success? ==> (o.result.value.extendedSearch <==> |o.contexts| == 2)
  {
    var loaded := Load(chats, chatId);
    var g := Gather(loaded, query, chatId, env);
    var combined := CombinedContext(loaded.history, g.sources);
    var first := Synthesize(combined, query, env);
    assert Resolve(chats, query, chatId, env) == Continue(g, combined, first, query, chatId, env);
    ContinueEscalates(g, combined, first, query, chatId, env);
    if first.Success? && IsResponseIncomplete(first.value) && Given(chatId) {
      EscalateExtendedIff(g, combined, first.value, query, chatId.value, env);
    }
  }

  /** The second call happens only for an existing chat whose first answer was
      incomplete, after a breadth-1 search with a result whose page was
      scraped; its context is the first one followed by one additional source
      block, and the stored list is the first answer's sources with that one
      source appended. */
  lemma EscalationEffects(chats: map<ChatId, Chat>, query: string, chatId: Option<ChatId>, env: Env)
    requires |Resolve(chats, query, chatId, env).contexts| == 2
    ensures Given(chatId) && chatId.value in chats
    ensures var first := Synthesize(FirstContext(chats, query, chatId, env), query, env);
      first.Success? && IsResponseIncomplete(first.value)
    ensures var o := Resolve(chats, query, chatId, env);
      var extra := SearchFor(query, EXTENDED_BREADTH, env);
      && extra != []
      && ScrapePage(extra[0].link, env).Success?
      && var w := WebSource(extra[0].link, ScrapePage(extra[0].link, env).value);
      && o.contexts[1] == o.contexts[0] + AdditionalSourceBlock(w.url, w.content)
      && chatId.value in o.chats
      && o.chats[chatId.value].context == Json(FirstSources(chats, query, chatId, env) + [w])
      && o.searches == FirstSearches(chats, query, chatId, env) + [EXTENDED_BREADTH]
  {
    var loaded := Load(chats, chatId);
    var g := Gather(loaded, query, chatId, env);
    var combined := CombinedContext(loaded.history, g.sources);
    var first := Synthesize(combined, query, env);
    var o := Continue(g, combined, first, query, chatId, env);
    assert Resolve(chats, query, chatId, env) == o;
    ContinueEscalates(g, combined, first, query, chatId, env);
    assert first.Success? && IsResponseIncomplete(first.value) && Given(chatId);
    var id := chatId.value;
    assert o == Escalate(g, combined, first.value, query, id, env);
    EscalateFrame(g, combined, first.value, query, id, env);
    assert id in g.chats;
    GatheredSourcesStored(chats, query, chatId, env);
    EscalateSecondCall(g, combined, first.value, query, id, env);
  }

  /** A context too short for the model, in a query with a chat id, always
      leads to the escalation's search. */
  lemma ShortContextEscalates(chats: map<ChatId, Chat>, query: string, chatId: Option<ChatId>, env: Env)
    requires Given(chatId) && Llm.IsTooShort(FirstContext(chats, query, chatId, env))
    ensures Resolve(chats, query, chatId, env).searches == FirstSearches(chats, query, chatId, env) + [EXTENDED_BREADTH]
  {
    SynthesizedAnswerShape(FirstContext(chats, query, chatId, env), query, env);
  }

  /** A failed scrape in the escalation is not swallowed: the query fails with
      the generic error, whether or not the chat exists. */
  lemma EscalationScrapeFailureIsFatal(chats: map<ChatId, Chat>, query: string, chatId: Option<ChatId>, env: Env)
    requires Given(chatId)
    requires var first := Synthesize(FirstContext(chats, query, chatId, env), query, env);
      first.Success? && IsResponseIncomplete(first.value)
    requires var extra := SearchFor(query, EXTENDED_BREADTH, env);
      extra != [] && ScrapePage(extra[0].link, env).Failure?
    ensures Resolve(chats, query, chatId, env).result == Failure(GENERIC_ERROR)
  {
  }

  /** For a chat that does not exist, the escalation stores nothing, makes no
      second call, and either fails or leaves the first answer standing. */
  lemma EscalateUnknownChat(g: Gathered, combined: string, first: string, query: string, id: ChatId, env: Env)
    requires id !in g.chats
    ensures var o := Escalate(g, combined, first, query, id, env);
      && o.chats == g.chats && o.contexts == [combined]
      && (o.result.Success? ==> o.result == Success(QueryResult(first, false)))
  {
  }

  /** A chat id that names no chat stores nothing, and a query that succeeds
      with it answers as a query without a chat id does. */
  lemma UnknownChatLikeNoChat(chats: map<ChatId, Chat>, query: string, chatId: Option<ChatId>, env: Env)
    requires Given(chatId) && chatId.value !in chats
    ensures var o := Resolve(chats, query, chatId, env);
      && o.chats == chats
      && o.contexts == Resolve(chats, query, None, env).contexts
      && (o.result.Success? ==> o.result == Resolve(chats, query, None, env).result)
  {
    var loaded := Load(chats, chatId);
    assert loaded == Load(chats, None);
    var g := Gather(loaded, query, chatId, env);
    assert g == Gather(loaded, query, None, env);
    var combined := CombinedContext(loaded.history, g.sources);
    var first := Synthesize(combined, query, env);
    assert Resolve(chats, query, chatId, env) == Continue(g, combined, first, query, chatId, env);
    assert Resolve(chats, query, None, env) == Continue(g, combined, first, query, None, env);
    if first.Success? && IsResponseIncomplete(first.value) {
      EscalateUnknownChat(g, combined, first.value, query, chatId.value, env);
    }
  }

  /** The sources a query gathers for an existing chat stay cached: when they
      are not empty, the next query on that chat makes no breadth-5 search. */
  lemma SourcesPersist(chats: map<ChatId, Chat>, query: string, next: string, chatId: Option<ChatId>, env: Env)
    requires Given(chatId) && chatId.value in chats
    requires FirstSources(chats, query, chatId, env) != []
    ensures HasCache(Resolve(chats, query, chatId, env).chats, chatId)
    ensures var o2 := Resolve(Resolve(chats, query, chatId, env).chats, next, chatId, env);
      o2.searches == [] || o2.searches == [EXTENDED_BREADTH]
  {
    var o := Resolve(chats, query, chatId, env);
    GatheredSourcesStored(chats, query, chatId, env);
    if |o.contexts| == 2 {
      EscalationEffects(chats, query, chatId, env);
    } else {
      FirstAnswerStands(chats, query, chatId, env);
      assert o.chats == Gather(Load(chats, chatId), query, chatId, env).chats;
    }
    CachedSourcesReused(o.chats, next, chatId, env);
  }

  /** When no source survives and there is no escalation, "[]" is stored and
      the next query on that chat searches again. */
  lemma NoSourcesSearchAgain(chats: map<ChatId, Chat>, query: string, next: string, chatId: Option<ChatId>, env: Env)
    requires Given(chatId) && chatId.value in chats
    requires FirstSources(chats, query, chatId, env) == []
    requires |Resolve(chats, query, chatId, env).contexts| == 1
    ensures var o := Resolve(chats, query, chatId, env);
      chatId.value in o.chats && o.chats[chatId.value].context == Json([])
    ensures var o2 := Resolve(Resolve(chats, query, chatId, env).chats, next, chatId, env);
      o2.searches != [] && o2.searches[0] == INITIAL_BREADTH
  {
    var o := Resolve(chats, query, chatId, env);
    GatheredSourcesStored(chats, query, chatId, env);
    FirstAnswerStands(chats, query, chatId, env);
    assert o.chats == Gather(Load(chats, chatId), query, chatId, env).chats;
    FreshSourcesFetched(o.chats, next, chatId, env);
  }

  // ---------------------------------------------------------------------------
  // The `/query` route

  /** A non-empty query is never rejected; the route fails exactly when the
      query fails or when the answer to be recorded in an existing chat is
      empty (the schema refuses it); what the query stored stays stored even
      then, and otherwise the reply carries the query's result. */
  lemma QueryReplies(chats: map<ChatId, Chat>, query: string, chatId: Option<ChatId>, env: Env)
    requires query != ""
    ensures var o := Resolve(chats, query, chatId, env);
      var r := AnswerQuery(chats, Some(query), chatId, env);
      && r.reply != QueryRejected
      && (r.reply == QueryFailed <==>
            o.result.Failure? || (Given(chatId) && chatId.value in chats && o.result.value.response == ""))
      && (r.reply == QueryFailed ==> r.chats == o.chats)
      && (r.reply.Answered? ==> r.reply.result == o.result.value)
  {
    ResolveFrame(chats, query, chatId, env);
  }

  /** After a successful query on an existing chat, exactly two messages are
      appended, the query and then the answer; the earlier messages, the
      context the query stored and every other chat are as the query left
      them. */
  lemma TurnsRecorded(chats: map<ChatId, Chat>, query: string, chatId: Option<ChatId>, env: Env)
    requires query != ""
    requires Given(chatId) && chatId.value in chats
    requires var o := Resolve(chats, query, chatId, env);
      o.result.Success? && o.result.value.response != ""
    ensures var o := Resolve(chats, query, chatId, env);
      var r := AnswerQuery(chats, Some(query), chatId, env);
      var id := chatId.value;
      && r.reply == Answered(o.result.value)
      && r.chats.Keys == chats.Keys
      && r.chats[id].messages == chats[id].messages + [Message(User, query), Message(Assistant, o.result.value.response)]
      && r.chats[id].context == o.chats[id].context
      && forall k :: k in chats && k != id ==> r.chats[k] == chats[k]
  {
    ResolveFrame(chats, query, chatId, env);
  }

  /** Without an existing chat the route stores nothing at all. */
  lemma NoChatNothingStored(chats: map<ChatId, Chat>, query: string, chatId: Option<ChatId>, env: Env)
    requires !Given(chatId) || chatId.value !in chats
    ensures AnswerQuery(chats, Some(query), chatId, env).chats == chats
  {
    if query != "" {
      ResolveFrame(chats, query, chatId, env);
      var o := Resolve(chats, query, chatId, env);
      assert o.chats == chats by {
        if Given(chatId) {
          UnknownChatLikeNoChat(chats, query, chatId, env);
        } else {
          NoChatNoEscalation(chats, query, chatId, env);
        }
      }
    }
  }
}
