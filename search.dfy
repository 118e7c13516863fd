/**
 * `googleSearch` (backend/src/search.ts): validates its input, asks the search
 * provider for organic results, normalises every record and validates it
 * against the result schema; any failure at all yields the empty list.
 */
module Search {
  import opened Wrappers
  import opened Text

  /** One field of a provider record as JSON gives it: missing or null, a string,
      or some other value (which has no `trim` method). */
  datatype Field = Absent | Str(s: string) | NonText

  /** One entry of the provider's `organic_results`. */
  datatype RawResult = RawResult(title: Field, link: Field, snippet: Field)

  /** What the HTTP request to the provider gives back: a body whose
      `organic_results` may be missing, or a failed request (network error,
      timeout, non-2xx status). */
  datatype ProviderReply = Reply(organicResults: Option<seq<RawResult>>) | RequestFailed

  datatype SearchResult = SearchResult(title: string, link: string, snippet: string)

  const MIN_QUERY_LENGTH := 2
  const MIN_RESULTS := 1
  const MAX_RESULTS := 20
  const NO_TITLE := "No Title"
  const NO_SNIPPET := "No snippet available"

  /** The input schema: a query of at least two characters and 1 to 20 results. */
  predicate InputAccepted(query: string, numResults: int)
  {
    |query| >= MIN_QUERY_LENGTH && MIN_RESULTS <= numResults <= MAX_RESULTS
  }

  /** `field?.trim() || fallback`; `None` when the value has no `trim` and the
      call throws. */
  function TrimOr(f: Field, fallback: string): (r: Option<string>)
    ensures r.None? <==> f.NonText?
    ensures f.Absent? ==> r == Some(fallback)
    ensures f.Str? && Trim(f.s) == "" ==> r == Some(fallback)
    ensures f.Str? && Trim(f.s) != "" ==>
      && r.Some? && r.value != ""
      && !IsWhitespace(r.value[0]) && !IsWhitespace(r.value[|r.value| - 1])
      && exists a: nat :: TrimmedAt(f.s, r.value, a)
  {
    match f
    case Absent => Some(fallback)
    case Str(s) => TrimShape(s); var t := Trim(s); Some(if t == "" then fallback else t)
    case NonText => None
  }

  /** The first `map`: trims every field and fills in the defaults. */
  function Normalize(raw: RawResult): (r: Option<SearchResult>)
    ensures r.None? <==> (raw.title.NonText? || raw.link.NonText? || raw.snippet.NonText?)
    ensures r.Some? ==> r.value.title != "" && r.value.snippet != ""
  {
    var title := TrimOr(raw.title, NO_TITLE);
    var link := TrimOr(raw.link, "");
    var snippet := TrimOr(raw.snippet, NO_SNIPPET);
    if title.Some? && link.Some? && snippet.Some? then
      Some(SearchResult(title.value, link.value, snippet.value))
    else
      None
  }

  /** Mapping a whole array: one throwing element aborts the whole map. */
  function NormalizeAll(raws: seq<RawResult>): (r: Option<seq<SearchResult>>)
    ensures r.Some? <==> forall i :: 0 <= i < |raws| ==> Normalize(raws[i]).Some?
    ensures r.Some? ==> |r.value| == |raws| && forall i :: 0 <= i < |raws| ==> Normalize(raws[i]) == Some(r.value[i])
  {
    if raws == [] then Some([])
    else
      match (Normalize(raws[0]), NormalizeAll(raws[1..]))
      case (Some(x), Some(xs)) => Some([x] + xs)
      case _ => None
  }

  /** `SearchResultSchema`: a non-empty title and a link that is a URL
      (`isUrl` stands for zod's URL check). */
  predicate Conforms(r: SearchResult, isUrl: string -> bool)
  {
    |r.title| >= 1 && isUrl(r.link)
  }

  /** Every result of the batch passes the schema. */
  predicate AllConform(rs: seq<SearchResult>, isUrl: string -> bool)
  {
    forall i :: 0 <= i < |rs| ==> Conforms(rs[i], isUrl)
  }

  /** What every returned result satisfies. */
  predicate Presentable(r: SearchResult, isUrl: string -> bool)
  {
    r.title != "" && r.snippet != "" && isUrl(r.link)
  }

  /** `filter(result => result.link)`: keeps the results whose link is not empty. */
  function KeepLinked(rs: seq<SearchResult>): (r: seq<SearchResult>)
    ensures |r| <= |rs|
    ensures forall x :: x in r ==> x in rs && x.link != ""
  {
    if rs == [] then []
    else if rs[0].link != "" then [rs[0]] + KeepLinked(rs[1..])
    else KeepLinked(rs[1..])
  }

  /** The list `googleSearch` resolves to; every error it catches becomes `[]`. */
  function GoogleSearch(query: string, numResults: int, apiKey: string,
                        isUrl: string -> bool,
                        provider: (string, int) -> ProviderReply): (r: seq<SearchResult>)
    ensures !InputAccepted(query, numResults) ==> r == []
    ensures apiKey == "" ==> r == []
    ensures forall x :: x in r ==> Presentable(x, isUrl)
  {
    if !InputAccepted(query, numResults) then []
    else if apiKey == "" then []
    else
      match provider(query, numResults)
      case RequestFailed => []
      case Reply(organic) =>
        var raws := if organic.Some? then organic.value else [];
        match NormalizeAll(raws)
        case None => []
        case Some(mapped) =>
          if !AllConform(mapped, isUrl) then []
          else
            var kept := KeepLinked(mapped);
            assert forall x :: x in mapped ==> Presentable(x, isUrl);
            // an empty list is thrown as "No search results found" and caught as []
            if kept == [] then [] else kept
  }

  /** `KeepLinked` keeps every result when no link is empty. */
  lemma {:induction false} KeepLinkedAll(rs: seq<SearchResult>)
    requires forall i :: 0 <= i < |rs| ==> rs[i].link != ""
    ensures KeepLinked(rs) == rs
  {
    if rs != [] {
      KeepLinkedAll(rs[1..]);
    }
  }

  /** The records of a provider reply; a missing `organic_results` counts as none. */
  function RawsOf(reply: ProviderReply): seq<RawResult>
    requires reply.Reply?
  {
    if reply.organicResults.Some? then reply.organicResults.value else []
  }

  /** A non-empty answer comes from an accepted input, a configured key and a reply
      whose records all normalised; it has one result per record, in the
      provider's order. The `filter` removes nothing, because zod rejects the
      empty link before it. */
  lemma ResultsFollowProvider(query: string, numResults: int, apiKey: string,
                              isUrl: string -> bool, provider: (string, int) -> ProviderReply)
    requires !isUrl("")
    ensures var r := GoogleSearch(query, numResults, apiKey, isUrl, provider);
      r != [] ==>
        && InputAccepted(query, numResults) && apiKey != ""
        && provider(query, numResults).Reply?
        && var raws := RawsOf(provider(query, numResults));
           |r| == |raws| && forall i :: 0 <= i < |raws| ==> Normalize(raws[i]) == Some(r[i])
  {
    var r := GoogleSearch(query, numResults, apiKey, isUrl, provider);
    if r != [] {
      var raws := RawsOf(provider(query, numResults));
      var mapped := NormalizeAll(raws).value;
      assert AllConform(mapped, isUrl);
      assert forall i :: 0 <= i < |mapped| ==> mapped[i].link != "" by {
        forall i | 0 <= i < |mapped| ensures mapped[i].link != "" {
          assert Conforms(mapped[i], isUrl);
        }
      }
      KeepLinkedAll(mapped);
    }
  }

  /** Conversely, when every record normalises and passes the schema, the whole
      batch is returned, one result per record and in order. */
  lemma CompleteBatchIsReturned(query: string, numResults: int, apiKey: string,
                                isUrl: string -> bool, provider: (string, int) -> ProviderReply)
    requires !isUrl("")
    requires InputAccepted(query, numResults) && apiKey != ""
    requires provider(query, numResults).Reply?
    requires var raws := RawsOf(provider(query, numResults));
      raws != [] && forall i :: 0 <= i < |raws| ==>
        Normalize(raws[i]).Some? && Conforms(Normalize(raws[i]).value, isUrl)
    ensures var r := GoogleSearch(query, numResults, apiKey, isUrl, provider);
      var raws := RawsOf(provider(query, numResults));
      |r| == |raws| && forall i :: 0 <= i < |raws| ==> Normalize(raws[i]) == Some(r[i])
  {
    var raws := RawsOf(provider(query, numResults));
    var mapped := NormalizeAll(raws).value;
    assert AllConform(mapped, isUrl);
    forall i | 0 <= i < |mapped| ensures mapped[i].link != "" {
      assert Conforms(mapped[i], isUrl);
    }
    KeepLinkedAll(mapped);
  }

  /** One record with a missing, empty or invalid link empties the whole answer:
      the bad record is not merely dropped. */
  lemma OneBadLinkEmptiesBatch(query: string, numResults: int, apiKey: string,
                               isUrl: string -> bool, provider: (string, int) -> ProviderReply, k: nat)
    requires provider(query, numResults).Reply?
    requires var raws := RawsOf(provider(query, numResults));
      k < |raws| && Normalize(raws[k]).Some? && !isUrl(Normalize(raws[k]).value.link)
    ensures GoogleSearch(query, numResults, apiKey, isUrl, provider) == []
  {
    var raws := RawsOf(provider(query, numResults));
    var mapped := NormalizeAll(raws);
    if mapped.Some? {
      assert !Conforms(mapped.value[k], isUrl);
    }
  }
}
