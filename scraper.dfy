/**
 * `scrapeWebpage` (backend/src/scraper.ts): validates the URL, fetches the page,
 * keeps the longest whitespace-normalised text among a fixed list of CSS
 * selectors and cuts it to 5000 characters; every failure is rethrown as a
 * `ScraperError`.
 */
module Scraper {
  import opened Wrappers
  import opened Text

  /** What fetching a URL gives: the page, seen through the text each CSS
      selector extracts from it (`$(selector).text()`), or a failure with the
      underlying error's message. */
  datatype PageFetch = Page(selectorText: string -> string) | FetchFailed(message: string)

  datatype ScraperError = ScraperError(message: string)

  const CONTENT_SELECTORS := ["article", "main", ".content", "#content", ".article-body", "body"]
  const MAX_PAGE_TEXT := 5000
  /** The message of the error the URL check throws. zod serialises its list of
      issues (among them "Invalid URL format") as JSON text; the model keeps that
      text opaque. */
  const URL_CHECK_MESSAGE := "<issues of the URL check>"

  /** The error every failure is wrapped into. */
  function Failed(url: string, cause: string): (e: ScraperError)
    ensures StartsWith(e.message, "Failed to scrape " + url + ": ")
  {
    ScraperError("Failed to scrape " + url + ": " + cause)
  }

  /** One candidate: the selector's text with white-space runs collapsed, then trimmed. */
  function Normalize(raw: string): string
  {
    Trim(CollapseWhitespace(raw))
  }

  /** A candidate neither starts nor ends with white space, has no two white-space
      characters in a row, and its only white space is the plain space; it keeps
      all the visible text of the selector's text. */
  lemma NormalizedShape(raw: string)
    ensures var r := Normalize(raw);
      && (r == [] || (!IsWhitespace(r[0]) && !IsWhitespace(r[|r| - 1])))
      && SingleSpaced(r) && OnlyPlainSpaces(r)
      && Visible(r) == Visible(raw)
  {
    var c := CollapseWhitespace(raw);
    CollapseShape(raw);
    TrimShape(c);
    var a: nat :| TrimmedAt(c, Trim(c), a);
    TrimmedSpacing(c, Trim(c), a);
    TrimmedVisible(c, Trim(c), a);
  }

  /** Two words separated by any run of white space come out separated by
      exactly one plain space. */
  lemma NormalizedRun(u: string, w: string, v: string)
    requires u != [] && !IsWhitespace(u[|u| - 1])
    requires w != [] && forall i :: 0 <= i < |w| ==> IsWhitespace(w[i])
    requires v != [] && !IsWhitespace(v[0])
    ensures Normalize(u + w + v) == Normalize(u) + (" " + Normalize(v))
  {
    var cu := CollapseWhitespace(u);
    var cv := CollapseWhitespace(v);
    CollapseRun(u, w, v);
    CollapseKeepsLast(u);
    assert cv[0] == v[0];
    TrimAroundSpace(cu, cv);
  }

  /** Trimming two words joined by a space trims each word. */
  lemma TrimAroundSpace(x: string, y: string)
    requires x != [] && !IsWhitespace(x[|x| - 1])
    requires y != [] && !IsWhitespace(y[0])
    ensures Trim(x + (" " + y)) == Trim(x) + (" " + Trim(y))
  {
    var sx := TrimStart(x);
    TrimStartShape(x);
    assert sx != [] && sx[|sx| - 1] == x[|x| - 1];
    TrimStartAppend(x, " " + y);
    TrimEndPrepend(sx, " " + y, 1);
    TrimEndPrepend(" ", y, 0);
  }

  /** A trimmed slice of single-spaced text is single-spaced. */
  lemma TrimmedSpacing(c: string, r: string, a: nat)
    requires SingleSpaced(c) && OnlyPlainSpaces(c)
    requires TrimmedAt(c, r, a)
    ensures SingleSpaced(r) && OnlyPlainSpaces(r)
  {
    SliceSingleSpaced(c, a, a + |r|);
    assert r == c[a..a + |r|];
  }

  /** Trimming drops white space only. */
  lemma TrimmedVisible(c: string, r: string, a: nat)
    requires TrimmedAt(c, r, a)
    ensures Visible(r) == Visible(c)
  {
    var tail := c[a + |r|..];
    VisibleSkipsWhitespace(c, a);
    assert c[a..] == r + tail;
    VisibleAppend(r, tail);
    assert forall i :: 0 <= i < |tail| ==> tail[i] == c[a + |r| + i];
    VisibleOfWhitespace(tail);
  }

  /** The candidates, one per selector, in selector order. */
  function Candidates(selectorText: string -> string): seq<string>
  {
    seq(|CONTENT_SELECTORS|, i requires 0 <= i < |CONTENT_SELECTORS| => Normalize(selectorText(CONTENT_SELECTORS[i])))
  }

  /** The text the selector loop settles on: a candidate replaces the current one
      only when it is strictly longer, starting from the empty text. */
  function Longest(cands: seq<string>): (r: string)
    ensures forall i :: 0 <= i < |cands| ==> |cands[i]| <= |r|
    ensures r == "" || exists k :: FirstOfLength(cands, k, r)
  {
    if cands == [] then ""
    else
      var best := Longest(cands[..|cands| - 1]);
      var last := cands[|cands| - 1];
      var init := cands[..|cands| - 1];
      assert forall j :: 0 <= j < |init| ==> init[j] == cands[j];
      if |last| > |best| then
        assert FirstOfLength(cands, |cands| - 1, last);
        last
      else
        assert best != "" ==> exists k :: FirstOfLength(cands, k, best) by {
          if best != "" {
            var k :| FirstOfLength(init, k, best);
            assert FirstOfLength(cands, k, best);
          }
        }
        best
  }

  /** One more candidate replaces the current text only when strictly longer. */
  lemma LongestSnoc(cands: seq<string>, x: string)
    ensures Longest(cands + [x]) == if |x| > |Longest(cands)| then x else Longest(cands)
  {
    assert (cands + [x])[..|cands|] == cands;
  }

  /** `cands[k]` is `r`, and every candidate before it is strictly shorter. */
  predicate FirstOfLength(cands: seq<string>, k: int, r: string)
  {
    0 <= k < |cands| && cands[k] == r && forall j :: 0 <= j < k ==> |cands[j]| < |r|
  }

  /** JavaScript's `substring(0, n)`. */
  function Prefix(s: string, n: nat): (r: string)
    ensures StartsWith(s, r)
    ensures |r| == if |s| <= n then |s| else n
  {
    if |s| <= n then s else s[..n]
  }

  /** What `scrapeWebpage(url)` resolves to, or the error it throws. It fails
      exactly when the URL is not valid or the fetch fails; an invalid URL fails
      whatever the page would have been, and every failure names the URL. */
  function Scrape(url: string, isUrl: string -> bool, fetch: string -> PageFetch): (r: Result<string, ScraperError>)
    ensures r.Failure? <==> !isUrl(url) || fetch(url).FetchFailed?
    ensures !isUrl(url) ==> r == Failure(Failed(url, URL_CHECK_MESSAGE))
    ensures r.Failure? ==> StartsWith(r.error.message, "Failed to scrape " + url + ": ")
  {
    if !isUrl(url) then Failure(Failed(url, URL_CHECK_MESSAGE))
    else
      match fetch(url)
      case FetchFailed(message) => Failure(Failed(url, message))
      case Page(selectorText) => Success(Prefix(Longest(Candidates(selectorText)), MAX_PAGE_TEXT))
  }

  /** The scraped text is at most 5000 characters, a prefix of the longest
      candidate, and normalised: no leading white space, no two white-space
      characters in a row, and only plain spaces. */
  lemma ScrapedTextShape(url: string, isUrl: string -> bool, fetch: string -> PageFetch)
    requires Scrape(url, isUrl, fetch).Success?
    ensures var text := Scrape(url, isUrl, fetch).value;
      && var best := Longest(Candidates(fetch(url).selectorText));
      && StartsWith(best, text)
      && |text| == (if |best| <= MAX_PAGE_TEXT then |best| else MAX_PAGE_TEXT)
      && (text == [] || !IsWhitespace(text[0]))
      && SingleSpaced(text) && OnlyPlainSpaces(text)
  {
    var cands := Candidates(fetch(url).selectorText);
    var best := Longest(cands);
    if best != "" {
      var k :| FirstOfLength(cands, k, best);
      NormalizedShape(fetch(url).selectorText(CONTENT_SELECTORS[k]));
    }
    var text := Prefix(best, MAX_PAGE_TEXT);
    assert text == best[0..|text|];
    SliceSingleSpaced(best, 0, |text|);
  }

  /** `scrapeWebpage`, with its loop over the selectors. */
  method ScrapeWebpage(url: string, isUrl: string -> bool, fetch: string -> PageFetch)
    returns (r: Result<string, ScraperError>)
    ensures r == Scrape(url, isUrl, fetch)
  {
    if !isUrl(url) {
      return Failure(Failed(url, URL_CHECK_MESSAGE));
    }
    var page := fetch(url);
    if page.FetchFailed? {
      return Failure(Failed(url, page.message));
    }
    ghost var cands := Candidates(page.selectorText);
    var pageText := "";
    for i := 0 to |CONTENT_SELECTORS|
      invariant pageText == Longest(cands[..i])
    {
      var content := Normalize(page.selectorText(CONTENT_SELECTORS[i]));
      assert content == cands[i];
      assert cands[..i + 1] == cands[..i] + [cands[i]];
      LongestSnoc(cands[..i], cands[i]);
      if |content| > |pageText| {
        pageText := content;
      }
    }
    assert cands[..|CONTENT_SELECTORS|] == cands;
    return Success(Prefix(pageText, MAX_PAGE_TEXT));
  }
}
