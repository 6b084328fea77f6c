/** The search-augmented answerer of services/webSearch.ts: a simulated search, the
    serialisation of its results into a grounding prompt, one completion request on
    those results, and a plain completion request as the fallback when anything
    before it throws. */
module WebSearchService {
  import opened Wrappers
  import opened Strings
  import opened Completions

  /** One search hit. */
  datatype SearchResult = SearchResult(title: string, description: string, url: string, source: string)

  const NoResultsAnswer := "I couldn't find any relevant information for your query. Please try rephrasing your question."
  const GroundingInstruction := "You are a helpful AI assistant that provides comprehensive answers based on web search results. \n    Use the provided search results to answer the user's question accurately and thoroughly. \n    If the search results don't contain enough information, acknowledge this limitation.\n    Always cite your sources when possible."
  const FallbackInstruction := "You are a helpful AI assistant. Provide accurate and helpful responses to user questions."
  const GroundedPlaceholder := "Unable to generate response from search results."
  const FallbackPlaceholder := "Unable to generate response."
  const GroundedTemperatureTenths: nat := 3
  const FallbackTemperatureTenths: nat := 7
  const SearchUrlPrefix := "https://example.com/search?q="
  const NewsUrlPrefix := "https://news.example.com/"
  const EntrySeparator := "\n---\n"
  const PromptTail := "\n\nPlease provide a comprehensive answer based on these search results."

  /** `s.replace(/\s+/g, '-')`: every maximal run of whitespace becomes one hyphen. */
  function HyphenateWhitespace(s: string): (r: string)
    ensures forall c <- r :: !IsJsWhitespace(c)
    ensures |r| <= |s|
    decreases |s|
  {
    if s == [] then []
    else if IsJsWhitespace(s[0]) then
      var rest := TrimStart(s);
      "-" + HyphenateWhitespace(rest)
    else [s[0]] + HyphenateWhitespace(s[1..])
  }

  /** A string without whitespace is left as it is. */
  lemma {:induction false} HyphenateKeepsPlainText(s: string)
    requires forall c <- s :: !IsJsWhitespace(c)
    ensures HyphenateWhitespace(s) == s
  {
    if s != [] {
      assert s[0] in s;
      HyphenateKeepsPlainText(s[1..]);
      assert s == [s[0]] + s[1..];
    }
  }

  /** Rewriting twice changes nothing more than rewriting once. */
  lemma HyphenateIdempotent(s: string)
    ensures HyphenateWhitespace(HyphenateWhitespace(s)) == HyphenateWhitespace(s)
  {
    HyphenateKeepsPlainText(HyphenateWhitespace(s));
  }

  /** A whole run of whitespace, however long, followed by text that does not begin
      with whitespace, turns into exactly one hyphen. */
  lemma HyphenateRun(run: string, t: string)
    requires run != [] && forall c <- run :: IsJsWhitespace(c)
    requires t == [] || !IsJsWhitespace(t[0])
    ensures HyphenateWhitespace(run + t) == "-" + HyphenateWhitespace(t)
  {
    assert (run + t)[0] == run[0] && run[0] in run;
    TrimStartSkipsRun(run, t);
  }

  /** A character that is not whitespace is copied as it is. */
  lemma KeepChar(c: char, t: string)
    requires !IsJsWhitespace(c)
    ensures HyphenateWhitespace([c] + t) == [c] + HyphenateWhitespace(t)
  {
    assert ([c] + t)[1..] == t;
  }

  /** A maximal run of whitespace anywhere in the string, between text that does not
      end with whitespace and text that does not begin with it, becomes exactly one
      hyphen, and the text on either side is rewritten on its own. */
  lemma {:induction false} HyphenateRunInside(p: string, run: string, t: string)
    requires p == [] || !IsJsWhitespace(p[|p| - 1])
    requires run != [] && forall c <- run :: IsJsWhitespace(c)
    requires t == [] || !IsJsWhitespace(t[0])
    ensures HyphenateWhitespace(p + (run + t)) == HyphenateWhitespace(p) + ("-" + HyphenateWhitespace(t))
    decreases |p|
  {
    if p == [] {
      assert p + (run + t) == run + t;
      HyphenateRun(run, t);
    } else if !IsJsWhitespace(p[0]) {
      assert p == [p[0]] + p[1..];
      HyphenateRunInside(p[1..], run, t);
      RewriteAfterChar(p[0], p[1..], run + t, "-" + HyphenateWhitespace(t));
    } else {
      var lead, q := LeadingRun(p);
      var u := run + t;
      HyphenateRunInside(q, run, t);
      assert HyphenateWhitespace(lead + q) == "-" + HyphenateWhitespace(q) by { HyphenateRun(lead, q); }
      assert HyphenateWhitespace(lead + (q + u)) == "-" + HyphenateWhitespace(q + u) by {
        assert (q + u)[0] == q[0];
        HyphenateRun(lead, q + u);
      }
      RewriteAfterRun(lead, q, u, "-" + HyphenateWhitespace(t));
    }
  }

  /** One step of `HyphenateRunInside`: a leading character that is not whitespace. */
  lemma RewriteAfterChar(c: char, rest: string, u: string, tail: string)
    requires !IsJsWhitespace(c)
    requires HyphenateWhitespace(rest + u) == HyphenateWhitespace(rest) + tail
    ensures HyphenateWhitespace(([c] + rest) + u) == HyphenateWhitespace([c] + rest) + tail
  {
    var hr := HyphenateWhitespace(rest);
    assert HyphenateWhitespace([c] + rest) == [c] + hr by { KeepChar(c, rest); }
    assert HyphenateWhitespace(([c] + rest) + u) == [c] + (hr + tail) by {
      ConcatAssoc([c], rest, u);
      KeepChar(c, rest + u);
    }
    ConcatAssoc([c], hr, tail);
  }

  /** One step of `HyphenateRunInside`: a leading run of whitespace, which becomes one
      hyphen both before `q` alone and before `q + u`. */
  lemma RewriteAfterRun(lead: string, q: string, u: string, tail: string)
    requires HyphenateWhitespace(lead + q) == "-" + HyphenateWhitespace(q)
    requires HyphenateWhitespace(lead + (q + u)) == "-" + HyphenateWhitespace(q + u)
    requires HyphenateWhitespace(q + u) == HyphenateWhitespace(q) + tail
    ensures HyphenateWhitespace((lead + q) + u) == HyphenateWhitespace(lead + q) + tail
  {
    ConcatAssoc(lead, q, u);
    ConcatAssoc("-", HyphenateWhitespace(q), tail);
  }

  /** A string that starts with whitespace and ends without it is a whitespace run
      followed by a non-empty rest that starts and ends without whitespace. */
  lemma LeadingRun(p: string) returns (lead: string, q: string)
    requires p != [] && IsJsWhitespace(p[0]) && !IsJsWhitespace(p[|p| - 1])
    ensures p == lead + q && |q| < |p|
    ensures lead != [] && forall c <- lead :: IsJsWhitespace(c)
    ensures q != [] && !IsJsWhitespace(q[0]) && q[|q| - 1] == p[|p| - 1]
  {
    q := TrimStart(p);
    lead := p[..|p| - |q|];
    assert p == lead + q;
    assert q != [];
  }

  /** `TrimStart` removes exactly a leading run of whitespace. */
  lemma {:induction false} TrimStartSkipsRun(run: string, t: string)
    requires forall c <- run :: IsJsWhitespace(c)
    requires t == [] || !IsJsWhitespace(t[0])
    ensures TrimStart(run + t) == t
  {
    if run == [] {
      assert run + t == t;
    } else {
      assert (run + t)[0] == run[0] && run[0] in run;
      assert (run + t)[1..] == run[1..] + t;
      TrimStartSkipsRun(run[1..], t);
    }
  }

  /** The built-in provider (`performWebSearch` delegates to `simulateSearchResults`):
      two canned results about `query`. `encode` is `encodeURIComponent`. */
  function SimulateSearchResults(query: string, encode: string -> string): (results: seq<SearchResult>)
    ensures |results| == 2
    ensures results[0].url == SearchUrlPrefix + encode(query)
    ensures results[1].url == NewsUrlPrefix + HyphenateWhitespace(query)
    ensures forall c <- results[1].url[|NewsUrlPrefix|..] :: !IsJsWhitespace(c)
  {
    [ SearchResult("Information about " + query,
                   "Comprehensive information and details about " + query + " from various reliable sources.",
                   SearchUrlPrefix + encode(query),
                   "Example Source"),
      SearchResult(query + " - Latest Updates",
                   "Recent developments and news related to " + query + ".",
                   NewsUrlPrefix + HyphenateWhitespace(query),
                   "News Source") ]
  }

  /** One entry of the search context: title, description and source, not the URL. */
  function RenderResult(r: SearchResult): string {
    "Title: " + r.title + "\nDescription: " + r.description + "\nSource: " + r.source + "\n"
  }

  /** `results.map(render)`. */
  function RenderAll(results: seq<SearchResult>): (entries: seq<string>)
    ensures |entries| == |results|
    ensures forall i | 0 <= i < |results| :: entries[i] == RenderResult(results[i])
  {
    if results == [] then [] else [RenderResult(results[0])] + RenderAll(results[1..])
  }

  /** `results.map(render).join('\n---\n')`: empty for no results, and led by the
      first result's entry otherwise. */
  function SearchContext(results: seq<SearchResult>): (c: string)
    ensures results == [] ==> c == ""
    ensures results != [] ==> StartsWith(c, RenderResult(results[0]))
  {
    Join(RenderAll(results), EntrySeparator)
  }

  /** The context of one result is that result's entry alone. */
  lemma ContextOfOne(r: SearchResult)
    ensures SearchContext([r]) == RenderResult(r)
  {
  }

  /** The context of two lists of results is their contexts joined by one separator:
      the entries keep their order. */
  lemma ContextAppend(a: seq<SearchResult>, b: seq<SearchResult>)
    requires a != [] && b != []
    ensures SearchContext(a + b) == SearchContext(a) + EntrySeparator + SearchContext(b)
  {
    assert RenderAll(a + b) == RenderAll(a) + RenderAll(b);
    JoinAppend(RenderAll(a), RenderAll(b), EntrySeparator);
  }

  /** The URL never reaches the context: results that agree in everything but their
      URLs give the same context. */
  lemma ContextIgnoresUrls(a: seq<SearchResult>, b: seq<SearchResult>)
    requires |a| == |b|
    requires forall i | 0 <= i < |a| ::
      a[i].title == b[i].title && a[i].description == b[i].description && a[i].source == b[i].source
    ensures SearchContext(a) == SearchContext(b)
  {
    assert RenderAll(a) == RenderAll(b);
  }

  /** What the user prompt puts before the context. */
  function PromptHead(query: string): string {
    "Question: " + query + "\n\nSearch Results:\n"
  }

  /** The user prompt of the grounded request: the question, then the context as it
      is, then the closing instruction. */
  function UserPrompt(query: string, context: string): (p: string)
    ensures StartsWith(p, "Question: " + query)
    ensures |p| == |PromptHead(query)| + |context| + |PromptTail|
    ensures p[..|PromptHead(query)|] == PromptHead(query)
    ensures p[|PromptHead(query)|..|PromptHead(query)| + |context|] == context
    ensures p[|PromptHead(query)| + |context|..] == PromptTail
  {
    var p := PromptHead(query) + context + PromptTail;
    assert p[..|"Question: " + query|] == "Question: " + query;
    p
  }

  /** Different contexts give different prompts for the same question. */
  lemma UserPromptInjective(query: string, c1: string, c2: string)
    requires UserPrompt(query, c1) == UserPrompt(query, c2)
    ensures c1 == c2
  {
  }

  /** The request of `generateAnswerFromResults`: no `stream` field, temperature 0.3. */
  function GroundedRequest(query: string, results: seq<SearchResult>, key: string): ChatRequest {
    ChatRequest(Endpoint, Bearer(key), ModelName,
                [Message(System, GroundingInstruction), Message(User, UserPrompt(query, SearchContext(results)))],
                GroundedTemperatureTenths, MaxTokens, None)
  }

  /** The request of `fallbackToChat`: the bare query, temperature 0.7. */
  function FallbackRequest(query: string, key: string): ChatRequest {
    ChatRequest(Endpoint, Bearer(key), ModelName,
                [Message(System, FallbackInstruction), Message(User, query)],
                FallbackTemperatureTenths, MaxTokens, None)
  }

  /** Both requests go to the same endpoint with the same model, key and token limit;
      they differ in temperature, in the system entry, and in the user entry, which is
      the bare query for the fallback and the query wrapped with the search context
      for the grounded request. */
  lemma RequestsDiffer(query: string, results: seq<SearchResult>, key: string)
    ensures var g, f := GroundedRequest(query, results, key), FallbackRequest(query, key);
      && g.url == f.url == Endpoint && g.model == f.model == ModelName
      && g.authorization == f.authorization == Bearer(key)
      && g.maxTokens == f.maxTokens == MaxTokens && g.stream == f.stream == None
      && |g.messages| == |f.messages| == 2
      && g.messages[0].role == f.messages[0].role == System
      && g.messages[1].role == f.messages[1].role == User
      && g.temperatureTenths < f.temperatureTenths
      && g.messages[0] != f.messages[0]
      && f.messages[1].content == query
      && StartsWith(g.messages[1].content, "Question: " + query)
      && |g.messages[1].content| > |query|
  {
    var g, f := GroundedRequest(query, results, key), FallbackRequest(query, key);
    assert |GroundingInstruction| != |FallbackInstruction|;
  }

  /** `if (!response.ok) throw …; data.choices[0]?.message?.content || placeholder`.
      Unlike `chat`, an error status is reported without the upstream message. */
  function AnswerReply(outcome: FetchOutcome, placeholder: string): (r: Result<string, ServiceError>)
    requires placeholder != ""
    ensures r.Success? <==>
      outcome.Responded? && outcome.response.Ok()
      && outcome.response.json.JsonObject? && outcome.response.json.choices.Some?
    ensures r.Success? ==> r.value != ""
    ensures r.Success? && r.value != placeholder ==>
      r.value == FirstContent(outcome.response.json.choices.value)
    ensures r.Success? && FirstContent(outcome.response.json.choices.value) != "" ==>
      r.value == FirstContent(outcome.response.json.choices.value)
    ensures outcome.Responded? && outcome.response.Ok() ==>
      r == ReplyContent(outcome.response.json, placeholder)
    ensures r.Failure? && r.error.ApiError? ==>
      outcome.Responded? && !outcome.response.Ok() && r.error == ApiError(outcome.response.status, None)
    ensures outcome.Responded? && !outcome.response.Ok() ==>
      r == Failure(ApiError(outcome.response.status, None))
    ensures outcome.Rejected? ==> r == Failure(NetworkError(outcome.reason))
  {
    match outcome
    case Rejected(reason) => Failure(NetworkError(reason))
    case Responded(response) =>
      if !response.Ok() then Failure(ApiError(response.status, None))
      else ReplyContent(response.json, placeholder)
  }

  /** `generateAnswerFromResults`: without a truthy key it throws before any request;
      otherwise one grounded request. */
  function GenerateAnswerFromResults(query: string, results: seq<SearchResult>, storedKey: Option<string>,
                                     fetch: ChatRequest -> FetchOutcome): (x: Exchange)
    ensures x.sent == [] <==> !Truthy(storedKey)
    ensures x.sent == [] ==> x.result == Failure(ApiKeyNotConfigured)
    ensures x.sent != [] ==>
      && x.sent == [GroundedRequest(query, results, storedKey.value)]
      && x.result == AnswerReply(fetch(x.sent[0]), GroundedPlaceholder)
  {
    if !Truthy(storedKey) then Exchange(Failure(ApiKeyNotConfigured), [])
    else
      var request := GroundedRequest(query, results, storedKey.value);
      Exchange(AnswerReply(fetch(request), GroundedPlaceholder), [request])
  }

  /** `fallbackToChat`: without a truthy key it throws before any request; otherwise
      one plain request. */
  function FallbackToChat(query: string, storedKey: Option<string>, fetch: ChatRequest -> FetchOutcome): (x: Exchange)
    ensures x.sent == [] <==> !Truthy(storedKey)
    ensures x.sent == [] ==> x.result == Failure(ApiKeyNotConfigured)
    ensures x.sent != [] ==>
      && x.sent == [FallbackRequest(query, storedKey.value)]
      && x.result == AnswerReply(fetch(x.sent[0]), FallbackPlaceholder)
  {
    if !Truthy(storedKey) then Exchange(Failure(ApiKeyNotConfigured), [])
    else
      var request := FallbackRequest(query, storedKey.value);
      Exchange(AnswerReply(fetch(request), FallbackPlaceholder), [request])
  }

  /** The body of `searchAndAnswer` after its search step, for a search that yields
      results or throws (`searched` is Failure with the thrown message). */
  function AnswerFromSearch(query: string, searched: Result<seq<SearchResult>, string>,
                            storedKey: Option<string>, fetch: ChatRequest -> FetchOutcome): (x: Exchange)
    // no results: the fixed answer, and no request
    ensures searched == Success([]) ==> x == Exchange(Success(NoResultsAnswer), [])
    // a search that throws: the fallback's answer or error
    ensures searched.Failure? ==> x == FallbackToChat(query, storedKey, fetch)
    // results: the grounded answer, or the fallback after the grounded step's requests
    ensures searched.Success? && searched.value != [] ==>
      var grounded := GenerateAnswerFromResults(query, searched.value, storedKey, fetch);
      var fallback := FallbackToChat(query, storedKey, fetch);
      if grounded.result.Success? then x == grounded
      else x == Exchange(fallback.result, grounded.sent + fallback.sent)
    // the only error that reaches the caller is the fallback's
    ensures x.result.Failure? ==> x.result == FallbackToChat(query, storedKey, fetch).result
    ensures |x.sent| <= 2
    ensures x.sent == [] && x.result.Success? <==> searched == Success([])
  {
    match searched
    case Failure(_) => FallbackToChat(query, storedKey, fetch)
    case Success(results) =>
      if results == [] then Exchange(Success(NoResultsAnswer), [])
      else
        var grounded := GenerateAnswerFromResults(query, results, storedKey, fetch);
        if grounded.result.Success? then grounded
        else
          var fallback := FallbackToChat(query, storedKey, fetch);
          Exchange(fallback.result, grounded.sent + fallback.sent)
  }

  /** `searchAndAnswer` with the built-in provider. It always has results, so the
      no-results answer is never given: with a key the grounded request is always
      sent first, and without one both steps throw before any request. */
  function SearchAndAnswer(query: string, encode: string -> string, storedKey: Option<string>,
                           fetch: ChatRequest -> FetchOutcome): (x: Exchange)
    ensures !Truthy(storedKey) ==> x == Exchange(Failure(ApiKeyNotConfigured), [])
    ensures Truthy(storedKey) ==>
      var grounded := GroundedRequest(query, SimulateSearchResults(query, encode), storedKey.value);
      var fallback := FallbackRequest(query, storedKey.value);
      var groundedReply := AnswerReply(fetch(grounded), GroundedPlaceholder);
      if groundedReply.Success? then x == Exchange(groundedReply, [grounded])
      else x == Exchange(AnswerReply(fetch(fallback), FallbackPlaceholder), [grounded, fallback])
  {
    AnswerFromSearch(query, Success(SimulateSearchResults(query, encode)), storedKey, fetch)
  }
}
