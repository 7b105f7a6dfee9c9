/** The two external services, reduced to what the handler sees of them:
    the request it sends and the outcome it gets back. The services
    themselves (a web search client and a hosted text model) are not part
    of this model; their outcomes are supplied as values. */
module Providers {
  import opened Wrappers

  /** One search hit: the two fields of a result the prompt uses. */
  datatype SearchResult = SearchResult(title: string, url: string)

  /** The arguments of the search call (app.py:77-82). */
  datatype SearchRequest = SearchRequest(query: string, searchDepth: string, maxResults: nat, searchType: string)

  /** Default of `search_sources`'s `max_results`. */
  const MaxResults: nat := 5

  /** The request `search_sources(topic)` issues: the topic itself as the query. */
  function SearchRequestFor(topic: string): (q: SearchRequest)
    ensures q.query == topic && q.maxResults == MaxResults
  {
    SearchRequest(topic, "advanced", MaxResults, "comprehensive")
  }

  /** What the search client can answer: a response whose `results` key
      may be missing, or an exception. */
  datatype SearchOutcome =
    | Response(results: Option<seq<SearchResult>>)
    | SearchError(message: string)

  /** `search_sources` (app.py:73-90) after the call: the response's
      results, or `[]` when the key is missing or the call raised. */
  function SearchSources(outcome: SearchOutcome): (rs: seq<SearchResult>)
    ensures outcome.Response? && outcome.results.Some? ==> rs == outcome.results.value
    ensures outcome.Response? && outcome.results.None? ==> rs == []
    ensures outcome.SearchError? ==> rs == []
  {
    match outcome
    case Response(Some(results)) => results
    case Response(None) => []
    case SearchError(_) => []
  }

  /** The arguments of the model call (app.py:183-191); the sampling
      parameters are the source's fixed constants. */
  datatype GenerationRequest = GenerationRequest(
    prompt: string, temperature: real, topP: real, topK: nat, maxOutputTokens: nat)

  const Temperature: real := 0.7
  const TopP: real := 0.8
  const TopK: nat := 40
  const MaxOutputTokens: nat := 8192

  function GenerationRequestFor(prompt: string): (g: GenerationRequest)
    ensures g.prompt == prompt && g.topK == TopK && g.maxOutputTokens == MaxOutputTokens
  {
    GenerationRequest(prompt, Temperature, TopP, TopK, MaxOutputTokens)
  }

  /** What the model client can answer: a completion's text, or an
      exception (raised by the call or by reading `.text`). */
  datatype GenerationOutcome =
    | Completion(text: string)
    | GenerationError(message: string)

  /** The value `generate_course` returns once the prompt is sent
      (app.py:181-195): the text verbatim, or `None` on an exception. */
  function GenerateCourse(outcome: GenerationOutcome): (r: Option<string>)
    ensures outcome.Completion? ==> r == Some(outcome.text)
    ensures outcome.GenerationError? ==> r == None
  {
    match outcome
    case Completion(text) => Some(text)
    case GenerationError(_) => None
  }
}
