/** What one press of "Generate Course" does (app.py:216-254): the key
    check, the blank-topic guard, the single-slot session cache, the search,
    the generation, and the write of both session slots together. */
module Session {
  import opened Wrappers
  import opened Text
  import opened Providers
  import opened Prompt
  import opened Download

  /** The two variables `verify_api_keys` reads with `os.getenv`. */
  datatype Env = Env(tavilyApiKey: Option<string>, googleApiKey: Option<string>)

  /** Python truthiness of an `os.getenv` result: unset and empty both fail. */
  predicate Truthy(v: Option<string>) {
    v.Some? && v.value != []
  }

  /** `verify_api_keys()` (app.py:66-71). */
  predicate KeysPresent(env: Env) {
    Truthy(env.tavilyApiKey) && Truthy(env.googleApiKey)
  }

  /** `st.session_state.generated_course` and `st.session_state.last_topic`. */
  datatype Cache = Cache(generatedCourse: Option<string>, lastTopic: Option<string>)

  /** Both slots start as `None` (app.py:218-221). */
  const Initial: Cache := Cache(None, None)

  /** One run of `main`: the environment, whether the button was pressed,
      the text in the input box, and what the two services answer if they
      are asked. */
  datatype Request = Request(
    env: Env, pressed: bool, topic: string,
    search: SearchOutcome, generation: GenerationOutcome)

  /** What the page shows after the run. */
  datatype View =
    | MissingKeys                  // error, nothing else rendered
    | Idle                         // page rendered, button not pressed
    | BlankTopic                   // "Please enter a valid topic."
    | ShowCached(course: string)   // the stored course, verbatim
    | NoSources                    // search gave nothing; no generation
    | GenerationFailed             // the model raised or returned ""
    | ShowGenerated(course: string)  // the new course, with its download buttons

  /** The external calls a run makes: the topic it searches for, and the
      topic and results whose prompt it sends to the model. */
  datatype Calls = Calls(searchedFor: Option<string>, prompted: Option<PromptInputs>)

  datatype PromptInputs = PromptInputs(topic: string, results: seq<SearchResult>)

  /** The search request behind `calls.searchedFor`. */
  function SearchCall(calls: Calls): Option<SearchRequest> {
    if calls.searchedFor.Some? then Some(SearchRequestFor(calls.searchedFor.value)) else None
  }

  /** The model request behind `calls.prompted`: its prompt is built from
      exactly those inputs. */
  function ModelCall(calls: Calls): Option<GenerationRequest> {
    if calls.prompted.Some? then
      Some(GenerationRequestFor(PromptText(calls.prompted.value.topic, calls.prompted.value.results)))
    else None
  }

  /** The download buttons a view shows (app.py:259-275): two, only after a
      generation, both carrying the generated text. */
  function Offered(topic: string, view: View): seq<DownloadButton> {
    if view.ShowGenerated? then
      var buttons := DownloadButtons(topic, view.course);
      [buttons.0, buttons.1]
    else []
  }

  const NoCalls: Calls := Calls(None, None)

  datatype Outcome = Outcome(cache: Cache, view: View, calls: Calls)

  /** `input_topic == last_topic and generated_course` (app.py:246): an
      exact comparison of the raw input, and a non-empty stored course. */
  predicate CacheHit(c: Cache, topic: string) {
    c.lastTopic == Some(topic) && Truthy(c.generatedCourse)
  }

  /** The session invariant: the slots are set together, the course is
      non-empty and the topic is not blank. */
  predicate CacheValid(c: Cache) {
    (c.generatedCourse.Some? <==> c.lastTopic.Some?)
    && (c.generatedCourse.Some? ==> c.generatedCourse.value != [] && !IsBlank(c.lastTopic.value))
  }

  /** The meaning of one run: the new cache, what is shown and which
      external calls are made (app.py:223-254). */
  function Step(c: Cache, req: Request): Outcome {
    if !KeysPresent(req.env) then Outcome(c, MissingKeys, NoCalls)
    else if !req.pressed then Outcome(c, Idle, NoCalls)
    else if IsBlank(req.topic) then Outcome(c, BlankTopic, NoCalls)
    else if CacheHit(c, req.topic) then Outcome(c, ShowCached(c.generatedCourse.value), NoCalls)
    else Fetch(c, req.topic, req.search, req.generation)
  }

  /** The cache-miss branch (app.py:249-254): search, and generate only
      when the search gave results. */
  function Fetch(c: Cache, topic: string, search: SearchOutcome, generation: GenerationOutcome): Outcome {
    var results := SearchSources(search);
    if results == [] then Outcome(c, NoSources, Calls(Some(topic), None))
    else
      var calls := Calls(Some(topic), Some(PromptInputs(topic, results)));
      var course := GenerateCourse(generation);
      if !Truthy(course) then Outcome(c, GenerationFailed, calls)
      else Outcome(Cache(course, Some(topic)), ShowGenerated(course.value), calls)
  }

  /** A run without both keys does nothing and calls nothing. */
  lemma MissingKeysStop(c: Cache, req: Request)
    requires !KeysPresent(req.env)
    ensures Step(c, req) == Outcome(c, MissingKeys, NoCalls)
  {
  }

  /** A topic that strips to nothing is rejected: no call, no state change. */
  lemma BlankTopicRejected(c: Cache, req: Request)
    requires KeysPresent(req.env) && req.pressed
    requires AllSpace(req.topic)
    ensures Step(c, req) == Outcome(c, BlankTopic, NoCalls)
  {
    BlankIffAllSpace(req.topic);
  }

  /** Submitting the topic of the stored course shows that course verbatim,
      with no call and no state change. */
  lemma CacheHitShowsStored(c: Cache, req: Request)
    requires CacheValid(c) && KeysPresent(req.env) && req.pressed
    requires c.lastTopic == Some(req.topic)
    ensures Step(c, req) == Outcome(c, ShowCached(c.generatedCourse.value), NoCalls)
  {
  }

  /** The cache check is exact: the same topic with extra whitespace around
      it strips to the same text, yet it misses, and the search is sent the
      padded text. */
  lemma PaddedTopicMisses(c: Cache, req: Request, w: string, w': string)
    requires CacheValid(c) && c.lastTopic.Some? && KeysPresent(req.env) && req.pressed
    requires AllSpace(w) && AllSpace(w') && |w| + |w'| > 0
    requires req.topic == w + c.lastTopic.value + w'
    ensures Strip(req.topic) == Strip(c.lastTopic.value)
    ensures !CacheHit(c, req.topic)
    ensures Step(c, req).calls.searchedFor == Some(req.topic)
    ensures SearchCall(Step(c, req).calls) == Some(SearchRequestFor(req.topic))
  {
    StripIgnoresPadding(w, c.lastTopic.value, w');
    assert |req.topic| != |c.lastTopic.value|;
    if IsBlank(req.topic) {
      assert false;
    }
  }

  /** Whenever the search gives no result (none found, no `results` key, or
      an exception), nothing is generated and the state is unchanged. */
  lemma NoResultsNoGeneration(c: Cache, req: Request)
    requires SearchSources(req.search) == []
    ensures Step(c, req).cache == c
    ensures Step(c, req).calls.prompted == None
    ensures Step(c, req).view in {MissingKeys, Idle, BlankTopic, NoSources} || Step(c, req).view.ShowCached?
  {
  }

  /** A failed generation (an exception, or empty text) leaves both slots alone. */
  lemma FailedGenerationKeepsState(c: Cache, req: Request)
    requires req.generation.GenerationError? || req.generation == Completion([])
    ensures Step(c, req).cache == c
    ensures !Step(c, req).view.ShowGenerated?
  {
  }

  /** A run that gets results and a non-empty text sends the model exactly
      the prompt built from the topic and those results, writes both slots
      together, and offers the same text under the two file names. */
  lemma SuccessWritesBoth(c: Cache, req: Request)
    requires KeysPresent(req.env) && req.pressed && !IsBlank(req.topic) && !CacheHit(c, req.topic)
    requires SearchSources(req.search) != []
    requires req.generation.Completion? && req.generation.text != []
    ensures var o := Step(c, req);
      && o.cache == Cache(Some(req.generation.text), Some(req.topic))
      && o.calls == Calls(Some(req.topic), Some(PromptInputs(req.topic, SearchSources(req.search))))
      && ModelCall(o.calls) == Some(GenerationRequestFor(PromptText(req.topic, SearchSources(req.search))))
      && o.view == ShowGenerated(req.generation.text)
  {
  }

  /** After a generation the page offers two buttons carrying the same
      bytes, the generated text, named after the topic; otherwise none. */
  lemma DownloadsCarryCourse(topic: string, view: View)
    ensures view.ShowGenerated? <==> |Offered(topic, view)| == 2
    ensures !view.ShowGenerated? <==> Offered(topic, view) == []
    ensures view.ShowGenerated? ==>
      && Offered(topic, view)[0].data == view.course && Offered(topic, view)[1].data == view.course
      && Offered(topic, view)[0].fileName == FileName(topic, MarkdownSuffix)
      && Offered(topic, view)[1].fileName == FileName(topic, TextSuffix)
  {
  }

  /** Nothing else changes: a run either leaves the cache as it was, or it
      showed a freshly generated course and stored exactly that course with
      exactly the submitted topic. */
  lemma StepFrame(c: Cache, req: Request)
    ensures var o := Step(c, req);
      o.cache == c
      || (o.view.ShowGenerated? && o.cache == Cache(Some(o.view.course), Some(req.topic)))
  {
  }

  /** A model call happens only after a search that returned results, and
      only for a non-blank topic that missed the cache. */
  lemma GenerationNeedsResults(c: Cache, req: Request)
    requires Step(c, req).calls.prompted.Some?
    ensures KeysPresent(req.env) && req.pressed && !IsBlank(req.topic) && !CacheHit(c, req.topic)
    ensures SearchSources(req.search) != []
    ensures Step(c, req).calls.searchedFor == Some(req.topic)
  {
  }

  /** Every run keeps the session invariant. */
  lemma StepKeepsValid(c: Cache, req: Request)
    requires CacheValid(c)
    ensures CacheValid(Step(c, req).cache)
  {
  }

  /** The cache after a sequence of runs from a fresh session. */
  function Replay(reqs: seq<Request>): Cache {
    if reqs == [] then Initial
    else Step(Replay(reqs[..|reqs| - 1]), reqs[|reqs| - 1]).cache
  }

  /** What run `i` of a sequence does, given the runs before it. */
  function StepAt(reqs: seq<Request>, i: nat): Outcome
    requires i < |reqs|
  {
    Step(Replay(reqs[..i]), reqs[i])
  }

  /** Run `i` generated a course. */
  predicate GeneratedAt(reqs: seq<Request>, i: nat)
    requires i < |reqs|
  {
    StepAt(reqs, i).view.ShowGenerated?
  }

  /** The invariant holds after any sequence of runs. */
  lemma {:induction false} ReplayValid(reqs: seq<Request>)
    ensures CacheValid(Replay(reqs))
  {
    if reqs != [] {
      ReplayValid(reqs[..|reqs| - 1]);
      StepKeepsValid(Replay(reqs[..|reqs| - 1]), reqs[|reqs| - 1]);
    }
  }

  /** The last of the first `n` runs that generated a course, or -1. */
  function LastGenerated(reqs: seq<Request>, n: nat): (k: int)
    requires n <= |reqs|
    ensures -1 <= k < n
    ensures k >= 0 ==> GeneratedAt(reqs, k)
    ensures forall j :: k < j < n ==> !GeneratedAt(reqs, j)
  {
    if n == 0 then -1
    else if GeneratedAt(reqs, n - 1) then n - 1
    else LastGenerated(reqs, n - 1)
  }

  /** The cache that the last generation among the first `n` runs left. */
  function LeftBy(reqs: seq<Request>, n: nat): Cache
    requires n <= |reqs|
  {
    var k := LastGenerated(reqs, n);
    if k < 0 then Initial else Cache(Some(StepAt(reqs, k).view.course), Some(reqs[k].topic))
  }

  /** The cache is a function of the last successful generation: empty if
      there was none, otherwise exactly that run's course and topic, whatever
      the runs after it did. */
  lemma {:induction false} ReplayIsLastGeneration(reqs: seq<Request>, n: nat)
    requires n <= |reqs|
    ensures Replay(reqs[..n]) == LeftBy(reqs, n)
  {
    if n > 0 {
      ReplayIsLastGeneration(reqs, n - 1);
      assert reqs[..n][..n - 1] == reqs[..n - 1];
      assert Replay(reqs[..n]) == StepAt(reqs, n - 1).cache;
      StepFrame(Replay(reqs[..n - 1]), reqs[n - 1]);
    } else {
      assert reqs[..0] == [];
    }
  }

  /** Whenever a course is stored, some run generated exactly that course
      for exactly the stored topic, and no run after it generated. */
  lemma CourseHasItsTopic(reqs: seq<Request>)
    requires Replay(reqs).generatedCourse.Some?
    ensures exists i :: 0 <= i < |reqs| && GeneratedAt(reqs, i)
              && Some(StepAt(reqs, i).view.course) == Replay(reqs).generatedCourse
              && Some(reqs[i].topic) == Replay(reqs).lastTopic
              && forall j :: i < j < |reqs| ==> !GeneratedAt(reqs, j)
  {
    ReplayIsLastGeneration(reqs, |reqs|);
    assert reqs[..|reqs|] == reqs;
    var k := LastGenerated(reqs, |reqs|);
    assert k >= 0;
  }

  /** `st.session_state`'s two slots, updated in place by `main`. */
  class SessionState {
    var generatedCourse: Option<string>
    var lastTopic: Option<string>

    function Snapshot(): Cache
      reads this
    {
      Cache(generatedCourse, lastTopic)
    }

    ghost predicate Valid()
      reads this
    {
      CacheValid(Snapshot())
    }

    /** A fresh session: both slots `None` (app.py:218-221). */
    constructor ()
      ensures Valid() && Snapshot() == Initial
    {
      generatedCourse := None;
      lastTopic := None;
    }

    /** One run of `main` (app.py:223-254), the two service outcomes
        supplied in the request. */
    method Submit(req: Request) returns (view: View, calls: Calls, prompt: Option<string>)
      requires Valid()
      modifies this
      ensures Valid()
      ensures Snapshot() == Step(old(Snapshot()), req).cache
      ensures view == Step(old(Snapshot()), req).view
      ensures calls == Step(old(Snapshot()), req).calls
      ensures prompt == if calls.prompted.Some? then Some(PromptText(req.topic, calls.prompted.value.results)) else None
    {
      prompt := None;
      if !KeysPresent(req.env) {
        return MissingKeys, NoCalls, None;
      }
      if !req.pressed {
        return Idle, NoCalls, None;
      }
      if IsBlank(req.topic) {
        return BlankTopic, NoCalls, None;
      }
      if lastTopic == Some(req.topic) && Truthy(generatedCourse) {
        return ShowCached(generatedCourse.value), NoCalls, None;
      }
      var results := SearchSources(req.search);
      if results == [] {
        return NoSources, Calls(Some(req.topic), None), None;
      }
      var text := BuildPrompt(req.topic, results);
      prompt := Some(text);
      calls := Calls(Some(req.topic), Some(PromptInputs(req.topic, results)));
      var finalCourse := GenerateCourse(req.generation);
      if !Truthy(finalCourse) {
        return GenerationFailed, calls, prompt;
      }
      generatedCourse := finalCourse;
      lastTopic := Some(req.topic);
      view := ShowGenerated(finalCourse.value);
    }
  }
}
