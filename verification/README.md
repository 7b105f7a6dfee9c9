# Coursify: a Dafny model of the course-generator request handler

Coursify is a single-page web app. The user types a topic and presses
"Generate Course". The app then:

1. checks that both API keys are set;
2. rejects a topic that strips to nothing;
3. answers from a one-slot session cache when the raw topic equals the last
   one it generated;
4. otherwise searches the web for sources, builds a prompt from the topic and
   the search results, and asks a text model for a course outline;
5. on success, stores the outline and the topic together in the session and
   offers the outline as two downloads, `<topic>_course_outline.md` and
   `.txt`, with spaces in the topic turned into underscores.

This project models that behaviour and proves properties about it.

- `wrappers.dfy`: `Option`.
- `text.dfy` (module `Text`): the pieces of Python string behaviour the
  handler relies on.
  - `str.isspace`, `lstrip`, `rstrip` and `strip`, with the blank-topic test.
  - `"\n".join`.
  - `str.split("\n")`, an independent reference used to state the prompt's
    line structure. The two are proved to be inverses.
- `providers.dfy` (module `Providers`): the search and model calls as
  request values and outcome values. It models what `search_sources` and
  `generate_course` return for each outcome, including the exception paths.
- `wording.dfy` (module `Wording`): the fixed persona and the seven
  instructions of the prompt, character for character. It also shows that
  none of them holds a line break.
- `prompt.dfy` (module `Prompt`): the prompt text as a function.
  - `BuildPrompt` is the imperative construction (header expression, topic
    block, then the per-result loop), proved equal to that function.
  - Lemmas place every result line, title, URL and the topic in the prompt.
  - Lemmas give the prompt's exact line structure.
- `download.dfy` (module `Download`): the download file names and the two
  buttons.
- `session.dfy` (module `Session`): one run of `main` as a pure transition
  `Step` over the two session slots, and the same run as an imperative
  method on a `SessionState` class that holds those two slots.
  - Lemmas cover each branch of the run.
  - Lemmas prove the session invariant over any sequence of runs.
  - A trace lemma proves that the stored pair is always the course and the
    topic of the last successful generation.

Each run takes the two service outcomes as input, so the model decides
nothing the network would decide.

## Model

| member | source | states |
|---|---|---|
| Text.IsSpace | app.py:242 | Definition: the code points Python's `str.isspace()` accepts. This is the set `strip()` removes, as stated by `Text.TrimStartSpec` and `Text.TrimEndSpec`. |
| Text.TrimStart | app.py:242 | Definition of `lstrip()`. Its meaning is stated by `Text.TrimStartSpec`. |
| Text.TrimEnd | app.py:242 | Definition of `rstrip()`. Its meaning is stated by `Text.TrimEndSpec`. |
| Text.Strip | app.py:242 | Definition of `strip()`. Its meaning is stated by `Text.BlankIffAllSpace` and `Text.StripIgnoresPadding`. |
| Text.IsBlank | app.py:242 | Definition of `not topic.strip()`. Its meaning is stated by `Text.BlankIffAllSpace`: exactly the all-whitespace topics. |
| Text.JoinLines | app.py:176 | Definition of `"\n".join`. Its meaning is stated by `Text.JoinAppend`, and by `Text.SplitJoin` and `Text.JoinSplit` against `split("\n")`. |
| Text.TrimStartSpec | app.py:242 | `lstrip` keeps a suffix of the input. Everything it drops is whitespace, and what remains does not start with whitespace. |
| Text.TrimEndSpec | app.py:242 | `rstrip` keeps a prefix of the input. Everything it drops is whitespace, and what remains does not end with whitespace. |
| Text.BlankIffAllSpace | app.py:242 | `not topic.strip()` holds exactly when every character of the topic is Python whitespace, the empty topic included. |
| Text.StripIgnoresPadding | app.py:242 | Whitespace added on either side of a string does not change what `strip()` leaves. |
| Text.SplitLines | app.py:176 | `split("\n")` never returns an empty list. |
| Text.JoinAppend | app.py:176 | Joining two non-empty lists of lines equals joining each and putting one line break between them. |
| Text.SplitJoin | app.py:176 | Splitting the `"\n"`-join of non-empty line-free pieces gives the pieces back. |
| Text.JoinSplit | app.py:176 | Joining the pieces of `split("\n")` gives the original string back. |
| Providers.SearchRequestFor | app.py:77-82 | The search query is the topic itself, and at most 5 results are asked for. |
| Providers.SearchSources | app.py:76-90 | An exception yields no results. Otherwise the results are exactly the response's `results` value; none when the key is missing. |
| Providers.GenerationRequestFor | app.py:183-191 | The model is sent the prompt unchanged, with top-k 40 and at most 8192 output tokens. |
| Providers.GenerateCourse | app.py:181-195 | An exception gives `None`. Any other value returned is exactly the completion's text. |
| Prompt.Bulleted | app.py:176 | Definition of the generator `f"- {instruction}"`. Its meaning in the prompt is stated by `Prompt.PromptLineContents`: line `3 + k` is `- ` followed by instruction `k`. |
| Prompt.HeaderOf | app.py:176 | Definition of the first prompt expression, for any persona and instructions. Its line structure is stated by `Prompt.HeaderIsJoined`. |
| Prompt.Header | app.py:126-135 | Definition: `HeaderOf` applied to the source's persona and instructions. Its lines are stated by `Prompt.PromptLineContents`. |
| Prompt.TopicBlock | app.py:177 | Definition of the topic block. Its lines are stated by `Prompt.TopicLinesJoined`. |
| Prompt.Entry | app.py:179 | Definition of one result's `- title: url` line. Where its fields sit is stated by `Prompt.ResultFieldsAppear`. |
| Prompt.ResultLines | app.py:178-179 | Definition of what the loop appends. `Prompt.AppendResultLines` proves the loop computes it, and `Prompt.ResultLineAt` places each line. |
| Prompt.PromptFrom | app.py:177-179 | Definition: the topic block and result lines after a given header. Its structure is stated by `Prompt.LineStructure`. |
| Prompt.PromptText | app.py:176-179 | Definition of the whole prompt. `Prompt.BuildPrompt` proves the source's construction computes it, and `Prompt.PromptLineContents` gives it line by line. |
| Prompt.AppendResultLines | app.py:178-179 | The loop appends one `- title: url` line per result, in input order, after whatever text it starts from. |
| Prompt.BuildPrompt | app.py:176-179 | The prompt the source assembles step by step equals the prompt text: persona, instructions, topic block, result lines. |
| Prompt.ResultLinesStep | app.py:178-179 | One more loop iteration adds exactly the next result's line. |
| Prompt.ResultLinesAppend | app.py:178-179 | The lines for two result lists are the lines of the first followed by the lines of the second. |
| Prompt.ResultLineAt | app.py:177-179 | Result `i`'s line, with its line break, sits at a known offset. The next result's line starts right after it. |
| Prompt.ResultFieldsAppear | app.py:179 | Every title and every URL appears in the prompt, at its position inside its own line. |
| Prompt.TopicAppears | app.py:177 | `Topic: <topic>` is a line of its own, right after the header and a blank line. |
| Prompt.Entries | app.py:179 | Definition: the list of `- title: url` entries. Its meaning in the prompt is stated by `Prompt.ResultLinesJoin` and `Prompt.PromptLineContents`: line `14 + i` is result `i`'s entry. |
| Prompt.ResultLinesJoin | app.py:178-179 | The result lines are the entries joined by line breaks, followed by one final line break. |
| Prompt.TopicLinesJoined | app.py:177 | The topic block is the join of a blank line, the topic line, a blank line and the results heading. |
| Prompt.TailIsJoined | app.py:177-179 | What follows the header is the join of the topic lines, the entries and one final empty piece. |
| Prompt.HeaderIsJoined | app.py:176 | The header is the join of the persona, a blank line, the `Instructions:` heading and the bulleted instructions. |
| Prompt.LineStructure | app.py:176-179 | For any line-free persona, instructions, topic, titles and URLs, splitting the prompt on `"\n"` gives back exactly the header lines followed by the tail lines. |
| Prompt.PromptLines | app.py:176-179 | The reference list of the prompt's lines has 15 entries plus one per result. `Prompt.PromptLineStructure` shows that this is what `split("\n")` gives for a line-free topic, titles and URLs. |
| Prompt.PromptLineStructure | app.py:176-179 | With a line-free topic, titles and URLs, the prompt splits into exactly its 15 + `\|results\|` lines, in order. |
| Prompt.LinesAt | app.py:176-179 | For any persona and instructions, the reference lines are, in order: the persona, a blank line, the heading, each bulleted instruction, a blank line, the topic line, a blank line, the results heading, each `- title: url` entry and a final empty piece. |
| Prompt.PromptLineContents | app.py:126-179 | For a line-free topic, titles and URLs, `split("\n")` of the prompt gives 15 + `\|results\|` lines, in order: the persona, a blank line, `Instructions:`, `- ` followed by each instruction in the source's order, a blank line, `Topic: <topic>`, a blank line, `Search Results:`, each result's `- title: url` in input order, and a final empty piece. |
| Wording.InstructionSingle | app.py:127-135 | None of the seven instructions holds a line break. |
| Download.ReplaceSpaces | app.py:264 | `replace(' ', '_')` keeps the length and turns each plain space into `_`. Every other character, other whitespace included, is left unchanged. |
| Download.FileName | app.py:264 | The file name has the topic's length plus the suffix's. Each of its first `\|topic\|` characters is the topic's character, with a plain space turned into `_`. The name ends with the suffix. |
| Download.DownloadButtons | app.py:259-275 | Both buttons carry the generated text. One is named `…_course_outline.md` and the other `…_course_outline.txt`. |
| Download.NoSpaceInName | app.py:264 | No file name holds a plain space. |
| Download.ReplaceSpacesIdempotent | app.py:264 | Replacing spaces a second time changes nothing. |
| Download.SameNameIff | app.py:264 | Two topics get the same file name exactly when they differ only where one has a space and the other an underscore. |
| Download.NamesCanCollide | app.py:264 | `Machine Learning` and `Machine_Learning` download under the same name. |
| Download.ReplaceOneSpace | app.py:264 | A single space between two space-free words becomes `_`. |
| Download.MachineLearningExample | app.py:264 | `Machine Learning` is downloaded as `Machine_Learning_course_outline.md` and `.txt`. |
| Session.Truthy | app.py:68 | Definition of Python truthiness for an `os.getenv` result: unset and empty are both false. It is used by `Session.MissingKeysStop` and `Session.FailedGenerationKeepsState`. |
| Session.KeysPresent | app.py:66-71 | Definition of `verify_api_keys()`: both keys truthy. Its effect is stated by `Session.MissingKeysStop`. |
| Session.CacheHit | app.py:246 | Definition of the cache test: the raw input equals the stored topic and the stored course is truthy. Its effect is stated by `Session.CacheHitShowsStored` and `Session.PaddedTopicMisses`. |
| Session.Step | app.py:223-254 | Definition of one run of `main` over the two session slots. Its meaning is stated branch by branch by the lemmas from `Session.MissingKeysStop` to `Session.StepKeepsValid`, and `Session.SessionState.Submit` is proved to compute it. |
| Session.Fetch | app.py:248-254 | Definition of the cache-miss branch. Its meaning is stated by `Session.NoResultsNoGeneration`, `Session.FailedGenerationKeepsState`, `Session.SuccessWritesBoth` and `Session.GenerationNeedsResults`. |
| Session.SearchCall | app.py:249 | Definition: the search request a run sends. `Session.PaddedTopicMisses` states what it queries. |
| Session.ModelCall | app.py:251 | Definition: the model request a run sends. `Session.SuccessWritesBoth` states its prompt. |
| Session.Offered | app.py:259-275 | Definition: the download buttons a run shows. Its meaning is stated by `Session.DownloadsCarryCourse`. |
| Session.MissingKeysStop | app.py:66-71 | Without both keys set and non-empty, a run shows the key error, calls nothing and changes nothing. |
| Session.BlankTopicRejected | app.py:241-244 | A pressed run whose topic is all whitespace is rejected, calls nothing and changes nothing. |
| Session.CacheHitShowsStored | app.py:246-247 | Submitting the stored topic again shows the stored course verbatim, with no call and no state change. |
| Session.PaddedTopicMisses | app.py:242-249 | The cache compares the raw input: the stored topic with whitespace around it strips to the same text, yet misses the cache, and the padded text is searched for. |
| Session.NoResultsNoGeneration | app.py:249-250 | When the search yields nothing (none found, no `results` key, or an error), the model is not called and the state is unchanged. |
| Session.FailedGenerationKeepsState | app.py:251-252 | A model error or an empty text leaves both session slots unchanged and shows no course. |
| Session.SuccessWritesBoth | app.py:249-257 | Results plus a non-empty text: the model is sent exactly the prompt for that topic and those results, both slots are written together, and the new course is shown. |
| Session.DownloadsCarryCourse | app.py:259-275 | Two buttons are offered exactly after a generation. Both carry the generated text under the topic's two file names. Otherwise no button is offered. |
| Session.StepFrame | app.py:246-254 | A run either leaves the session as it was, or it stores exactly the course it shows together with exactly the submitted topic. |
| Session.GenerationNeedsResults | app.py:241-251 | A model call happens only after a search for this topic that gave results, for a non-blank topic that missed the cache. |
| Session.StepKeepsValid | app.py:218-254 | Every run preserves the invariant: the slots are set together, the course is non-empty and the topic is not blank. |
| Session.ReplayValid | app.py:218-254 | The invariant holds after any sequence of runs from a fresh session. |
| Session.LastGenerated | app.py:251-254 | The last run that generated among the first `n`, with no generation after it, or -1 when there is none. |
| Session.ReplayIsLastGeneration | app.py:218-254 | After any sequence of runs, the session holds exactly the course and the topic of the last successful generation, or both `None` when there was none. |
| Session.CourseHasItsTopic | app.py:246-254 | A stored course was generated for the stored topic, by a run after which nothing was generated. |
| Session.SessionState.constructor | app.py:218-221 | A fresh session has both slots `None`. |
| Session.SessionState.Submit | app.py:223-254 | One run, in place: the new slots, the view and the external calls are those of `Step`, and the invariant is kept. When the model is called, the prompt built is the prompt text for the topic and the search results. |

## Left out

- The web search client and the text model client are not modelled. Each
  run receives their outcomes as values, and the model records which
  requests it would send.
- Page rendering is not modelled: the CSS, the hero section, the sidebar,
  the columns, the spinners, and the wording of the warning and error
  messages. A run's visible result is the `View` value.
- The feedback radio after a generation (app.py:277-284) has no effect on
  state and is not modelled.
- The unused `course_format` template (app.py:138-174) is never read and is
  not modelled.
- Reading the environment when the module loads (app.py:10-13) is not
  modelled. There, `os.environ["GOOGLE_API_KEY"]` raises before
  `verify_api_keys` runs if that variable is unset, so for the Google key
  the gate's "missing" branch only matters when it is set but empty. The
  Tavily key is read with `os.getenv` (app.py:11), which does not raise,
  so an unset Tavily key reaches the gate unless the Tavily client's
  constructor, which is not part of this model, rejects it first. Here the
  gate is modelled as written, on an `Env` value.
- The sampling parameters 0.7 and 0.8 are exact Dafny `real`s, not binary
  floating point.
- A search result missing its `title` or `url` key raises `KeyError` while
  the prompt is built, outside the `try`. The model's results always carry
  both fields, so this crash is not modelled.
- Streamlit's rerun on every widget change is modelled as a sequence of
  independent runs over the two session slots. Concurrent sessions are not
  modelled.
- Prompt.PromptLineStructure: stated only for a topic, titles and URLs with
  no line break. Any line break in them adds lines, and the general case is
  covered by `BuildPrompt`'s exact text.
- Prompt.TopicAppears: places the topic line at a known offset. It does not
  claim that the topic text occurs only once in the prompt, and that is not
  true in general, since a title or URL may contain it.
